/** The public Promise layer as functions over the world of cells: the
    executor constructor, `then`/`catch` and the statics `resolve`,
    `reject`, `all` and `race`. Promise `i` owns cell `i`; its `deferred`
    never moves, because Deferred.then returns the cell it was called on. */
module Promises {
  import opened Values
  import opened Cells
  import opened CellLemmas

  /** The end of an operation that makes a promise. When `thrown` is set the
      operation threw and `promise` means nothing. */
  datatype Made = Made(world: World, promise: nat, thrown: Option<Value>)

  /** `new Deferred` inside the constructor: the next id, a pending cell. */
  function Allocate(w: World): (m: Made)
    ensures m.promise == |w.cells| && m.thrown == None
    ensures m.world.cells == w.cells + [FreshCell()] && m.world.joins == w.joins
  {
    Made(w.(cells := w.cells + [FreshCell()]), |w.cells|, None)
  }

  /** What a user's executor does synchronously: it calls the `resolve` and
      `reject` it is handed, in order, then returns or throws. */
  datatype SettleCall = CallResolve(value: Value) | CallReject(reason: Value)
  datatype Executor = Executor(calls: seq<SettleCall>, completion: Completion)

  /** The first `n` calls of an executor on cell `p`; a throw ends the executor. */
  function RunCalls(w: World, p: nat, calls: seq<SettleCall>, n: nat): (r: Run)
    requires n <= |calls|
    ensures |r.world.cells| == |w.cells|
  {
    if n == 0 then Run(w, None)
    else
      var prev := RunCalls(w, p, calls, n - 1);
      if prev.thrown.Some? then prev
      else
        match calls[n - 1]
        case CallResolve(v) => Resolve(prev.world, p, v)
        case CallReject(e) => Reject(prev.world, p, e)
  }

  lemma {:induction false} RunCallsEvolves(w: World, p: nat, calls: seq<SettleCall>, n: nat)
    requires n <= |calls|
    ensures Evolves(w, RunCalls(w, p, calls, n).world)
  {
    if n > 0 {
      RunCallsEvolves(w, p, calls, n - 1);
      var prev := RunCalls(w, p, calls, n - 1);
      if prev.thrown.None? {
        match calls[n - 1] {
          case CallResolve(v) =>
            ResolveEvolves(prev.world, p, v);
            EvolvesTrans(w, prev.world, Resolve(prev.world, p, v).world);
          case CallReject(e) =>
            RejectEvolves(prev.world, p, e);
            EvolvesTrans(w, prev.world, Reject(prev.world, p, e).world);
        }
      }
    }
  }

  /** An executor's calls on a cell nobody has subscribed to never throw. */
  lemma {:induction false} RunCallsQuiet(w: World, p: nat, calls: seq<SettleCall>, n: nat)
    requires n <= |calls|
    requires p < |w.cells| && w.cells[p].resolves == [] && w.cells[p].rejects == []
    ensures RunCalls(w, p, calls, n).thrown == None
  {
    if n > 0 {
      RunCallsQuiet(w, p, calls, n - 1);
      RunCallsEvolves(w, p, calls, n - 1);
      UnobservedNeverThrows(w, RunCalls(w, p, calls, n - 1).world, p);
    }
  }

  /** One more call of the executor after calls that returned normally. */
  lemma RunCallsStep(w: World, p: nat, calls: seq<SettleCall>, i: nat, mid: World)
    requires i < |calls| && RunCalls(w, p, calls, i) == Run(mid, None)
    ensures RunCalls(w, p, calls, i + 1) ==
      match calls[i]
      case CallResolve(v) => Resolve(mid, p, v)
      case CallReject(e) => Reject(mid, p, e)
  {
  }

  /** Nobody can subscribe to the cell an executor settles, so settling it never throws. */
  lemma UnobservedNeverThrows(w0: World, w: World, p: nat)
    requires Evolves(w0, w)
    requires p < |w0.cells| && w0.cells[p].resolves == [] && w0.cells[p].rejects == []
    ensures forall v :: Resolve(w, p, v).thrown == None
    ensures forall e :: Reject(w, p, e).thrown == None
  {
    assert CellEvolves(w0.cells[p], w.cells[p]);
    if w.cells[p].status == Pending {
      forall v ensures Resolve(w, p, v).thrown == None { ResolveUnobserved(w, p, v); }
      forall e ensures Reject(w, p, e).thrown == None { RejectUnobserved(w, p, e); }
    }
  }

  /** `try { executor(...) } catch (e) { deferred.reject(e); }` around an
      executor body that has already run on the new cell `p`. */
  function Guard(body: Run, p: nat): (m: Made)
    ensures m.promise == p
    ensures |m.world.cells| == |body.world.cells|
  {
    if body.thrown.None? then Made(body.world, p, None)
    else
      var caught := Reject(body.world, p, body.thrown.value);
      Made(caught.world, p, caught.thrown)
  }

  /** `new Promise(executor)`. `executor` is None when it is not a function. */
  function Construct(w: World, executor: Option<Executor>): (m: Made)
    ensures executor.None? ==> m == Made(w, 0, Some(TypeError("Executor must be a function")))
    ensures executor.Some? ==>
      m.thrown == None && m.promise == |w.cells| && |m.world.cells| == |w.cells| + 1
  {
    if executor.None? then Made(w, 0, Some(TypeError("Executor must be a function")))
    else
      var m := Allocate(w);
      var ex := executor.value;
      var ran := RunCalls(m.world, m.promise, ex.calls, |ex.calls|);
      var body :=
        if ran.thrown.None? && ex.completion.Throw? then Run(ran.world, Some(ex.completion.error))
        else ran;
      RunCallsQuiet(m.world, m.promise, ex.calls, |ex.calls|);
      RunCallsEvolves(m.world, m.promise, ex.calls, |ex.calls|);
      UnobservedNeverThrows(m.world, ran.world, m.promise);
      Guard(body, m.promise)
  }

  /** `Promise.prototype.then(onFulfilled, onRejected)` on promise `p`; a
      handler is None when it is not a function. */
  function PromiseThen(w: World, p: nat, onFulfilled: Option<Fn>, onRejected: Option<Fn>): (m: Made)
    ensures m.promise == |w.cells| && |m.world.cells| == |w.cells| + 1
  {
    var a := Allocate(w);
    var child := a.promise;
    var f := if onFulfilled.Some? then Wrapper(onFulfilled.value, child) else Resolver(child);
    var g := if onRejected.Some? then Wrapper(onRejected.value, child) else Rejecter(child);
    var r := Then(a.world, p, Some(f), Some(g));
    Made(r.world, child, r.thrown)
  }

  /** `Promise.prototype.catch(onRejected)`. */
  function Catch(w: World, p: nat, onRejected: Option<Fn>): (m: Made)
    ensures m.promise == |w.cells|
  {
    PromiseThen(w, p, None, onRejected)
  }

  /** `Promise.resolve(value)`: the same promise back for an instance of
      Promise, otherwise a new promise resolved with the value as it is. */
  function StaticResolve(w: World, v: Value): (m: Made)
    ensures v.PromiseObj? ==> m == Made(w, v.id, None)
    ensures !v.PromiseObj? ==>
      && m.thrown == None
      && m.promise == |w.cells|
      && m.world.joins == w.joins
      && m.world.cells == w.cells + [FreshCell().(status := Fulfilled, value := v)]
  {
    if v.PromiseObj? then Made(w, v.id, None)
    else
      var a := Allocate(w);
      ResolveUnobserved(a.world, a.promise, v);
      Guard(Resolve(a.world, a.promise, v), a.promise)
  }

  /** `Promise.reject(reason)`: it writes `_result` and `_status`, which
      nothing reads, so the new cell stays pending. */
  function StaticReject(w: World, e: Value): (m: Made)
    ensures m.thrown == None && m.promise == |w.cells| && m.world.joins == w.joins
    ensures m.world.cells ==
      w.cells + [FreshCell().(strayResult := Some(e), strayStatus := Some("rejected"))]
  {
    var a := Allocate(w);
    var cell := a.world.cells[a.promise];
    var cell' := cell.(strayResult := Some(e), strayStatus := Some("rejected"));
    Made(a.world.(cells := a.world.cells[a.promise := cell']), a.promise, None)
  }

  /** What `Promise.reject(reason)` evidently means: a new promise already
      rejected with `reason`, with no callback run (none can be queued yet). */
  function StaticRejectIntended(w: World, e: Value): (m: Made)
    ensures m.thrown == None && m.promise == |w.cells| && m.world.joins == w.joins
    ensures m.world.cells == w.cells + [FreshCell().(status := Rejected, reason := e)]
  {
    var a := Allocate(w);
    var cell := a.world.cells[a.promise];
    Made(a.world.(cells := a.world.cells[a.promise := cell.(status := Rejected, reason := e)]), a.promise, None)
  }

  /** One turn of Promise.all's loop: `Promise.resolve(p).then(slot, reject)`. */
  function AllStep(w: World, a: nat, j: nat, p: Value, index: nat): (r: Run)
    ensures |r.world.cells| == |w.cells| + (if p.PromiseObj? then 1 else 2)
  {
    var q := StaticResolve(w, p);
    var t := PromiseThen(q.world, q.promise, Some(Slot(j, index)), Some(Rejecter(a)));
    Run(t.world, t.thrown)
  }

  /** The first `n` turns of Promise.all's loop. */
  function AllLoop(w: World, a: nat, j: nat, items: seq<Value>, n: nat): (r: Run)
    requires n <= |items|
  {
    if n == 0 then Run(w, None)
    else
      var prev := AllLoop(w, a, j, items, n - 1);
      if prev.thrown.Some? then prev
      else AllStep(prev.world, a, j, items[n - 1], n - 1)
  }

  /** `Promise.all(iterable)`: a new promise `a` and its shared counter;
      each input is wired to a slot, an empty input fulfils with `[]`. */
  function All(w: World, items: seq<Value>): (m: Made)
    ensures m.promise == |w.cells| < |m.world.cells|
  {
    var made := Allocate(w);
    var a := made.promise;
    var j := |made.world.joins|;
    var w1 := made.world.(joins := made.world.joins + [Join(a, |items|, map[], 0)]);
    Guard(AllExecutor(w1, a, j, items), a)
  }

  /** The executor Promise.all hands to `new Promise`, once `l`, `resolved`
      and `results` exist as Promise.all state `j`. */
  function AllExecutor(w: World, a: nat, j: nat, items: seq<Value>): (r: Run)
    ensures |w.cells| <= |r.world.cells| <= |w.cells| + |items| + |items|
  {
    if |items| > 0 then
      AllLoopSize(w, a, j, items, |items|);
      AllLoop(w, a, j, items, |items|)
    else Resolve(w, a, List([]))
  }

  /** One turn of Promise.race's loop: `Promise.resolve(p).then(resolve, reject)`. */
  function RaceStep(w: World, r: nat, p: Value): (out: Run)
    ensures |out.world.cells| == |w.cells| + (if p.PromiseObj? then 1 else 2)
  {
    var q := StaticResolve(w, p);
    var t := PromiseThen(q.world, q.promise, Some(Resolver(r)), Some(Rejecter(r)));
    Run(t.world, t.thrown)
  }

  function RaceLoop(w: World, r: nat, items: seq<Value>, n: nat): (out: Run)
    requires n <= |items|
  {
    if n == 0 then Run(w, None)
    else
      var prev := RaceLoop(w, r, items, n - 1);
      if prev.thrown.Some? then prev
      else RaceStep(prev.world, r, items[n - 1])
  }

  /** `Promise.race(iterable)`; an empty input races `Promise.resolve(null)`. */
  function Race(w: World, items: seq<Value>): (m: Made)
    ensures m.promise == |w.cells| < |m.world.cells|
  {
    var made := Allocate(w);
    Guard(RaceExecutor(made.world, made.promise, items), made.promise)
  }

  /** The executor Promise.race hands to `new Promise`. */
  function RaceExecutor(w: World, r: nat, items: seq<Value>): (out: Run)
    ensures |w.cells| <= |out.world.cells| <= |w.cells| + |items| + |items| + 2
  {
    if |items| > 0 then
      RaceLoopSize(w, r, items, |items|);
      RaceLoop(w, r, items, |items|)
    else RaceStep(w, r, Null)
  }

  /** The promises the first `n` turns of Promise.all's or Promise.race's
      loop make: the child of `then` for every input, and one more for each
      input that is not a promise, which `Promise.resolve` makes. */
  function Spawned(items: seq<Value>, n: nat): (count: nat)
    requires n <= |items|
    ensures n <= count <= n + n
  {
    if n == 0 then 0
    else Spawned(items, n - 1) + (if items[n - 1].PromiseObj? then 1 else 2)
  }

  /** Each turn of Promise.all's loop adds one promise, or two when the
      input is not a promise, until a turn throws and ends the loop. */
  lemma {:induction false} AllLoopSize(w: World, a: nat, j: nat, items: seq<Value>, n: nat)
    requires n <= |items|
    ensures var r := AllLoop(w, a, j, items, n);
      && |w.cells| <= |r.world.cells| <= |w.cells| + n + n
      && (r.thrown == None ==> |r.world.cells| == |w.cells| + Spawned(items, n))
  {
    if n > 0 {
      AllLoopSize(w, a, j, items, n - 1);
      var prev := AllLoop(w, a, j, items, n - 1);
      if prev.thrown.None? {
        AllLoopStep(w, a, j, items, n - 1, prev.world);
      }
    }
  }

  lemma {:induction false} RaceLoopSize(w: World, r: nat, items: seq<Value>, n: nat)
    requires n <= |items|
    ensures var out := RaceLoop(w, r, items, n);
      && |w.cells| <= |out.world.cells| <= |w.cells| + n + n
      && (out.thrown == None ==> |out.world.cells| == |w.cells| + Spawned(items, n))
  {
    if n > 0 {
      RaceLoopSize(w, r, items, n - 1);
      var prev := RaceLoop(w, r, items, n - 1);
      if prev.thrown.None? {
        RaceLoopStep(w, r, items, n - 1, prev.world);
      }
    }
  }

  /** One more turn of Promise.all's loop after turns that returned normally. */
  lemma AllLoopStep(w: World, a: nat, j: nat, items: seq<Value>, i: nat, mid: World)
    requires i < |items| && AllLoop(w, a, j, items, i) == Run(mid, None)
    ensures AllLoop(w, a, j, items, i + 1) == AllStep(mid, a, j, items[i], i)
  {
  }

  /** One more turn of Promise.race's loop after turns that returned normally. */
  lemma RaceLoopStep(w: World, r: nat, items: seq<Value>, i: nat, mid: World)
    requires i < |items| && RaceLoop(w, r, items, i) == Run(mid, None)
    ensures RaceLoop(w, r, items, i + 1) == RaceStep(mid, r, items[i])
  {
  }

  /** A throw out of one turn of Promise.all's `forEach` ends the loop. */
  lemma {:induction false} AllLoopAbort(w: World, a: nat, j: nat, items: seq<Value>, n: nat, m: nat)
    requires n <= m <= |items| && AllLoop(w, a, j, items, n).thrown.Some?
    ensures AllLoop(w, a, j, items, m) == AllLoop(w, a, j, items, n)
  {
    if n < m {
      AllLoopAbort(w, a, j, items, n, m - 1);
    }
  }

  lemma {:induction false} RaceLoopAbort(w: World, r: nat, items: seq<Value>, n: nat, m: nat)
    requires n <= m <= |items| && RaceLoop(w, r, items, n).thrown.Some?
    ensures RaceLoop(w, r, items, m) == RaceLoop(w, r, items, n)
  {
    if n < m {
      RaceLoopAbort(w, r, items, n, m - 1);
    }
  }
}
