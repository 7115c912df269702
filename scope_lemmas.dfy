/** Promise ids name promises that exist. A closure can only name a promise
    that was made before it, and Promise.all's state only the promise it
    made; every public operation keeps this, so the promise an operation is
    about to make is named by nothing that can still run. */
module ScopeLemmas {
  import opened Values
  import opened Cells
  import opened CellLemmas
  import opened Promises

  /** Every promise `f` names is one of the first `n`. */
  predicate Within(f: Fn, n: nat) {
    match f
    case User(_) => true
    case Resolver(c) => c < n
    case Rejecter(c) => c < n
    case Wrapper(h, child) => child < n && Within(h, n)
    case Fulfil(on, owner) => owner < n && (on.Some? ==> Within(on.value, n))
    case Slot(_, _) => true
  }

  /** A handler handed to `then` that names only existing promises; a user
      function names none. */
  predicate Handler(h: Option<Fn>, n: nat) {
    h.Some? ==> Within(h.value, n)
  }

  /** Every queued closure and every Promise.all target names an existing promise. */
  ghost predicate Scoped(w: World) {
    && (forall j :: 0 <= j < |w.joins| ==> w.joins[j].target < |w.cells|)
    && (forall i, t :: 0 <= i < |w.cells| ==>
          (0 <= t < |w.cells[i].resolves| ==> Within(w.cells[i].resolves[t], |w.cells|)) &&
          (0 <= t < |w.cells[i].rejects| ==> Within(w.cells[i].rejects[t], |w.cells|)))
  }

  lemma {:induction false} WithinWidens(f: Fn, n: nat, n': nat)
    requires Within(f, n) && n <= n'
    ensures Within(f, n')
  {
    match f
    case Wrapper(h, _) => WithinWidens(h, n, n');
    case Fulfil(on, _) =>
      if on.Some? {
        WithinWidens(on.value, n, n');
      }
    case _ =>
  }

  /** A closure that names only the first `n` promises cannot settle promise `n`. */
  lemma {:induction false} WithinUnmentioned(f: Fn, n: nat)
    requires Within(f, n)
    ensures !Mentions(f, n)
  {
    match f
    case Wrapper(h, _) => WithinUnmentioned(h, n);
    case Fulfil(on, _) =>
      if on.Some? {
        WithinUnmentioned(on.value, n);
      }
    case _ =>
  }

  /** In a scoped world the next promise to be made is untargeted. */
  lemma ScopedUntargeted(w: World)
    requires Scoped(w)
    ensures Untargeted(w, |w.cells|)
  {
    forall i, t | 0 <= i < |w.cells| && w.cells[i].status == Pending
      ensures 0 <= t < |w.cells[i].resolves| ==> !Mentions(w.cells[i].resolves[t], |w.cells|)
      ensures 0 <= t < |w.cells[i].rejects| ==> !Mentions(w.cells[i].rejects[t], |w.cells|)
    {
      if 0 <= t < |w.cells[i].resolves| {
        WithinUnmentioned(w.cells[i].resolves[t], |w.cells|);
      }
      if 0 <= t < |w.cells[i].rejects| {
        WithinUnmentioned(w.cells[i].rejects[t], |w.cells|);
      }
    }
  }

  /** Settle-once keeps a world scoped: queues only stay or empty. */
  lemma ScopedEvolves(w: World, w': World)
    requires Scoped(w) && Evolves(w, w')
    ensures Scoped(w')
  {
    forall i | 0 <= i < |w'.cells|
      ensures forall t :: 0 <= t < |w'.cells[i].resolves| ==> Within(w'.cells[i].resolves[t], |w'.cells|)
      ensures forall t :: 0 <= t < |w'.cells[i].rejects| ==> Within(w'.cells[i].rejects[t], |w'.cells|)
    {
      assert CellEvolves(w.cells[i], w'.cells[i]);
    }
  }

  /** `new Deferred` keeps a world scoped, and so does a Promise.all state
      whose target is the new promise. */
  lemma ScopedAllocate(w: World, count: nat)
    requires Scoped(w)
    ensures var m := Allocate(w);
      && Scoped(m.world)
      && Scoped(m.world.(joins := m.world.joins + [Join(m.promise, count, map[], 0)]))
  {
    var m := Allocate(w);
    forall i, t | 0 <= i < |m.world.cells|
      ensures 0 <= t < |m.world.cells[i].resolves| ==> Within(m.world.cells[i].resolves[t], |m.world.cells|)
      ensures 0 <= t < |m.world.cells[i].rejects| ==> Within(m.world.cells[i].rejects[t], |m.world.cells|)
    {
      if i < |w.cells| {
        assert m.world.cells[i] == w.cells[i];
        if 0 <= t < |w.cells[i].resolves| {
          WithinWidens(w.cells[i].resolves[t], |w.cells|, |m.world.cells|);
        }
        if 0 <= t < |w.cells[i].rejects| {
          WithinWidens(w.cells[i].rejects[t], |w.cells|, |m.world.cells|);
        }
      }
    }
  }

  /** `promise.then(onFulfilled, onRejected)` with handlers that name only
      existing promises: the closures it queues name the parent, the new
      child and what the handlers name. */
  lemma ThenScoped(w: World, p: nat, onF: Option<Fn>, onR: Option<Fn>)
    requires Scoped(w) && Handler(onF, |w.cells|) && Handler(onR, |w.cells|)
    ensures Scoped(PromiseThen(w, p, onF, onR).world)
  {
    ScopedAllocate(w, 0);
    var a := Allocate(w);
    var n := |a.world.cells|;
    var k := a.promise;
    if onF.Some? {
      WithinWidens(onF.value, |w.cells|, n);
    }
    if onR.Some? {
      WithinWidens(onR.value, |w.cells|, n);
    }
    var f := if onF.Some? then Wrapper(onF.value, k) else Resolver(k);
    var g := if onR.Some? then Wrapper(onR.value, k) else Rejecter(k);
    var r := Then(a.world, p, Some(f), Some(g));
    if p < n && a.world.cells[p].status == Pending {
      assert Within(Fulfil(Some(f), p), n) && Within(g, n);
      var q := a.world.cells[p];
      forall i, t | 0 <= i < n
        ensures 0 <= t < |r.world.cells[i].resolves| ==> Within(r.world.cells[i].resolves[t], n)
        ensures 0 <= t < |r.world.cells[i].rejects| ==> Within(r.world.cells[i].rejects[t], n)
      {
        if i != p {
          assert r.world.cells[i] == a.world.cells[i];
        } else {
          assert r.world.cells[p].resolves == q.resolves + [Fulfil(Some(f), p)];
          assert r.world.cells[p].rejects == q.rejects + [g];
        }
      }
    } else {
      ThenEvolves(a.world, p, Some(f), Some(g));
      ScopedEvolves(a.world, r.world);
    }
  }

  lemma CatchScoped(w: World, p: nat, onR: Option<Fn>)
    requires Scoped(w) && Handler(onR, |w.cells|)
    ensures Scoped(Catch(w, p, onR).world)
  {
    ThenScoped(w, p, None, onR);
  }

  /** `new Promise(executor)`: the executor only settles the new cell. */
  lemma ConstructScoped(w: World, ex: Executor)
    requires Scoped(w)
    ensures Scoped(Construct(w, Some(ex)).world)
  {
    ScopedAllocate(w, 0);
    var a := Allocate(w);
    var ran := RunCalls(a.world, a.promise, ex.calls, |ex.calls|);
    RunCallsEvolves(a.world, a.promise, ex.calls, |ex.calls|);
    ScopedEvolves(a.world, ran.world);
    var body :=
      if ran.thrown.None? && ex.completion.Throw? then Run(ran.world, Some(ex.completion.error))
      else ran;
    if body.thrown.Some? {
      RejectEvolves(body.world, a.promise, body.thrown.value);
      ScopedEvolves(body.world, Reject(body.world, a.promise, body.thrown.value).world);
    }
  }

  /** A settled promise made with empty queues keeps a world scoped. */
  lemma ScopedAppendSettled(w: World, w': World, cell: Cell)
    requires Scoped(w) && cell.resolves == [] && cell.rejects == []
    requires w'.cells == w.cells + [cell] && w'.joins == w.joins
    ensures Scoped(w')
  {
    ScopedAllocate(w, 0);
    var a := Allocate(w);
    forall i | 0 <= i < |w'.cells|
      ensures forall t :: 0 <= t < |w'.cells[i].resolves| ==> Within(w'.cells[i].resolves[t], |w'.cells|)
      ensures forall t :: 0 <= t < |w'.cells[i].rejects| ==> Within(w'.cells[i].rejects[t], |w'.cells|)
    {
      if i < |w.cells| {
        assert w'.cells[i] == a.world.cells[i];
      }
    }
  }

  lemma StaticResolveScoped(w: World, v: Value)
    requires Scoped(w)
    ensures var m := StaticResolve(w, v);
      && Scoped(m.world)
      && |w.cells| <= |m.world.cells|
  {
    if !v.PromiseObj? {
      ScopedAppendSettled(w, StaticResolve(w, v).world, FreshCell().(status := Fulfilled, value := v));
    }
  }

  lemma StaticRejectScoped(w: World, e: Value)
    requires Scoped(w)
    ensures Scoped(StaticReject(w, e).world)
  {
    var cell := FreshCell().(strayResult := Some(e), strayStatus := Some("rejected"));
    ScopedAppendSettled(w, StaticReject(w, e).world, cell);
  }

  /** One turn of Promise.all's loop, for a combined promise `a` that exists. */
  lemma AllStepScoped(w: World, a: nat, j: nat, p: Value, index: nat)
    requires Scoped(w) && a < |w.cells|
    ensures Scoped(AllStep(w, a, j, p, index).world)
  {
    StaticResolveScoped(w, p);
    var q := StaticResolve(w, p);
    ThenScoped(q.world, q.promise, Some(Slot(j, index)), Some(Rejecter(a)));
  }

  lemma {:induction false} AllLoopScoped(w: World, a: nat, j: nat, items: seq<Value>, n: nat)
    requires n <= |items| && Scoped(w) && a < |w.cells|
    ensures Scoped(AllLoop(w, a, j, items, n).world)
  {
    if n == 0 {
      assert AllLoop(w, a, j, items, 0) == Run(w, None);
    } else {
      AllLoopScoped(w, a, j, items, n - 1);
      AllLoopSize(w, a, j, items, n - 1);
      var prev := AllLoop(w, a, j, items, n - 1);
      if prev.thrown.None? {
        AllLoopStep(w, a, j, items, n - 1, prev.world);
        AllStepScoped(prev.world, a, j, items[n - 1], n - 1);
      }
    }
  }

  /** A throw out of an executor rejects the promise made for it. */
  lemma GuardScoped(body: Run, p: nat)
    requires Scoped(body.world)
    ensures Scoped(Guard(body, p).world)
  {
    if body.thrown.Some? {
      RejectEvolves(body.world, p, body.thrown.value);
      ScopedEvolves(body.world, Reject(body.world, p, body.thrown.value).world);
    }
  }

  /** `Promise.all(items)`: the new state targets the new promise, and every
      closure the loop queues names an input, a new child or that promise. */
  lemma AllScoped(w: World, items: seq<Value>)
    requires Scoped(w)
    ensures Scoped(All(w, items).world)
  {
    ScopedAllocate(w, |items|);
    var made := Allocate(w);
    var a := made.promise;
    var j := |made.world.joins|;
    var w1 := made.world.(joins := made.world.joins + [Join(a, |items|, map[], 0)]);
    if |items| > 0 {
      AllLoopScoped(w1, a, j, items, |items|);
    } else {
      ResolveEvolves(w1, a, List([]));
      ScopedEvolves(w1, Resolve(w1, a, List([])).world);
    }
    GuardScoped(AllExecutor(w1, a, j, items), a);
  }

  lemma RaceStepScoped(w: World, r: nat, p: Value)
    requires Scoped(w) && r < |w.cells|
    ensures Scoped(RaceStep(w, r, p).world)
  {
    StaticResolveScoped(w, p);
    var q := StaticResolve(w, p);
    ThenScoped(q.world, q.promise, Some(Resolver(r)), Some(Rejecter(r)));
  }

  lemma {:induction false} RaceLoopScoped(w: World, r: nat, items: seq<Value>, n: nat)
    requires n <= |items| && Scoped(w) && r < |w.cells|
    ensures Scoped(RaceLoop(w, r, items, n).world)
  {
    if n == 0 {
      assert RaceLoop(w, r, items, 0) == Run(w, None);
    } else {
      RaceLoopScoped(w, r, items, n - 1);
      RaceLoopSize(w, r, items, n - 1);
      var prev := RaceLoop(w, r, items, n - 1);
      if prev.thrown.None? {
        RaceLoopStep(w, r, items, n - 1, prev.world);
        RaceStepScoped(prev.world, r, items[n - 1]);
      }
    }
  }

  lemma RaceScoped(w: World, items: seq<Value>)
    requires Scoped(w)
    ensures Scoped(Race(w, items).world)
  {
    ScopedAllocate(w, 0);
    var made := Allocate(w);
    if |items| > 0 {
      RaceLoopScoped(made.world, made.promise, items, |items|);
    } else {
      RaceStepScoped(made.world, made.promise, Null);
    }
    GuardScoped(RaceExecutor(made.world, made.promise, items), made.promise);
  }
}
