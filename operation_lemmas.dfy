/** What every public operation keeps. In a world whose queues hold only
    the library's own closures, `new Promise`, `then`, `catch` and the
    statics return normally, leave the queues in that state, and change the
    cells that already exist only as settle-once allows: a pending cell may
    settle or gain subscribers, a settled one keeps its outcome. */
module OperationLemmas {
  import opened Values
  import opened Cells
  import opened CellLemmas
  import opened Promises

  /** Settle-once for one cell, where `then` may also append to the queues
      of a cell that is still pending. */
  ghost predicate CellAdvances(a: Cell, b: Cell) {
    && b.strayResult == a.strayResult && b.strayStatus == a.strayStatus
    && (a.status != Pending ==> b.status == a.status && b.value == a.value && b.reason == a.reason)
    && (b.status == Pending ==> b.value == a.value && b.reason == a.reason)
    && (b.status == Fulfilled ==> b.reason == a.reason)
    && (b.status == Rejected ==> b.value == a.value)
    && ((b.resolves == a.resolves && b.rejects == a.rejects)
        || (a.status == Pending && a.resolves <= b.resolves && a.rejects <= b.rejects)
        || (a.status == Pending && b.status == Fulfilled && b.resolves == [] && b.rejects == []))
  }

  /** What an operation may do to the world: add cells and Promise.all
      states, and advance the existing ones. */
  ghost predicate Advances(w: World, w': World) {
    && |w.cells| <= |w'.cells|
    && |w.joins| <= |w'.joins|
    && (forall i :: 0 <= i < |w.cells| ==> CellAdvances(w.cells[i], w'.cells[i]))
    && (forall k :: 0 <= k < |w.joins| ==>
          w'.joins[k].target == w.joins[k].target && w'.joins[k].count == w.joins[k].count)
  }

  /** The guarantee of a public operation: nothing escapes, the queues stay
      safe, and the world only advances. */
  ghost predicate Kept(w: World, w': World, thrown: Option<Value>) {
    thrown == None && SafeWorld(w') && Advances(w, w')
  }

  lemma AdvancesTrans(w0: World, w1: World, w2: World)
    requires Advances(w0, w1) && Advances(w1, w2)
    ensures Advances(w0, w2)
  {
    forall i | 0 <= i < |w0.cells| ensures CellAdvances(w0.cells[i], w2.cells[i]) {
      var a, m, b := w0.cells[i], w1.cells[i], w2.cells[i];
      assert CellAdvances(a, m) && CellAdvances(m, b);
      if a.status == Pending && m.status == Pending && a.resolves <= m.resolves && a.rejects <= m.rejects
         && m.resolves <= b.resolves && m.rejects <= b.rejects {
        assert a.resolves <= b.resolves && a.rejects <= b.rejects;
      }
    }
  }

  lemma KeptTrans(w0: World, w1: World, t1: Option<Value>, w2: World, t2: Option<Value>)
    requires Kept(w0, w1, t1) && Kept(w1, w2, t2)
    ensures Kept(w0, w2, t2)
  {
    AdvancesTrans(w0, w1, w2);
  }

  lemma EvolvesAdvances(w: World, w': World)
    requires Evolves(w, w')
    ensures Advances(w, w')
  {
    forall i | 0 <= i < |w.cells| ensures CellAdvances(w.cells[i], w'.cells[i]) {
      assert CellEvolves(w.cells[i], w'.cells[i]);
    }
  }

  /** A cascade started in a safe world: it keeps the guarantee. */
  lemma EvolvesKept(w0: World, w: World, w': World)
    requires Kept(w0, w, None) && Evolves(w, w')
    ensures Kept(w0, w', None)
  {
    SafeWorldEvolves(w, w');
    EvolvesAdvances(w, w');
    AdvancesTrans(w0, w, w');
  }

  /** Appending a new pending cell, or a new Promise.all state, keeps the guarantee. */
  lemma AllocateKept(w: World)
    requires SafeWorld(w)
    ensures var m := Allocate(w);
      && Kept(w, m.world, m.thrown) && m.world.joins == w.joins
      && Kept(w, m.world.(joins := m.world.joins + [Join(m.promise, 0, map[], 0)]), None)
  {
    var m := Allocate(w);
    forall i | 0 <= i < |m.world.cells|
      ensures forall k :: 0 <= k < |m.world.cells[i].resolves| ==> Safe(m.world.cells[i].resolves[k])
      ensures forall k :: 0 <= k < |m.world.cells[i].rejects| ==> Safe(m.world.cells[i].rejects[k])
    {
      if i < |w.cells| {
        assert m.world.cells[i] == w.cells[i];
      }
    }
    forall i | 0 <= i < |w.cells| ensures CellAdvances(w.cells[i], m.world.cells[i]) {
      assert m.world.cells[i] == w.cells[i];
    }
  }

  /** `promise.then(onFulfilled, onRejected)`, whatever the handlers are:
      they always reach the queues inside a wrapper, which catches their
      throws, so nothing escapes and the queues stay safe. */
  lemma PromiseThenKept(w: World, p: nat, onF: Option<Fn>, onR: Option<Fn>)
    requires SafeWorld(w)
    ensures var m := PromiseThen(w, p, onF, onR);
      && Kept(w, m.world, m.thrown)
      && |m.world.joins| == |w.joins|
  {
    AllocateKept(w);
    var a := Allocate(w);
    var k := a.promise;
    var f := if onF.Some? then Wrapper(onF.value, k) else Resolver(k);
    var g := if onR.Some? then Wrapper(onR.value, k) else Rejecter(k);
    var r := Then(a.world, p, Some(f), Some(g));
    if p < |a.world.cells| {
      match a.world.cells[p].status {
        case Pending =>
          forall i | 0 <= i < |r.world.cells|
            ensures forall t :: 0 <= t < |r.world.cells[i].resolves| ==> Safe(r.world.cells[i].resolves[t])
            ensures forall t :: 0 <= t < |r.world.cells[i].rejects| ==> Safe(r.world.cells[i].rejects[t])
          {
            if i != p {
              assert r.world.cells[i] == a.world.cells[i];
            }
          }
          forall i | 0 <= i < |a.world.cells| ensures CellAdvances(a.world.cells[i], r.world.cells[i]) {
            if i != p {
              assert r.world.cells[i] == a.world.cells[i];
            }
          }
          AdvancesTrans(w, a.world, r.world);
        case Fulfilled =>
          CallNeverThrows(a.world, Fulfil(Some(f), p), a.world.cells[p].value);
          CallEvolves(a.world, Fulfil(Some(f), p), a.world.cells[p].value);
          EvolvesKept(w, a.world, r.world);
        case Rejected =>
          CallNeverThrows(a.world, g, a.world.cells[p].reason);
          CallEvolves(a.world, g, a.world.cells[p].reason);
          EvolvesKept(w, a.world, r.world);
      }
    }
  }

  /** `promise.catch(onRejected)`. */
  lemma CatchKept(w: World, p: nat, onR: Option<Fn>)
    requires SafeWorld(w)
    ensures var m := Catch(w, p, onR);
      && Kept(w, m.world, m.thrown)
      && |m.world.joins| == |w.joins|
  {
    PromiseThenKept(w, p, None, onR);
  }

  /** `new Promise(executor)` with a function: the executor's calls and a
      throw out of it only settle the new cell. */
  lemma ConstructKept(w: World, ex: Executor)
    requires SafeWorld(w)
    ensures var m := Construct(w, Some(ex));
      && Kept(w, m.world, m.thrown)
      && |m.world.joins| == |w.joins|
  {
    AllocateKept(w);
    var a := Allocate(w);
    var ran := RunCalls(a.world, a.promise, ex.calls, |ex.calls|);
    RunCallsEvolves(a.world, a.promise, ex.calls, |ex.calls|);
    EvolvesKept(w, a.world, ran.world);
    var body :=
      if ran.thrown.None? && ex.completion.Throw? then Run(ran.world, Some(ex.completion.error))
      else ran;
    if body.thrown.Some? {
      RejectEvolves(body.world, a.promise, body.thrown.value);
      EvolvesKept(w, body.world, Reject(body.world, a.promise, body.thrown.value).world);
    }
  }

  lemma StaticResolveKept(w: World, v: Value)
    requires SafeWorld(w)
    ensures var m := StaticResolve(w, v);
      && Kept(w, m.world, m.thrown)
      && |m.world.joins| == |w.joins|
  {
    if !v.PromiseObj? {
      AllocateKept(w);
      var a := Allocate(w);
      var m := StaticResolve(w, v);
      assert m.world == a.world.(cells := a.world.cells[a.promise := FreshCell().(status := Fulfilled, value := v)]);
      assert Evolves(a.world, m.world) by {
        forall i | 0 <= i < |a.world.cells| ensures CellEvolves(a.world.cells[i], m.world.cells[i]) {
        }
      }
      EvolvesKept(w, a.world, m.world);
    } else {
      EvolvesAdvances(w, w);
    }
  }

  lemma StaticRejectKept(w: World, e: Value)
    requires SafeWorld(w)
    ensures var m := StaticReject(w, e);
      && Kept(w, m.world, m.thrown)
      && |m.world.joins| == |w.joins|
  {
    AllocateKept(w);
    var a := Allocate(w);
    var m := StaticReject(w, e);
    forall i | 0 <= i < |w.cells| ensures CellAdvances(w.cells[i], m.world.cells[i]) {
      assert m.world.cells[i] == w.cells[i];
    }
    forall i | 0 <= i < |m.world.cells|
      ensures forall t :: 0 <= t < |m.world.cells[i].resolves| ==> Safe(m.world.cells[i].resolves[t])
      ensures forall t :: 0 <= t < |m.world.cells[i].rejects| ==> Safe(m.world.cells[i].rejects[t])
    {
      if i < |w.cells| {
        assert m.world.cells[i] == w.cells[i];
      }
    }
  }

  lemma AllStepKept(w: World, a: nat, j: nat, p: Value, index: nat)
    requires SafeWorld(w)
    ensures var r := AllStep(w, a, j, p, index);
      && Kept(w, r.world, r.thrown)
      && |r.world.joins| == |w.joins|
  {
    StaticResolveKept(w, p);
    var q := StaticResolve(w, p);
    PromiseThenKept(q.world, q.promise, Some(Slot(j, index)), Some(Rejecter(a)));
    AdvancesTrans(w, q.world, PromiseThen(q.world, q.promise, Some(Slot(j, index)), Some(Rejecter(a))).world);
  }

  lemma {:induction false} AllLoopKept(w: World, a: nat, j: nat, items: seq<Value>, n: nat)
    requires n <= |items| && SafeWorld(w)
    ensures var r := AllLoop(w, a, j, items, n);
      && Kept(w, r.world, r.thrown)
      && |r.world.joins| == |w.joins|
  {
    if n == 0 {
      assert AllLoop(w, a, j, items, 0) == Run(w, None);
      EvolvesAdvances(w, w);
    } else {
      AllLoopKept(w, a, j, items, n - 1);
      var prev := AllLoop(w, a, j, items, n - 1);
      AllLoopStep(w, a, j, items, n - 1, prev.world);
      var out := AllStep(prev.world, a, j, items[n - 1], n - 1);
      AllStepKept(prev.world, a, j, items[n - 1], n - 1);
      KeptTrans(w, prev.world, prev.thrown, out.world, out.thrown);
    }
  }

  /** `Promise.all(items)`: it returns normally with a new promise and one
      new Promise.all state whose target is that promise and whose count is
      the number of inputs; the inputs and every other existing cell only
      advance. */
  lemma AllKept(w: World, items: seq<Value>)
    requires SafeWorld(w)
    ensures var m := All(w, items);
      && Kept(w, m.world, m.thrown)
      && |m.world.joins| == |w.joins| + 1
      && m.world.joins[|w.joins|].target == m.promise
      && m.world.joins[|w.joins|].count == |items|
  {
    AllocateKept(w);
    var made := Allocate(w);
    var a := made.promise;
    var j := |made.world.joins|;
    var w1 := made.world.(joins := made.world.joins + [Join(a, |items|, map[], 0)]);
    assert Kept(w, w1, None) by {
      assert Kept(w, made.world.(joins := made.world.joins + [Join(made.promise, 0, map[], 0)]), None);
    }
    if |items| > 0 {
      AllLoopKept(w1, a, j, items, |items|);
      AdvancesTrans(w, w1, AllLoop(w1, a, j, items, |items|).world);
    } else {
      ResolveNeverThrows(w1, a, List([]));
      ResolveEvolves(w1, a, List([]));
      EvolvesKept(w, w1, Resolve(w1, a, List([])).world);
    }
  }

  lemma RaceStepKept(w: World, r: nat, p: Value)
    requires SafeWorld(w)
    ensures var out := RaceStep(w, r, p);
      && Kept(w, out.world, out.thrown)
      && |out.world.joins| == |w.joins|
  {
    StaticResolveKept(w, p);
    var q := StaticResolve(w, p);
    PromiseThenKept(q.world, q.promise, Some(Resolver(r)), Some(Rejecter(r)));
    AdvancesTrans(w, q.world, PromiseThen(q.world, q.promise, Some(Resolver(r)), Some(Rejecter(r))).world);
  }

  lemma {:induction false} RaceLoopKept(w: World, r: nat, items: seq<Value>, n: nat)
    requires n <= |items| && SafeWorld(w)
    ensures var out := RaceLoop(w, r, items, n);
      && Kept(w, out.world, out.thrown)
      && |out.world.joins| == |w.joins|
  {
    if n == 0 {
      assert RaceLoop(w, r, items, 0) == Run(w, None);
      EvolvesAdvances(w, w);
    } else {
      RaceLoopKept(w, r, items, n - 1);
      var prev := RaceLoop(w, r, items, n - 1);
      RaceLoopStep(w, r, items, n - 1, prev.world);
      var out := RaceStep(prev.world, r, items[n - 1]);
      RaceStepKept(prev.world, r, items[n - 1]);
      KeptTrans(w, prev.world, prev.thrown, out.world, out.thrown);
    }
  }

  /** `Promise.race(items)`: it returns normally with a new promise, and
      the inputs and every other existing cell only advance. */
  lemma RaceKept(w: World, items: seq<Value>)
    requires SafeWorld(w)
    ensures var m := Race(w, items);
      && Kept(w, m.world, m.thrown)
      && |m.world.joins| == |w.joins|
  {
    AllocateKept(w);
    var made := Allocate(w);
    if |items| > 0 {
      RaceLoopKept(made.world, made.promise, items, |items|);
      AdvancesTrans(w, made.world, RaceLoop(made.world, made.promise, items, |items|).world);
    } else {
      RaceStepKept(made.world, made.promise, Null);
      AdvancesTrans(w, made.world, RaceStep(made.world, made.promise, Null).world);
    }
  }
}
