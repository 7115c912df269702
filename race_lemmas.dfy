/** Promise.race over inputs that are promises still pending: each input
    gets `then(resolve, reject)` of the race cell, so whichever input
    settles first decides the race, and settle-once ignores the rest. */
module RaceLemmas {
  import opened Values
  import opened Cells
  import opened CellLemmas
  import opened Promises

  /** A cell nobody has subscribed to. */
  predicate Unobserved(c: Cell) {
    c.resolves == [] && c.rejects == []
  }

  /** The child promise of one `then` of the race: created after the race
      cell `r`, and nobody subscribes to it. */
  ghost predicate RaceChild(w: World, k: nat, r: nat) {
    r < k < |w.cells| && Unobserved(w.cells[k])
  }

  /** The `fulfill` closure that `then(resolve, reject)` of race cell `r`
      leaves in the queue of input cell `c`. */
  ghost predicate RaceFulfil(w: World, f: Fn, c: nat, r: nat) {
    && f.Fulfil? && f.onFulfilled.Some? && f.onFulfilled.value.Wrapper?
    && f == Fulfil(Some(Wrapper(Resolver(r), f.onFulfilled.value.child)), c)
    && RaceChild(w, f.onFulfilled.value.child, r)
  }

  /** The rejection closure that the same `then` leaves in `_rejects`. */
  ghost predicate RaceReject(w: World, g: Fn, r: nat) {
    g.Wrapper? && g == Wrapper(Rejecter(r), g.child) && RaceChild(w, g.child, r)
  }

  /** Input cell `c` is still pending, subscribed to race cell `r` at least
      once, and by nothing else. */
  ghost predicate Armed(w: World, c: nat, r: nat) {
    && c < r < |w.cells| && Unobserved(w.cells[r])
    && w.cells[c].status == Pending
    && |w.cells[c].resolves| > 0 && |w.cells[c].rejects| > 0
    && (forall i :: 0 <= i < |w.cells[c].resolves| ==> RaceFulfil(w, w.cells[c].resolves[i], c, r))
    && (forall i :: 0 <= i < |w.cells[c].rejects| ==> RaceReject(w, w.cells[c].rejects[i], r))
  }

  /** Settle-once keeps an unobserved cell unobserved. */
  lemma UnobservedEvolves(w: World, w': World, k: nat)
    requires Evolves(w, w') && k < |w.cells| && Unobserved(w.cells[k])
    ensures Unobserved(w'.cells[k])
  {
    assert CellEvolves(w.cells[k], w'.cells[k]);
  }

  /** The race's `fulfill` closure on a fulfilled input: it resolves the
      race cell, then its own child, and returns undefined. */
  lemma RaceFulfilCall(w: World, f: Fn, v: Value, c: nat, r: nat)
    requires c < r < |w.cells| && Unobserved(w.cells[r]) && w.cells[c].status == Fulfilled
    requires RaceFulfil(w, f, c, r)
    ensures var out := Call(w, f, v);
      && out.out == Return(Undefined)
      && out.world.cells[r] ==
           if w.cells[r].status == Pending then w.cells[r].(status := Fulfilled, value := v) else w.cells[r]
  {
    var k := f.onFulfilled.value.child;
    FulfilResolveIsNoop(w, f.onFulfilled, c, v);
    if w.cells[r].status == Pending {
      ResolveUnobserved(w, r, v);
      var w1 := Resolve(w, r, v).world;
      if w1.cells[k].status == Pending {
        ResolveUnobserved(w1, k, Undefined);
      }
    } else {
      assert Call(w, Resolver(r), v) == Invocation(w, Return(Undefined));
      if w.cells[k].status == Pending {
        ResolveUnobserved(w, k, Undefined);
      }
    }
  }

  /** The race's rejection closure: it rejects the race cell, then resolves
      its own child with undefined, and returns undefined. */
  lemma RaceRejectCall(w: World, g: Fn, e: Value, r: nat)
    requires r < |w.cells| && Unobserved(w.cells[r]) && RaceReject(w, g, r)
    ensures var out := Call(w, g, e);
      && out.out == Return(Undefined)
      && out.world.cells[r] ==
           if w.cells[r].status == Pending then w.cells[r].(status := Rejected, reason := e) else w.cells[r]
  {
    var k := g.child;
    if w.cells[r].status == Pending {
      RejectUnobserved(w, r, e);
      var w1 := Reject(w, r, e).world;
      if w1.cells[k].status == Pending {
        ResolveUnobserved(w1, k, Undefined);
      }
    } else if w.cells[k].status == Pending {
      ResolveUnobserved(w, k, Undefined);
    }
  }

  /** Running a queue of the race's `fulfill` closures: the first one
      fulfils a pending race cell and the others leave it alone. */
  lemma {:induction false} FireRaceFulfils(w: World, fs: seq<Fn>, v: Value, c: nat, r: nat)
    requires c < r < |w.cells| && Unobserved(w.cells[r]) && w.cells[c].status == Fulfilled
    requires forall i :: 0 <= i < |fs| ==> RaceFulfil(w, fs[i], c, r)
    ensures var out := FireAll(w, fs, v);
      && out.thrown == None
      && out.world.cells[r] ==
           if fs != [] && w.cells[r].status == Pending then w.cells[r].(status := Fulfilled, value := v)
           else w.cells[r]
  {
    if fs != [] {
      var init := fs[..|fs| - 1];
      var last := fs[|fs| - 1];
      FireRaceFulfils(w, init, v, c, r);
      var prev := FireAll(w, init, v);
      FireAllEvolves(w, init, v);
      assert CellEvolves(w.cells[c], prev.world.cells[c]);
      var k := last.onFulfilled.value.child;
      UnobservedEvolves(w, prev.world, k);
      UnobservedEvolves(w, prev.world, r);
      RaceFulfilCall(prev.world, last, v, c, r);
    } else {
      assert FireAll(w, fs, v) == Run(w, None);
    }
  }

  /** Running a queue of the race's rejection closures: the first one
      rejects a pending race cell and the others leave it alone. */
  lemma {:induction false} FireRaceRejects(w: World, gs: seq<Fn>, e: Value, r: nat)
    requires r < |w.cells| && Unobserved(w.cells[r])
    requires forall i :: 0 <= i < |gs| ==> RaceReject(w, gs[i], r)
    ensures var out := FireAll(w, gs, e);
      && out.thrown == None
      && out.world.cells[r] ==
           if gs != [] && w.cells[r].status == Pending then w.cells[r].(status := Rejected, reason := e)
           else w.cells[r]
  {
    if gs != [] {
      var init := gs[..|gs| - 1];
      var last := gs[|gs| - 1];
      FireRaceRejects(w, init, e, r);
      var prev := FireAll(w, init, e);
      FireAllEvolves(w, init, e);
      UnobservedEvolves(w, prev.world, last.child);
      UnobservedEvolves(w, prev.world, r);
      RaceRejectCall(prev.world, last, e, r);
    } else {
      assert FireAll(w, gs, e) == Run(w, None);
    }
  }

  /** Resolving an armed input fulfils a pending race cell with the value. */
  lemma ArmedResolve(w: World, c: nat, r: nat, v: Value)
    requires Armed(w, c, r) && w.cells[r].status == Pending
    ensures var s := Resolve(w, c, v);
      && s.thrown == None
      && s.world.cells[r] == w.cells[r].(status := Fulfilled, value := v)
  {
    var cell := w.cells[c];
    var w1 := w.(cells := w.cells[c := cell.(status := Fulfilled, value := v)]);
    forall i | 0 <= i < |cell.resolves| ensures RaceFulfil(w1, cell.resolves[i], c, r) {
      assert RaceFulfil(w, cell.resolves[i], c, r);
    }
    FireRaceFulfils(w1, cell.resolves, v, c, r);
  }

  /** Rejecting an armed input rejects a pending race cell with the reason. */
  lemma ArmedReject(w: World, c: nat, r: nat, e: Value)
    requires Armed(w, c, r) && w.cells[r].status == Pending
    ensures var s := Reject(w, c, e);
      && s.thrown == None
      && s.world.cells[r] == w.cells[r].(status := Rejected, reason := e)
  {
    var cell := w.cells[c];
    var w1 := w.(cells := w.cells[c := cell.(status := Rejected, reason := e)]);
    forall i | 0 <= i < |cell.rejects| ensures RaceReject(w1, cell.rejects[i], r) {
      assert RaceReject(w, cell.rejects[i], r);
    }
    FireRaceRejects(w1, cell.rejects, e, r);
  }

  /** What Promise.race asks of its inputs here: promises that exist, are
      still pending and have no subscribers yet. */
  ghost predicate FreshInputs(w: World, items: seq<Value>, r: nat) {
    forall i :: 0 <= i < |items| ==>
      && items[i].PromiseObj? && items[i].id < r < |w.cells|
      && w.cells[items[i].id].status == Pending
  }

  /** The inputs from `n` on are still untouched, and those before `n` are armed. */
  ghost predicate Wired(w: World, items: seq<Value>, r: nat, n: nat) {
    && r < |w.cells| && Unobserved(w.cells[r])
    && FreshInputs(w, items, r)
    && (forall i :: 0 <= i < |items| ==>
          Armed(w, items[i].id, r) || (n <= i && Unobserved(w.cells[items[i].id])))
    && (forall i :: 0 <= i < n && i < |items| ==> Armed(w, items[i].id, r))
  }

  /** One turn of race on a pending input `c`: the race's closures join the
      end of `c`'s queues around a new child, and no other cell changes. */
  lemma RaceStepWires(w: World, r: nat, items: seq<Value>, n: nat)
    requires n < |items| && Wired(w, items, r, n)
    ensures var out := RaceStep(w, r, items[n]);
      && out.thrown == None
      && |out.world.cells| == |w.cells| + 1
      && out.world.cells[r] == w.cells[r]
      && Wired(out.world, items, r, n + 1)
  {
    var c := items[n].id;
    var k := |w.cells|;
    var f := Fulfil(Some(Wrapper(Resolver(r), k)), c);
    var g := Wrapper(Rejecter(r), k);
    var out := RaceStep(w, r, items[n]);
    var wo := out.world;
    assert wo.cells == w.cells[c := w.cells[c].(resolves := w.cells[c].resolves + [f],
                                                  rejects := w.cells[c].rejects + [g])] + [FreshCell()];
    assert RaceFulfil(wo, f, c, r) && RaceReject(wo, g, r);
    forall i | 0 <= i < |items|
      ensures Armed(wo, items[i].id, r) || (n + 1 <= i && Unobserved(wo.cells[items[i].id]))
      ensures i < n + 1 ==> Armed(wo, items[i].id, r)
    {
      var d := items[i].id;
      if d == c {
        var q := w.cells[c];
        forall t | 0 <= t < |wo.cells[c].resolves| ensures RaceFulfil(wo, wo.cells[c].resolves[t], c, r) {
          if t < |q.resolves| {
            assert Armed(w, c, r) && RaceFulfil(w, q.resolves[t], c, r);
          }
        }
        forall t | 0 <= t < |wo.cells[c].rejects| ensures RaceReject(wo, wo.cells[c].rejects[t], r) {
          if t < |q.rejects| {
            assert Armed(w, c, r) && RaceReject(w, q.rejects[t], r);
          }
        }
        assert Armed(wo, d, r);
      } else if Armed(w, d, r) {
        var q := w.cells[d];
        assert wo.cells[d] == q;
        forall t | 0 <= t < |q.resolves| ensures RaceFulfil(wo, q.resolves[t], d, r) {
          assert RaceFulfil(w, q.resolves[t], d, r);
        }
        forall t | 0 <= t < |q.rejects| ensures RaceReject(wo, q.rejects[t], r) {
          assert RaceReject(w, q.rejects[t], r);
        }
        assert Armed(wo, d, r);
      }
    }
  }

  lemma {:induction false} RaceLoopWires(w: World, r: nat, items: seq<Value>, n: nat)
    requires n <= |items| && Wired(w, items, r, 0)
    ensures var out := RaceLoop(w, r, items, n);
      && out.thrown == None
      && |out.world.cells| == |w.cells| + n
      && out.world.cells[r] == w.cells[r]
      && Wired(out.world, items, r, n)
  {
    if n == 0 {
      assert RaceLoop(w, r, items, 0) == Run(w, None);
    } else {
      RaceLoopWires(w, r, items, n - 1);
      var prev := RaceLoop(w, r, items, n - 1);
      assert prev == Run(prev.world, None);
      RaceLoopStep(w, r, items, n - 1, prev.world);
      var out := RaceStep(prev.world, r, items[n - 1]);
      assert RaceLoop(w, r, items, n) == out;
      RaceStepWires(prev.world, r, items, n - 1);
      assert |out.world.cells| == |prev.world.cells| + 1;
    }
  }

  /** `Promise.race` over pending promises that nobody has subscribed to
      returns normally with a race promise that is still pending, and every
      input is armed: it is subscribed to the race and to nothing else. */
  lemma RaceArmsInputs(w: World, items: seq<Value>)
    requires |items| > 0
    requires forall i :: 0 <= i < |items| ==>
      && items[i].PromiseObj? && items[i].id < |w.cells|
      && w.cells[items[i].id].status == Pending && Unobserved(w.cells[items[i].id])
    ensures var m := Race(w, items);
      && m.thrown == None
      && m.world.cells[m.promise] == FreshCell()
      && forall i :: 0 <= i < |items| ==> Armed(m.world, items[i].id, m.promise)
  {
    var made := Allocate(w);
    RaceLoopWires(made.world, made.promise, items, |items|);
  }

  /** First settler wins, for promise inputs: whichever input is resolved
      first fulfils the race with its value, and a later resolve or reject
      of any input leaves the race cell exactly as it is. */
  lemma RaceFirstFulfilmentWins(w: World, items: seq<Value>, i: nat, v: Value, j: nat, v2: Value, e2: Value)
    requires i < |items| && j < |items|
    requires forall t :: 0 <= t < |items| ==>
      && items[t].PromiseObj? && items[t].id < |w.cells|
      && w.cells[items[t].id].status == Pending && Unobserved(w.cells[items[t].id])
    ensures var m := Race(w, items);
      var s := Resolve(m.world, items[i].id, v);
      && m.thrown == None && s.thrown == None
      && s.world.cells[m.promise] == FreshCell().(status := Fulfilled, value := v)
      && Resolve(s.world, items[j].id, v2).world.cells[m.promise] == s.world.cells[m.promise]
      && Reject(s.world, items[j].id, e2).world.cells[m.promise] == s.world.cells[m.promise]
  {
    RaceArmsInputs(w, items);
    var m := Race(w, items);
    ArmedResolve(m.world, items[i].id, m.promise, v);
    var s := Resolve(m.world, items[i].id, v);
    ResolveEvolves(s.world, items[j].id, v2);
    SettledCellStays(s.world, Resolve(s.world, items[j].id, v2).world, m.promise);
    RejectEvolves(s.world, items[j].id, e2);
    SettledCellStays(s.world, Reject(s.world, items[j].id, e2).world, m.promise);
  }

  /** First settler wins when the first input to settle is rejected: the
      race rejects with its reason, and later settlements change nothing. */
  lemma RaceFirstRejectionWins(w: World, items: seq<Value>, i: nat, e: Value, j: nat, v2: Value, e2: Value)
    requires i < |items| && j < |items|
    requires forall t :: 0 <= t < |items| ==>
      && items[t].PromiseObj? && items[t].id < |w.cells|
      && w.cells[items[t].id].status == Pending && Unobserved(w.cells[items[t].id])
    ensures var m := Race(w, items);
      var s := Reject(m.world, items[i].id, e);
      && m.thrown == None && s.thrown == None
      && s.world.cells[m.promise] == FreshCell().(status := Rejected, reason := e)
      && Resolve(s.world, items[j].id, v2).world.cells[m.promise] == s.world.cells[m.promise]
      && Reject(s.world, items[j].id, e2).world.cells[m.promise] == s.world.cells[m.promise]
  {
    RaceArmsInputs(w, items);
    var m := Race(w, items);
    ArmedReject(m.world, items[i].id, m.promise, e);
    var s := Reject(m.world, items[i].id, e);
    ResolveEvolves(s.world, items[j].id, v2);
    SettledCellStays(s.world, Resolve(s.world, items[j].id, v2).world, m.promise);
    RejectEvolves(s.world, items[j].id, e2);
    SettledCellStays(s.world, Reject(s.world, items[j].id, e2).world, m.promise);
  }
}
