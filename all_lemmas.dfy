/** Promise.all over inputs that are promises still pending: input `i`
    gets `then(slot i, reject)` of the combined promise, so the combined
    promise fulfils once every input has, with the values in input order
    whatever the order of fulfilment, and the first input to reject decides
    the rejection. */
module AllLemmas {
  import opened Values
  import opened Cells
  import opened CellLemmas
  import opened Promises
  import opened PromiseLemmas
  import opened RaceLemmas

  /** What Promise.all asks of its inputs here: distinct promises that
      exist, are still pending and have no subscribers yet. */
  ghost predicate PromiseInputs(w: World, items: seq<Value>) {
    && (forall i :: 0 <= i < |items| ==>
          && items[i].PromiseObj? && items[i].id < |w.cells|
          && w.cells[items[i].id].status == Pending && Unobserved(w.cells[items[i].id]))
    && (forall s, t :: 0 <= s < t < |items| ==> items[s] != items[t])
  }

  /** Input cell `c`, at position `i` of Promise.all `a` with state `j`, is
      still pending and subscribed exactly once, by `then(slot i, reject)`.
      The rejection closure has the shape race's has: a `wrapper` around the
      combined promise's reject, with a child nobody subscribes to. */
  ghost predicate AllArmed(w: World, c: nat, a: nat, j: nat, i: nat) {
    && c < a < |w.cells| && w.cells[c].status == Pending
    && |w.cells[c].rejects| == 1 && RaceReject(w, w.cells[c].rejects[0], a)
    && w.cells[c].resolves == [Fulfil(Some(Wrapper(Slot(j, i), w.cells[c].rejects[0].child)), c)]
  }

  /** Promise.all `a` with state `j`, after `n` turns of its loop: the
      combined cell and the state untouched, the inputs before `n` armed and
      the others still without subscribers. */
  ghost predicate AllWired(w: World, items: seq<Value>, a: nat, j: nat, n: nat) {
    && a < |w.cells| && w.cells[a] == FreshCell()
    && j < |w.joins| && w.joins[j] == Join(a, |items|, map[], 0)
    && (forall s, t :: 0 <= s < t < |items| ==> items[s] != items[t])
    && (forall i :: 0 <= i < |items| ==> items[i].PromiseObj? && items[i].id < a)
    && (forall i :: 0 <= i < |items| ==>
          if i < n then AllArmed(w, items[i].id, a, j, i)
          else w.cells[items[i].id].status == Pending && Unobserved(w.cells[items[i].id]))
  }

  /** One turn of Promise.all on a pending input `c`: `then(slot n, reject)`
      subscribes `c` around a new child, and no other cell changes. */
  lemma AllStepWires(w: World, a: nat, j: nat, items: seq<Value>, n: nat)
    requires n < |items| && AllWired(w, items, a, j, n)
    ensures var out := AllStep(w, a, j, items[n], n);
      && out.thrown == None
      && AllWired(out.world, items, a, j, n + 1)
  {
    var c := items[n].id;
    var k := |w.cells|;
    var f := Fulfil(Some(Wrapper(Slot(j, n), k)), c);
    var g := Wrapper(Rejecter(a), k);
    var out := AllStep(w, a, j, items[n], n);
    var wo := out.world;
    assert wo.joins == w.joins;
    var q := w.cells[c];
    assert wo.cells == w.cells[c := q.(resolves := q.resolves + [f], rejects := q.rejects + [g])] + [FreshCell()];
    assert q.resolves + [f] == [f] && q.rejects + [g] == [g];
    assert RaceReject(wo, g, a);
    forall i | 0 <= i < |items|
      ensures if i < n + 1 then AllArmed(wo, items[i].id, a, j, i)
              else wo.cells[items[i].id].status == Pending && Unobserved(wo.cells[items[i].id])
    {
      var d := items[i].id;
      if i == n {
        assert AllArmed(wo, d, a, j, i);
      } else if i < n {
        assert items[i] != items[n];
        var g' := w.cells[d].rejects[0];
        assert AllArmed(w, d, a, j, i) && RaceReject(w, g', a);
        assert wo.cells[d] == w.cells[d] && RaceReject(wo, g', a);
      } else {
        assert items[n] != items[i];
      }
    }
  }

  /** One more turn of the loop keeps the inputs before it armed. */
  lemma AllLoopWiresStep(w: World, a: nat, j: nat, items: seq<Value>, n: nat)
    requires n < |items|
    requires AllLoop(w, a, j, items, n).thrown == None
    requires AllWired(AllLoop(w, a, j, items, n).world, items, a, j, n)
    ensures AllLoop(w, a, j, items, n + 1).thrown == None
    ensures AllWired(AllLoop(w, a, j, items, n + 1).world, items, a, j, n + 1)
  {
    var mid := AllLoop(w, a, j, items, n).world;
    AllLoopStep(w, a, j, items, n, mid);
    AllStepWires(mid, a, j, items, n);
  }

  lemma {:induction false} AllLoopWires(w: World, a: nat, j: nat, items: seq<Value>, n: nat)
    requires n <= |items| && AllWired(w, items, a, j, 0)
    ensures AllLoop(w, a, j, items, n).thrown == None
    ensures AllWired(AllLoop(w, a, j, items, n).world, items, a, j, n)
  {
    if n == 0 {
      assert AllLoop(w, a, j, items, 0) == Run(w, None);
    } else {
      AllLoopWires(w, a, j, items, n - 1);
      AllLoopWiresStep(w, a, j, items, n - 1);
    }
  }

  /** `Promise.all` over distinct pending promises that nobody has
      subscribed to returns normally with a pending combined promise and a
      fresh state (`l` inputs, no results, `resolved` 0), and input `i` is
      armed with slot `i`. */
  lemma AllArmsInputs(w: World, items: seq<Value>)
    requires |items| > 0 && PromiseInputs(w, items)
    ensures var m := All(w, items);
      && m.thrown == None
      && m.world.cells[m.promise] == FreshCell()
      && |w.joins| < |m.world.joins|
      && m.world.joins[|w.joins|] == Join(m.promise, |items|, map[], 0)
      && forall i :: 0 <= i < |items| ==> AllArmed(m.world, items[i].id, m.promise, |w.joins|, i)
  {
    var made := Allocate(w);
    var a := made.promise;
    var j := |made.world.joins|;
    var w1 := made.world.(joins := made.world.joins + [Join(a, |items|, map[], 0)]);
    assert AllWired(w1, items, a, j, 0);
    AllLoopWires(w1, a, j, items, |items|);
  }

  /** An armed input fulfils: its slot stores the value and counts it, the
      count reaching `l` fulfils the combined cell with `results`, and no
      cell below the combined one changes but the input itself. */
  lemma AllArmedResolve(w: World, c: nat, a: nat, j: nat, i: nat, v: Value)
    requires AllArmed(w, c, a, j, i) && w.cells[a] == FreshCell()
    requires j < |w.joins| && w.joins[j].target == a
    ensures var s := Resolve(w, c, v);
      var jn := w.joins[j];
      var jn' := jn.(results := jn.results[i := v], resolved := jn.resolved + 1);
      && s.thrown == None
      && s.world.joins == w.joins[j := jn']
      && s.world.cells[a] ==
           (if jn'.resolved == jn.count then FreshCell().(status := Fulfilled, value := List(Dense(jn'.results, jn.count)))
            else FreshCell())
      && Evolves(w, s.world)
      && forall d :: 0 <= d < a && d != c ==> s.world.cells[d] == w.cells[d]
  {
    var k := w.cells[c].rejects[0].child;
    var f := Fulfil(Some(Wrapper(Slot(j, i), k)), c);
    var jn := w.joins[j];
    var jn' := jn.(results := jn.results[i := v], resolved := jn.resolved + 1);
    var w1 := w.(cells := w.cells[c := w.cells[c].(status := Fulfilled, value := v)]);
    var w2 := w1.(joins := w1.joins[j := jn']);
    var list := List(Dense(jn'.results, jn.count));
    var w3 := if jn'.resolved == jn.count then w2.(cells := w2.cells[a := FreshCell().(status := Fulfilled, value := list)]) else w2;
    if jn'.resolved == jn.count {
      ResolveUnobserved(w2, a, list);
    }
    assert Call(w1, Slot(j, i), v) == Invocation(w3, Return(Undefined));
    var w4 := if w3.cells[k].status == Pending then w3.(cells := w3.cells[k := w3.cells[k].(status := Fulfilled, value := Undefined, rejects := [])]) else w3;
    if w3.cells[k].status == Pending {
      ResolveUnobserved(w3, k, Undefined);
    }
    assert Call(w1, Wrapper(Slot(j, i), k), v) == Invocation(w4, Return(Undefined));
    FulfilResolveIsNoop(w1, Some(Wrapper(Slot(j, i), k)), c, v);
    assert Call(w1, f, v) == Invocation(w4, Return(Undefined));
    assert FireAll(w1, [f], v) == Run(w4, None) by {
      assert [f][..0] == [];
      assert FireAll(w1, [], v) == Run(w1, None);
    }
    ResolveEvolves(w, c, v);
  }

  /** An armed input rejects: the combined cell, if still pending, rejects
      with the same reason, and nothing throws. */
  lemma AllArmedReject(w: World, c: nat, a: nat, j: nat, i: nat, e: Value)
    requires AllArmed(w, c, a, j, i) && Unobserved(w.cells[a])
    ensures var s := Reject(w, c, e);
      && s.thrown == None
      && s.world.cells[a] ==
           if w.cells[a].status == Pending then w.cells[a].(status := Rejected, reason := e) else w.cells[a]
  {
    var cell := w.cells[c];
    var g := cell.rejects[0];
    var w1 := w.(cells := w.cells[c := cell.(status := Rejected, reason := e)]);
    assert RaceReject(w1, g, a);
    FireRaceRejects(w1, cell.rejects, e, a);
  }

  /** The inputs of Promise.all fulfilled one after another in the order
      `order`, input `i` with `vals[i]`. */
  function FulfilInOrder(w: World, items: seq<Value>, order: seq<nat>, vals: seq<Value>): (r: World)
    requires forall t :: 0 <= t < |order| ==> order[t] < |items| && order[t] < |vals| && items[order[t]].PromiseObj?
    ensures |r.cells| == |w.cells| && |r.joins| == |w.joins|
  {
    if order == [] then w
    else
      var last := order[|order| - 1];
      var prev := FulfilInOrder(w, items, order[..|order| - 1], vals);
      ResolveEvolves(prev, items[last].id, vals[last]);
      Resolve(prev, items[last].id, vals[last]).world
  }

  /** An input listed once in `order` is not among those before it. */
  lemma NotInPrefix(order: seq<nat>, n: nat)
    requires n < |order| && forall s, t :: 0 <= s < t < |order| ==> order[s] != order[t]
    ensures order[n] !in order[..n]
  {
    var pre := order[..n];
    forall t | 0 <= t < n ensures pre[t] != order[n] {
      assert pre[t] == order[t];
    }
  }

  /** While some inputs are outstanding: the combined cell is untouched,
      `results` holds exactly the values of the inputs in `order`, `resolved`
      counts them, and every other input is still armed. */
  ghost predicate AllWaiting(w: World, items: seq<Value>, a: nat, j: nat, order: seq<nat>, vals: seq<Value>) {
    && (forall t :: 0 <= t < |order| ==> order[t] < |vals|)
    && a < |w.cells| && w.cells[a] == FreshCell()
    && j < |w.joins| && w.joins[j] == Join(a, |items|, Filled(order, vals), |order|)
    && (forall s, t :: 0 <= s < t < |items| ==> items[s] != items[t])
    && (forall i :: 0 <= i < |items| && i !in order ==>
          items[i].PromiseObj? && AllArmed(w, items[i].id, a, j, i))
  }

  /** One more input fulfils: before the last one the combined promise
      waits with the value stored; the last one fulfils it with `results`. */
  lemma AllFulfilStep(w: World, items: seq<Value>, a: nat, j: nat, order: seq<nat>, vals: seq<Value>, i: nat)
    requires AllWaiting(w, items, a, j, order, vals)
    requires i < |items| == |vals| && i !in order
    ensures var s := Resolve(w, items[i].id, vals[i]);
      && s.thrown == None
      && |s.world.joins| == |w.joins|
      && s.world.joins[j] == Join(a, |items|, Filled(order + [i], vals), |order| + 1)
      && (|order| + 1 < |items| ==> AllWaiting(s.world, items, a, j, order + [i], vals))
      && (|order| + 1 == |items| ==>
            s.world.cells[a] == FreshCell().(status := Fulfilled, value := List(Dense(Filled(order + [i], vals), |items|))))
  {
    var c := items[i].id;
    AllArmedResolve(w, c, a, j, i, vals[i]);
    var s := Resolve(w, c, vals[i]);
    assert Filled(order + [i], vals) == Filled(order, vals)[i := vals[i]] by {
      assert forall x :: x in order + [i] <==> x in order || x == i;
    }
    if |order| + 1 < |items| {
      forall i' | 0 <= i' < |items| && i' !in order + [i]
        ensures items[i'].PromiseObj? && AllArmed(s.world, items[i'].id, a, j, i')
      {
        var d := items[i'].id;
        assert i' !in order && i' != i;
        assert items[i'] != items[i] by {
          if i' < i { assert items[i'] != items[i]; } else { assert items[i] != items[i']; }
        }
        var g := w.cells[d].rejects[0];
        assert AllArmed(w, d, a, j, i') && RaceReject(w, g, a);
        assert s.world.cells[d] == w.cells[d];
        UnobservedEvolves(w, s.world, g.child);
        assert RaceReject(s.world, g, a);
      }
    }
  }

  lemma {:induction false} FulfilInOrderWaits(w: World, items: seq<Value>, a: nat, j: nat, order: seq<nat>, vals: seq<Value>, n: nat)
    requires AllWaiting(w, items, a, j, [], vals) && |items| == |vals|
    requires forall t :: 0 <= t < |order| ==> order[t] < |items|
    requires forall s, t :: 0 <= s < t < |order| ==> order[s] != order[t]
    requires n <= |order| && n < |items|
    ensures AllWaiting(FulfilInOrder(w, items, order[..n], vals), items, a, j, order[..n], vals)
  {
    if n == 0 {
      assert order[..0] == [];
    } else {
      FulfilInOrderWaits(w, items, a, j, order, vals, n - 1);
      var prev := FulfilInOrder(w, items, order[..n - 1], vals);
      var i := order[n - 1];
      NotInPrefix(order, n - 1);
      assert order[..n] == order[..n - 1] + [i];
      assert order[..n][..n - 1] == order[..n - 1];
      AllFulfilStep(prev, items, a, j, order[..n - 1], vals, i);
    }
  }

  /** The input at position `n` of `order` fulfils after those before it:
      the combined promise was still waiting, the resolve throws nothing,
      and if it was the last input the combined promise fulfils with
      `results`. */
  lemma FulfilInOrderStep(w: World, items: seq<Value>, a: nat, j: nat, order: seq<nat>, vals: seq<Value>, n: nat)
    requires AllWaiting(w, items, a, j, [], vals) && |items| == |vals|
    requires forall t :: 0 <= t < |order| ==> order[t] < |items|
    requires forall s, t :: 0 <= s < t < |order| ==> order[s] != order[t]
    requires n < |order| && n < |items|
    ensures var before := FulfilInOrder(w, items, order[..n], vals);
      var s := Resolve(before, items[order[n]].id, vals[order[n]]);
      && before.cells[a] == FreshCell()
      && s.thrown == None
      && s.world == FulfilInOrder(w, items, order[..n + 1], vals)
      && (n + 1 == |items| ==>
            s.world.cells[a] == FreshCell().(status := Fulfilled, value := List(Dense(Filled(order[..n + 1], vals), |items|))))
  {
    FulfilInOrderWaits(w, items, a, j, order, vals, n);
    NotInPrefix(order, n);
    AllFulfilStep(FulfilInOrder(w, items, order[..n], vals), items, a, j, order[..n], vals, order[n]);
    assert order[..n + 1] == order[..n] + [order[n]];
    assert order[..n + 1][..n] == order[..n];
  }

  /** Fulfilling the inputs of an armed Promise.all one by one, in any
      order: before the last one the combined promise is still waiting, and
      no resolve throws. */
  lemma FulfilWaits(w: World, items: seq<Value>, a: nat, j: nat, order: seq<nat>, vals: seq<Value>)
    requires AllWaiting(w, items, a, j, [], vals)
    requires |order| == |vals| == |items|
    requires forall t :: 0 <= t < |order| ==> order[t] < |items|
    requires forall s, t :: 0 <= s < t < |order| ==> order[s] != order[t]
    ensures forall n :: 0 <= n < |order| ==>
      && FulfilInOrder(w, items, order[..n], vals).cells[a] == FreshCell()
      && Resolve(FulfilInOrder(w, items, order[..n], vals), items[order[n]].id, vals[order[n]]).thrown == None
  {
    forall n | 0 <= n < |order|
      ensures FulfilInOrder(w, items, order[..n], vals).cells[a] == FreshCell()
      ensures Resolve(FulfilInOrder(w, items, order[..n], vals), items[order[n]].id, vals[order[n]]).thrown == None
    {
      FulfilInOrderStep(w, items, a, j, order, vals, n);
    }
  }

  /** Once every input of an armed Promise.all has fulfilled, in any order,
      the combined promise is fulfilled with the values in input order. */
  lemma FulfilLast(w: World, items: seq<Value>, a: nat, j: nat, order: seq<nat>, vals: seq<Value>)
    requires AllWaiting(w, items, a, j, [], vals)
    requires |order| == |vals| == |items| > 0
    requires forall t :: 0 <= t < |order| ==> order[t] < |items|
    requires forall s, t :: 0 <= s < t < |order| ==> order[s] != order[t]
    requires forall i :: 0 <= i < |items| ==> i in order
    ensures FulfilInOrder(w, items, order, vals).cells[a] == FreshCell().(status := Fulfilled, value := List(vals))
  {
    var l := |items|;
    FulfilInOrderStep(w, items, a, j, order, vals, l - 1);
    assert order[..l] == order;
    FilledByEvery(order, vals);
  }

  /** When every position has been filled, `results` read as an array is
      exactly the values in input order. */
  lemma FilledByEvery(order: seq<nat>, vals: seq<Value>)
    requires forall t :: 0 <= t < |order| ==> order[t] < |vals|
    requires forall i :: 0 <= i < |vals| ==> i in order
    ensures Dense(Filled(order, vals), |vals|) == vals
  {
    var results := Filled(order, vals);
    forall i | 0 <= i < |vals| ensures i in results {
      assert i in order;
    }
  }

  /** Promise.all is positional whatever the order in which its inputs
      fulfil: resolving every input once, in any order, leaves the combined
      promise pending until the last one, then fulfils it with the values in
      input order; no resolve throws. */
  lemma AllSettlesInAnyOrder(w: World, items: seq<Value>, order: seq<nat>, vals: seq<Value>)
    requires |items| > 0 && PromiseInputs(w, items)
    requires |order| == |vals| == |items|
    requires forall t :: 0 <= t < |order| ==> order[t] < |items|
    requires forall s, t :: 0 <= s < t < |order| ==> order[s] != order[t]
    requires forall i :: 0 <= i < |items| ==> i in order
    ensures var m := All(w, items);
      && m.thrown == None
      && (forall n :: 0 <= n < |order| ==>
            && FulfilInOrder(m.world, items, order[..n], vals).cells[m.promise] == FreshCell()
            && Resolve(FulfilInOrder(m.world, items, order[..n], vals), items[order[n]].id, vals[order[n]]).thrown == None)
      && FulfilInOrder(m.world, items, order, vals).cells[m.promise] == FreshCell().(status := Fulfilled, value := List(vals))
  {
    AllArmsInputs(w, items);
    var m := All(w, items);
    assert Filled([], vals) == map[];
    assert AllWaiting(m.world, items, m.promise, |w.joins|, [], vals);
    FulfilWaits(m.world, items, m.promise, |w.joins|, order, vals);
    FulfilLast(m.world, items, m.promise, |w.joins|, order, vals);
  }

  /** First rejection wins: after any inputs but not all have fulfilled, the
      first input to reject rejects the combined promise with its reason, and
      a later resolve or reject of any input leaves it exactly as it is. */
  lemma AllFirstRejectionWins(w: World, items: seq<Value>, order: seq<nat>, vals: seq<Value>,
                               i: nat, e: Value, t: nat, v2: Value, e2: Value)
    requires |items| > 0 && PromiseInputs(w, items)
    requires |vals| == |items| && |order| < |items|
    requires forall u :: 0 <= u < |order| ==> order[u] < |items|
    requires forall s, u :: 0 <= s < u < |order| ==> order[s] != order[u]
    requires i < |items| && i !in order && t < |items|
    ensures var m := All(w, items);
      var s := Reject(FulfilInOrder(m.world, items, order, vals), items[i].id, e);
      && m.thrown == None && s.thrown == None
      && s.world.cells[m.promise] == FreshCell().(status := Rejected, reason := e)
      && Resolve(s.world, items[t].id, v2).world.cells[m.promise] == s.world.cells[m.promise]
      && Reject(s.world, items[t].id, e2).world.cells[m.promise] == s.world.cells[m.promise]
  {
    AllArmsInputs(w, items);
    var m := All(w, items);
    var a := m.promise;
    var j := |w.joins|;
    assert Filled([], vals) == map[];
    assert AllWaiting(m.world, items, a, j, [], vals);
    FulfilInOrderWaits(m.world, items, a, j, order, vals, |order|);
    assert order[..|order|] == order;
    var wf := FulfilInOrder(m.world, items, order, vals);
    AllArmedReject(wf, items[i].id, a, j, i, e);
    var s := Reject(wf, items[i].id, e);
    ResolveEvolves(s.world, items[t].id, v2);
    SettledCellStays(s.world, Resolve(s.world, items[t].id, v2).world, a);
    RejectEvolves(s.world, items[t].id, e2);
    SettledCellStays(s.world, Reject(s.world, items[t].id, e2).world, a);
  }
}
