/** What the Promise layer promises: the executor's first settlement wins,
    `then` turns a handler's return into a fulfilment and its throw into a
    rejection, and the combinators settle as their loops dictate. */
module PromiseLemmas {
  import opened Values
  import opened Cells
  import opened CellLemmas
  import opened Promises

  /** The state a cell reaches from the first call its executor makes. */
  function SettledBy(call: SettleCall): (c: Cell)
    ensures c.status != Pending && c.resolves == [] && c.rejects == []
  {
    match call
    case CallResolve(v) => FreshCell().(status := Fulfilled, value := v)
    case CallReject(e) => FreshCell().(status := Rejected, reason := e)
  }

  lemma {:induction false} RunCallsOnFresh(w: World, p: nat, calls: seq<SettleCall>, n: nat)
    requires n <= |calls| && p < |w.cells| && w.cells[p] == FreshCell()
    ensures var r := RunCalls(w, p, calls, n);
      && r.thrown == None
      && r.world.joins == w.joins
      && |r.world.cells| == |w.cells|
      && (forall i :: 0 <= i < |w.cells| && i != p ==> r.world.cells[i] == w.cells[i])
      && r.world.cells[p] == (if n == 0 then FreshCell() else SettledBy(calls[0]))
  {
    if n > 0 {
      RunCallsOnFresh(w, p, calls, n - 1);
      var prev := RunCalls(w, p, calls, n - 1);
      if n == 1 {
        match calls[0] {
          case CallResolve(v) => ResolveUnobserved(prev.world, p, v);
          case CallReject(e) => RejectUnobserved(prev.world, p, e);
        }
      }
    }
  }

  /** The executor's first call of `resolve` or `reject` decides the new
      promise; a throw rejects it only if no such call came first; an
      executor that does neither leaves it pending. No other cell moves. */
  lemma ExecutorDecides(w: World, ex: Executor)
    ensures var m := Construct(w, Some(ex));
      && m.thrown == None
      && m.promise == |w.cells|
      && m.world.joins == w.joins
      && m.world.cells[..|w.cells|] == w.cells
      && m.world.cells[m.promise] ==
           if |ex.calls| > 0 then SettledBy(ex.calls[0])
           else if ex.completion.Throw? then SettledBy(CallReject(ex.completion.error))
           else FreshCell()
  {
    var a := Allocate(w);
    var p := a.promise;
    RunCallsOnFresh(a.world, p, ex.calls, |ex.calls|);
    var ran := RunCalls(a.world, p, ex.calls, |ex.calls|);
    if |ex.calls| == 0 && ex.completion.Throw? {
      RejectUnobserved(ran.world, p, ex.completion.error);
    } else if |ex.calls| > 0 && ex.completion.Throw? {
      assert ran.world.cells[p].status != Pending;
    }
    var m := Construct(w, Some(ex));
    assert m.world.cells[..|w.cells|] == w.cells by {
      forall i | 0 <= i < |w.cells| ensures m.world.cells[i] == w.cells[i] {
        assert i != p;
      }
    }
  }

  /** How a user handler's completion settles the child of `then`. */
  function ChildOf(out: Completion): (c: Cell)
    ensures c.status != Pending
  {
    match out
    case Return(x) => FreshCell().(status := Fulfilled, value := x)
    case Throw(e) => FreshCell().(status := Rejected, reason := e)
  }

  /** `then` on a fulfilled promise: the child is settled at once, by the
      handler's return (fulfilled) or throw (rejected), or with the parent's
      value when there is no handler. Nothing escapes, and no other cell,
      the parent included, changes. */
  lemma ThenOnFulfilled(w: World, p: nat, onF: Option<Fn>, onR: Option<Fn>)
    requires p < |w.cells| && w.cells[p].status == Fulfilled
    requires onF.Some? ==> onF.value.User?
    ensures var m := PromiseThen(w, p, onF, onR);
      && m.thrown == None
      && m.world.joins == w.joins
      && m.world.cells[..|w.cells|] == w.cells
      && m.world.cells[m.promise] ==
           if onF.Some? then ChildOf(onF.value.code(w.cells[p].value))
           else ChildOf(Return(w.cells[p].value))
  {
    var a := Allocate(w);
    var k := a.promise;
    var v := w.cells[p].value;
    var f := if onF.Some? then Wrapper(onF.value, k) else Resolver(k);
    FulfilResolveIsNoop(a.world, Some(f), p, v);
    var out := if onF.Some? then onF.value.code(v) else Return(v);
    match out {
      case Return(x) => ResolveUnobserved(a.world, k, x);
      case Throw(e) => RejectUnobserved(a.world, k, e);
    }
    var m := PromiseThen(w, p, onF, onR);
    assert m.world.cells[..|w.cells|] == w.cells by {
      forall i | 0 <= i < |w.cells| ensures m.world.cells[i] == w.cells[i] {
        assert i != k;
      }
    }
  }

  /** `then` on a rejected promise: a handler's return recovers the child
      (fulfilled), its throw rejects it; without a handler the reason
      passes through unchanged. */
  lemma ThenOnRejected(w: World, p: nat, onF: Option<Fn>, onR: Option<Fn>)
    requires p < |w.cells| && w.cells[p].status == Rejected
    requires onR.Some? ==> onR.value.User?
    ensures var m := PromiseThen(w, p, onF, onR);
      && m.thrown == None
      && m.world.joins == w.joins
      && m.world.cells[..|w.cells|] == w.cells
      && m.world.cells[m.promise] ==
           if onR.Some? then ChildOf(onR.value.code(w.cells[p].reason))
           else ChildOf(Throw(w.cells[p].reason))
  {
    var a := Allocate(w);
    var k := a.promise;
    var e := w.cells[p].reason;
    var out := if onR.Some? then onR.value.code(e) else Throw(e);
    if onR.Some? {
      assert Call(a.world, onR.value, e) == Invocation(a.world, out);
    }
    match out {
      case Return(x) => ResolveUnobserved(a.world, k, x);
      case Throw(e') => RejectUnobserved(a.world, k, e');
    }
    var m := PromiseThen(w, p, onF, onR);
    assert m.world.cells[..|w.cells|] == w.cells by {
      forall i | 0 <= i < |w.cells| ensures m.world.cells[i] == w.cells[i] {
        assert i != k;
      }
    }
  }

  /** `Promise.resolve(1).then(() => { throw 'boom' }).catch(e => e)`
      fulfils with 'boom': a handler's throw becomes a rejection, and
      `catch` turns it back into a value. */
  lemma ThrowThenCatch(w: World)
    ensures var one := StaticResolve(w, Num(1));
      var boom := PromiseThen(one.world, one.promise, Some(User(_ => Throw(Str("boom")))), None);
      var caught := Catch(boom.world, boom.promise, Some(User(e => Return(e))));
      && caught.thrown == None
      && caught.world.cells[caught.promise].status == Fulfilled
      && caught.world.cells[caught.promise].value == Str("boom")
  {
    var one := StaticResolve(w, Num(1));
    ThenOnFulfilled(one.world, one.promise, Some(User(_ => Throw(Str("boom")))), None);
    var boom := PromiseThen(one.world, one.promise, Some(User(_ => Throw(Str("boom")))), None);
    ThenOnRejected(boom.world, boom.promise, None, Some(User(e => Return(e))));
  }

  /** `Promise.all([])` fulfils at once with an empty array. */
  lemma AllOfNothing(w: World)
    ensures var m := All(w, []);
      && m.thrown == None
      && m.world.cells == w.cells + [FreshCell().(status := Fulfilled, value := List([]))]
  {
    var a := Allocate(w);
    var w1 := a.world.(joins := a.world.joins + [Join(a.promise, 0, map[], 0)]);
    ResolveUnobserved(w1, a.promise, List([]));
  }

  /** Promise.all's rejection handler: the first input to reject rejects the
      combined promise with that very reason. */
  lemma AllRejectsWithFirstReason(w: World, a: nat, k: nat, e: Value)
    requires a < |w.cells| && k < |w.cells| && a != k
    ensures var r := Call(w, Wrapper(Rejecter(a), k), e).world;
      && r.cells[a].status != Pending
      && (w.cells[a].status == Pending ==> r.cells[a].status == Rejected && r.cells[a].reason == e)
      && (w.cells[a].status != Pending ==> r.cells[a] == w.cells[a])
  {
    var inner := Reject(w, a, e);
    RejectEvolves(w, a, e);
    if w.cells[a].status == Pending {
      RejectFromPending(w, a, e);
    }
    assert CellEvolves(w.cells[a], inner.world.cells[a]);
    var out := Lift(inner).out;
    if out.Throw? {
      RejectEvolves(inner.world, k, out.error);
      assert CellEvolves(inner.world.cells[a], Reject(inner.world, k, out.error).world.cells[a]);
    } else {
      ResolveEvolves(inner.world, k, out.value);
      assert CellEvolves(inner.world.cells[a], Resolve(inner.world, k, out.value).world.cells[a]);
    }
  }

  /** The handlers of Promise.all, called in the order `order` in which
      their inputs happen to fulfil. */
  function FireSlots(w: World, j: nat, order: seq<nat>, vals: seq<Value>): World
    requires forall k :: 0 <= k < |order| ==> order[k] < |vals|
  {
    if order == [] then w
    else
      var last := order[|order| - 1];
      Call(FireSlots(w, j, order[..|order| - 1], vals), Slot(j, last), vals[last]).world
  }

  function Filled(order: seq<nat>, vals: seq<Value>): map<nat, Value>
    requires forall k :: 0 <= k < |order| ==> order[k] < |vals|
  {
    map i | i in order :: vals[i]
  }

  lemma {:induction false} SlotsBeforeLast(w: World, j: nat, order: seq<nat>, vals: seq<Value>, n: nat)
    requires j < |w.joins| && w.joins[j] == Join(w.joins[j].target, |vals|, map[], 0)
    requires forall k :: 0 <= k < |order| ==> order[k] < |vals|
    requires n <= |order| && n < |vals|
    ensures FireSlots(w, j, order[..n], vals) ==
      w.(joins := w.joins[j := Join(w.joins[j].target, |vals|, Filled(order[..n], vals), n)])
  {
    if n == 0 {
      assert Filled(order[..0], vals) == map[];
    } else {
      SlotsBeforeLast(w, j, order, vals, n - 1);
      assert order[..n][..n - 1] == order[..n - 1];
      var last := order[n - 1];
      assert Filled(order[..n], vals) == Filled(order[..n - 1], vals)[last := vals[last]] by {
        assert forall i :: i in order[..n] <==> i in order[..n - 1] || i == last;
      }
    }
  }

  /** Promise.all is positional whatever the order of settlement: while
      some input is outstanding the combined promise is left alone, and the
      handler that brings the counter to `l` fulfils it with the inputs'
      values in input order. */
  lemma AllInAnyOrder(w: World, j: nat, order: seq<nat>, vals: seq<Value>)
    requires j < |w.joins| && w.joins[j] == Join(w.joins[j].target, |vals|, map[], 0)
    requires w.joins[j].target < |w.cells| && w.cells[w.joins[j].target].status == Pending
    requires |order| == |vals| > 0
    requires forall k :: 0 <= k < |order| ==> order[k] < |vals|
    requires forall i :: 0 <= i < |vals| ==> i in order
    ensures forall n :: 0 <= n < |order| ==>
      FireSlots(w, j, order[..n], vals).cells == w.cells
    ensures var r := FireSlots(w, j, order, vals);
      && r.cells[w.joins[j].target].status == Fulfilled
      && r.cells[w.joins[j].target].value == List(vals)
  {
    var a := w.joins[j].target;
    var l := |vals|;
    forall n | 0 <= n < |order| ensures FireSlots(w, j, order[..n], vals).cells == w.cells {
      SlotsBeforeLast(w, j, order, vals, n);
    }
    SlotsBeforeLast(w, j, order, vals, l - 1);
    var before := FireSlots(w, j, order[..l - 1], vals);
    var last := order[l - 1];
    assert order[..l - 1] + [last] == order;
    var results := Filled(order[..l - 1], vals)[last := vals[last]];
    assert Dense(results, l) == vals by {
      forall i | 0 <= i < l ensures i in results {
        assert i in order;
        var k :| 0 <= k < |order| && order[k] == i;
        if k < l - 1 { assert i in order[..l - 1]; }
      }
    }
    var w1 := before.(joins := before.joins[j := Join(a, l, results, l)]);
    ResolveFromPending(w1, a, List(vals));
    assert FireSlots(w, j, order, vals) == Call(before, Slot(j, last), vals[last]).world;
  }

  /** One turn of Promise.race's loop on a plain value: `Promise.resolve(x)`
      is already fulfilled, so the race cell is resolved with `x` at once if
      it is still untouched, and left as it is once settled. */
  lemma {:induction false} RaceStepOnValue(w: World, r: nat, x: Value)
    requires !x.PromiseObj?
    requires r < |w.cells| && w.cells[r].resolves == [] && w.cells[r].rejects == []
    ensures var out := RaceStep(w, r, x);
      && out.thrown == None
      && |out.world.cells| == |w.cells| + 2
      && out.world.joins == w.joins
      && out.world.cells[r] ==
           if w.cells[r].status == Pending then w.cells[r].(status := Fulfilled, value := x) else w.cells[r]
  {
    var q := StaticResolve(w, x);
    var a := Allocate(q.world);
    var k := a.promise;
    var wk := a.world;
    FulfilResolveIsNoop(wk, Some(Wrapper(Resolver(r), k)), q.promise, x);
    if w.cells[r].status == Pending {
      ResolveUnobserved(wk, r, x);
      var w2 := Resolve(wk, r, x).world;
      ResolveUnobserved(w2, k, Undefined);
    } else {
      ResolveUnobserved(wk, k, Undefined);
    }
  }

  lemma {:induction false} RaceLoopOnValues(w: World, r: nat, items: seq<Value>, n: nat)
    requires n <= |items|
    requires forall i :: 0 <= i < |items| ==> !items[i].PromiseObj?
    requires r < |w.cells| && w.cells[r] == FreshCell()
    ensures var out := RaceLoop(w, r, items, n);
      && out.thrown == None
      && |out.world.cells| == |w.cells| + n + n
      && out.world.cells[r] ==
           if n == 0 then FreshCell() else FreshCell().(status := Fulfilled, value := items[0])
  {
    if n == 0 {
      assert RaceLoop(w, r, items, 0) == Run(w, None);
    } else {
      RaceLoopOnValues(w, r, items, n - 1);
      var prev := RaceLoop(w, r, items, n - 1);
      assert prev.thrown == None;
      var before := prev.world.cells[r];
      assert before.resolves == [] && before.rejects == [];
      RaceLoopStep(w, r, items, n - 1, prev.world);
      RaceStepOnValue(prev.world, r, items[n - 1]);
      var out := RaceStep(prev.world, r, items[n - 1]);
      if n == 1 {
        assert out.world.cells[r] == FreshCell().(status := Fulfilled, value := items[0]);
      } else {
        assert before.status == Fulfilled;
        assert out.world.cells[r] == before;
      }
    }
  }

  /** Promise.race over plain values fulfils with the first of them: the
      first input settles the race cell and settle-once ignores the rest. */
  lemma RaceOfValues(w: World, items: seq<Value>)
    requires |items| > 0
    requires forall i :: 0 <= i < |items| ==> !items[i].PromiseObj?
    ensures var m := Race(w, items);
      && m.thrown == None
      && m.promise < |m.world.cells|
      && m.world.cells[m.promise].status == Fulfilled
      && m.world.cells[m.promise].value == items[0]
  {
    var made := Allocate(w);
    RaceLoopOnValues(made.world, made.promise, items, |items|);
  }

  /** `Promise.race([])` races `Promise.resolve(null)` and fulfils with null. */
  lemma RaceOfNothing(w: World)
    ensures var m := Race(w, []);
      && m.thrown == None
      && m.promise < |m.world.cells|
      && m.world.cells[m.promise] == FreshCell().(status := Fulfilled, value := Null)
  {
    var made := Allocate(w);
    RaceStepOnValue(made.world, made.promise, Null);
  }

  /** `results` after the first `n` inputs have been stored. */
  function Prefix(items: seq<Value>, n: nat): map<nat, Value>
    requires n <= |items|
  {
    map i | 0 <= i < n :: items[i]
  }

  /** One turn of Promise.all's loop on a plain value: its slot runs at once,
      stores the value at its own index and bumps the counter; the turn that
      brings the counter to `l` fulfils the combined promise with every value. */
  lemma {:induction false} AllStepOnValue(w: World, a: nat, j: nat, items: seq<Value>, n: nat)
    requires n < |items| && !items[n].PromiseObj?
    requires a < |w.cells| && w.cells[a] == FreshCell()
    requires j < |w.joins| && w.joins[j] == Join(a, |items|, Prefix(items, n), n)
    ensures var out := AllStep(w, a, j, items[n], n);
      && out.thrown == None
      && |out.world.cells| == |w.cells| + 2
      && |out.world.joins| == |w.joins|
      && out.world.joins[j] == Join(a, |items|, Prefix(items, n + 1), n + 1)
      && out.world.cells[a] ==
           if n + 1 == |items| then FreshCell().(status := Fulfilled, value := List(items))
           else FreshCell()
  {
    var x := items[n];
    var q := StaticResolve(w, x);
    var b := Allocate(q.world);
    var k := b.promise;
    var wk := b.world;
    FulfilResolveIsNoop(wk, Some(Wrapper(Slot(j, n), k)), q.promise, x);
    assert Prefix(items, n)[n := x] == Prefix(items, n + 1);
    var w1 := wk.(joins := wk.joins[j := Join(a, |items|, Prefix(items, n + 1), n + 1)]);
    if n + 1 == |items| {
      assert Dense(Prefix(items, n + 1), |items|) == items;
      ResolveUnobserved(w1, a, List(items));
      var w2 := Resolve(w1, a, List(items)).world;
      ResolveUnobserved(w2, k, Undefined);
    } else {
      ResolveUnobserved(w1, k, Undefined);
    }
  }

  lemma {:induction false} AllLoopOnValues(w: World, a: nat, j: nat, items: seq<Value>, n: nat)
    requires n <= |items|
    requires forall i :: 0 <= i < |items| ==> !items[i].PromiseObj?
    requires a < |w.cells| && w.cells[a] == FreshCell()
    requires j < |w.joins| && w.joins[j] == Join(a, |items|, map[], 0)
    ensures var out := AllLoop(w, a, j, items, n);
      && out.thrown == None
      && |out.world.cells| == |w.cells| + n + n
      && |out.world.joins| == |w.joins|
      && out.world.joins[j] == Join(a, |items|, Prefix(items, n), n)
      && out.world.cells[a] ==
           if n == |items| > 0 then FreshCell().(status := Fulfilled, value := List(items))
           else FreshCell()
  {
    if n == 0 {
      assert AllLoop(w, a, j, items, 0) == Run(w, None);
      assert Prefix(items, 0) == map[];
    } else {
      AllLoopOnValues(w, a, j, items, n - 1);
      var prev := AllLoop(w, a, j, items, n - 1);
      AllLoopStep(w, a, j, items, n - 1, prev.world);
      AllStepOnValue(prev.world, a, j, items, n - 1);
      var out := AllStep(prev.world, a, j, items[n - 1], n - 1);
      assert AllLoop(w, a, j, items, n) == out;
      assert |out.world.cells| == |w.cells| + n + n by {
        assert |out.world.cells| == |prev.world.cells| + 2;
      }
      if n == |items| {
        assert out.world.cells[a] == FreshCell().(status := Fulfilled, value := List(items));
      } else {
        assert out.world.cells[a] == FreshCell();
      }
    }
  }

  /** Promise.all over plain values fulfils at once with those values, in
      input order. */
  lemma AllOfValues(w: World, items: seq<Value>)
    requires |items| > 0
    requires forall i :: 0 <= i < |items| ==> !items[i].PromiseObj?
    ensures var m := All(w, items);
      && m.thrown == None
      && m.promise < |m.world.cells|
      && m.world.cells[m.promise].status == Fulfilled
      && m.world.cells[m.promise].value == List(items)
  {
    var made := Allocate(w);
    var a := made.promise;
    var j := |made.world.joins|;
    var w1 := made.world.(joins := made.world.joins + [Join(a, |items|, map[], 0)]);
    AllLoopOnValues(w1, a, j, items, |items|);
  }

  /** As written, `Promise.reject(e).catch(h)` never runs `h`: the promise
      `Promise.reject` returns is still pending (only its stray fields hold
      `e`), so `catch` queues the handler and the child stays pending. */
  lemma StaticRejectNeverCatches(w: World, e: Value, h: Value -> Completion)
    ensures var r := StaticReject(w, e);
      var c := Catch(r.world, r.promise, Some(User(h)));
      && r.world.cells[r.promise].status == Pending
      && c.thrown == None
      && c.world.cells[r.promise].status == Pending
      && c.world.cells[r.promise].rejects == [Wrapper(User(h), c.promise)]
      && c.world.cells[c.promise] == FreshCell()
  {
    var r := StaticReject(w, e);
    var a := Allocate(r.world);
    var g := Wrapper(User(h), a.promise);
    assert Then(a.world, r.promise, Some(Resolver(a.promise)), Some(g)).world.cells[a.promise] == FreshCell();
  }

  /** With the corrected `Promise.reject`, `Promise.reject(e).catch(h)`
      settles the child by `h(e)`: fulfilled with what `h` returns, rejected
      with what it throws; the rejected promise itself is left as it was. */
  lemma StaticRejectIntendedCatches(w: World, e: Value, h: Value -> Completion)
    ensures var r := StaticRejectIntended(w, e);
      var c := Catch(r.world, r.promise, Some(User(h)));
      && c.thrown == None
      && c.world.cells[r.promise] == FreshCell().(status := Rejected, reason := e)
      && c.world.cells[c.promise] == ChildOf(h(e))
  {
    var r := StaticRejectIntended(w, e);
    ThenOnRejected(r.world, r.promise, None, Some(User(h)));
    var c := Catch(r.world, r.promise, Some(User(h)));
    assert c.world.cells[..|r.world.cells|][r.promise] == c.world.cells[r.promise];
  }

  /** `c` is cell `a` settled, with its queues as they are. */
  ghost predicate Settles(a: Cell, c: Cell) {
    c.status != Pending && c.resolves == a.resolves && c.rejects == a.rejects
  }

  /** The world right after `then` on pending promise `p` queued the child
      `k` behind the parent's existing subscribers: the queues still hold
      only library closures, and nothing able to fire names `k`. */
  lemma QueuedBehind(w: World, p: nat, onF: Option<Fn>, onR: Option<Fn>, m: Made)
    requires p < |w.cells| && w.cells[p].status == Pending
    requires SafeWorld(w) && Untargeted(w, |w.cells|)
    requires m == PromiseThen(w, p, onF, onR)
    ensures m.thrown == None && m.promise == |w.cells| && m.world.joins == w.joins
    ensures m.world.cells[m.promise] == FreshCell()
    ensures forall i :: 0 <= i < |w.cells| && i != p ==> m.world.cells[i] == w.cells[i]
    ensures m.world.cells[p] == w.cells[p].(
      resolves := w.cells[p].resolves + [Fulfil(Some(if onF.Some? then Wrapper(onF.value, m.promise) else Resolver(m.promise)), p)],
      rejects := w.cells[p].rejects + [if onR.Some? then Wrapper(onR.value, m.promise) else Rejecter(m.promise)])
    ensures forall c: Cell :: Settles(m.world.cells[p], c) ==>
      SafeWorld(m.world.(cells := m.world.cells[p := c])) && Untargeted(m.world.(cells := m.world.cells[p := c]), m.promise)
  {
    var k := |w.cells|;
    forall c: Cell | Settles(m.world.cells[p], c)
      ensures SafeWorld(m.world.(cells := m.world.cells[p := c]))
      ensures Untargeted(m.world.(cells := m.world.cells[p := c]), k)
    {
      var w1 := m.world.(cells := m.world.cells[p := c]);
      forall i | 0 <= i < |w1.cells|
        ensures forall t :: 0 <= t < |w1.cells[i].resolves| ==> Safe(w1.cells[i].resolves[t])
        ensures forall t :: 0 <= t < |w1.cells[i].rejects| ==> Safe(w1.cells[i].rejects[t])
        ensures w1.cells[i].status == Pending ==>
          (forall t :: 0 <= t < |w1.cells[i].resolves| ==> !Mentions(w1.cells[i].resolves[t], k)) &&
          (forall t :: 0 <= t < |w1.cells[i].rejects| ==> !Mentions(w1.cells[i].rejects[t], k))
      {
        if i == p {
          assert w1.cells[i] == c;
        } else if i < k {
          assert w1.cells[i] == w.cells[i];
        } else {
          assert w1.cells[i] == FreshCell();
        }
      }
    }
  }

  /** `then` on a pending promise waits: the child stays pending until the
      parent is resolved with `v`. The parent's earlier subscribers run
      first, and none of them can reach the new child; then the queued
      handler settles the child by `h(v)`, or passes `v` on when there is no
      handler. The parent ends fulfilled with `v`, its queues emptied. */
  lemma PendingThenLaterResolved(w: World, p: nat, onF: Option<Fn>, onR: Option<Fn>, v: Value)
    requires p < |w.cells| && w.cells[p].status == Pending
    requires SafeWorld(w) && Untargeted(w, |w.cells|)
    requires onF.Some? ==> onF.value.User?
    ensures var m := PromiseThen(w, p, onF, onR);
      var r := Resolve(m.world, p, v);
      && m.thrown == None
      && m.world.cells[m.promise] == FreshCell()
      && r.thrown == None
      && r.world.cells[p] == w.cells[p].(status := Fulfilled, value := v, resolves := [], rejects := [])
      && r.world.cells[m.promise] == ChildOf(if onF.Some? then onF.value.code(v) else Return(v))
  {
    var m := PromiseThen(w, p, onF, onR);
    QueuedBehind(w, p, onF, onR, m);
    var k := m.promise;
    var q := w.cells[p].resolves;
    var fk := if onF.Some? then Wrapper(onF.value, k) else Resolver(k);
    var f := Fulfil(Some(fk), p);
    var settled := m.world.cells[p].(status := Fulfilled, value := v);
    var w1 := m.world.(cells := m.world.cells[p := settled]);
    assert settled.resolves == q + [f];
    assert Settles(m.world.cells[p], settled);
    assert (q + [f])[..|q|] == q;
    forall t | 0 <= t < |q| ensures !Mentions(q[t], k) && Safe(q[t]) {
    }
    var mid := FireAll(w1, q, v);
    FireAllNeverThrows(w1, q, v);
    FireAllSpares(w1, q, v, k);
    FireAllEvolves(w1, q, v);
    SettledCellStays(w1, mid.world, p);
    FulfilResolveIsNoop(mid.world, Some(fk), p, v);
    var out := if onF.Some? then onF.value.code(v) else Return(v);
    if onF.Some? {
      assert Call(mid.world, onF.value, v) == Invocation(mid.world, out);
    }
    match out {
      case Return(x) => ResolveUnobserved(mid.world, k, x);
      case Throw(e) => RejectUnobserved(mid.world, k, e);
    }
    assert FireAll(w1, q + [f], v).world == Call(mid.world, f, v).world;
  }

  /** `then` on a pending promise that is later rejected with `e`: after
      the parent's earlier subscribers, the queued rejection handler settles
      the child by `g(e)` (a return recovers it), or the reason is passed on
      unchanged when there is no handler. The parent ends rejected with `e`. */
  lemma PendingThenLaterRejected(w: World, p: nat, onF: Option<Fn>, onR: Option<Fn>, e: Value)
    requires p < |w.cells| && w.cells[p].status == Pending
    requires SafeWorld(w) && Untargeted(w, |w.cells|)
    requires onR.Some? ==> onR.value.User?
    ensures var m := PromiseThen(w, p, onF, onR);
      var r := Reject(m.world, p, e);
      && m.thrown == None
      && m.world.cells[m.promise] == FreshCell()
      && r.thrown == None
      && r.world.cells[p].status == Rejected && r.world.cells[p].reason == e
      && r.world.cells[m.promise] == ChildOf(if onR.Some? then onR.value.code(e) else Throw(e))
  {
    var m := PromiseThen(w, p, onF, onR);
    QueuedBehind(w, p, onF, onR, m);
    var k := m.promise;
    var q := w.cells[p].rejects;
    var g := if onR.Some? then Wrapper(onR.value, k) else Rejecter(k);
    var settled := m.world.cells[p].(status := Rejected, reason := e);
    var w1 := m.world.(cells := m.world.cells[p := settled]);
    assert settled.rejects == q + [g];
    assert Settles(m.world.cells[p], settled);
    assert (q + [g])[..|q|] == q;
    forall t | 0 <= t < |q| ensures !Mentions(q[t], k) && Safe(q[t]) {
    }
    var mid := FireAll(w1, q, e);
    FireAllNeverThrows(w1, q, e);
    FireAllSpares(w1, q, e, k);
    FireAllEvolves(w1, q, e);
    SettledCellStays(w1, mid.world, p);
    var out := if onR.Some? then onR.value.code(e) else Throw(e);
    if onR.Some? {
      assert Call(mid.world, onR.value, e) == Invocation(mid.world, out);
    }
    match out {
      case Return(x) => ResolveUnobserved(mid.world, k, x);
      case Throw(e') => RejectUnobserved(mid.world, k, e');
    }
    assert FireAll(w1, q + [g], e).world == Call(mid.world, g, e).world;
  }
}
