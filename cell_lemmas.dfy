/** What the settlement cell promises: settle-once, the effect of a first
    resolve or reject, and that the library's own closures never throw. */
module CellLemmas {
  import opened Values
  import opened Cells

  lemma EvolvesTrans(w0: World, w1: World, w2: World)
    requires Evolves(w0, w1) && Evolves(w1, w2)
    ensures Evolves(w0, w2)
  {
  }

  /** Settle-once for every cascade a settlement can start: a settled cell
      keeps its status, value and reason, a pending one changes only by
      settling, queues only empty on fulfilment, and every Promise.all keeps
      its target and count. */
  lemma {:induction false} ResolveEvolves(w: World, c: nat, v: Value)
    ensures Evolves(w, Resolve(w, c, v).world)
    decreases PendingSet(w), 0, 0
  {
    if c < |w.cells| && w.cells[c].status == Pending {
      var cell := w.cells[c];
      var w1 := w.(cells := w.cells[c := cell.(status := Fulfilled, value := v)]);
      assert PendingSet(w1) < PendingSet(w) by {
        assert c in PendingSet(w) && c !in PendingSet(w1);
      }
      var fired := FireAll(w1, cell.resolves, v);
      FireAllEvolves(w1, cell.resolves, v);
      EvolvesTrans(w, w1, fired.world);
      if fired.thrown.None? {
        var w2 := fired.world;
        var w3 := w2.(cells := w2.cells[c := w2.cells[c].(resolves := [], rejects := [])]);
        assert CellEvolves(w1.cells[c], w2.cells[c]);
        forall i | 0 <= i < |w.cells| ensures CellEvolves(w.cells[i], w3.cells[i]) {
          if i != c {
            assert w3.cells[i] == w2.cells[i];
          }
        }
      }
    }
  }

  lemma {:induction false} RejectEvolves(w: World, c: nat, e: Value)
    ensures Evolves(w, Reject(w, c, e).world)
    decreases PendingSet(w), 0, 0
  {
    if c < |w.cells| && w.cells[c].status == Pending {
      var cell := w.cells[c];
      var w1 := w.(cells := w.cells[c := cell.(status := Rejected, reason := e)]);
      assert PendingSet(w1) < PendingSet(w) by {
        assert c in PendingSet(w) && c !in PendingSet(w1);
      }
      FireAllEvolves(w1, cell.rejects, e);
      EvolvesTrans(w, w1, FireAll(w1, cell.rejects, e).world);
    }
  }

  lemma {:induction false} FireAllEvolves(w: World, fs: seq<Fn>, arg: Value)
    ensures Evolves(w, FireAll(w, fs, arg).world)
    decreases PendingSet(w), 2, |fs|
  {
    if fs != [] {
      var prev := FireAll(w, fs[..|fs| - 1], arg);
      FireAllEvolves(w, fs[..|fs| - 1], arg);
      if prev.thrown.None? {
        CallEvolves(prev.world, fs[|fs| - 1], arg);
        EvolvesTrans(w, prev.world, Call(prev.world, fs[|fs| - 1], arg).world);
      }
    }
  }

  lemma {:induction false} CallEvolves(w: World, f: Fn, arg: Value)
    ensures Evolves(w, Call(w, f, arg).world)
    decreases PendingSet(w), 1, f
  {
    match f
    case User(_) =>
    case Resolver(c) => ResolveEvolves(w, c, arg);
    case Rejecter(c) => RejectEvolves(w, c, arg);
    case Wrapper(h, child) =>
      var inner := Call(w, h, arg);
      CallEvolves(w, h, arg);
      if inner.out.Throw? {
        RejectEvolves(inner.world, child, inner.out.error);
        EvolvesTrans(w, inner.world, Reject(inner.world, child, inner.out.error).world);
      } else {
        ResolveEvolves(inner.world, child, inner.out.value);
        EvolvesTrans(w, inner.world, Resolve(inner.world, child, inner.out.value).world);
      }
    case Fulfil(on, owner) =>
      var ret := if on.Some? then Call(w, on.value, arg) else Invocation(w, Return(arg));
      if on.Some? {
        CallEvolves(w, on.value, arg);
      }
      ResolveEvolves(ret.world, owner, arg);
      EvolvesTrans(w, ret.world, Resolve(ret.world, owner, arg).world);
    case Slot(j, i) => SlotEvolves(w, j, i, arg);
  }

  lemma {:induction false} SlotEvolves(w: World, j: nat, i: nat, arg: Value)
    ensures Evolves(w, Call(w, Slot(j, i), arg).world)
    decreases PendingSet(w), 0, 1
  {
    if j < |w.joins| {
      var jn := w.joins[j];
      var jn' := jn.(results := jn.results[i := arg], resolved := jn.resolved + 1);
      var w1 := w.(joins := w.joins[j := jn']);
      assert PendingSet(w1) == PendingSet(w);
      ResolveEvolves(w1, jn.target, List(Dense(jn'.results, jn.count)));
      EvolvesTrans(w, w1, Resolve(w1, jn.target, List(Dense(jn'.results, jn.count))).world);
    }
  }

  /** Deferred.then on a settled cell is a cascade like any other. */
  lemma ThenEvolves(w: World, c: nat, onF: Option<Fn>, onR: Option<Fn>)
    requires !(c < |w.cells| && w.cells[c].status == Pending)
    ensures Evolves(w, Then(w, c, onF, onR).world)
  {
    if c < |w.cells| {
      match w.cells[c].status {
        case Fulfilled => CallEvolves(w, Fulfil(onF, c), w.cells[c].value);
        case Rejected =>
          if onR.Some? {
            CallEvolves(w, onR.value, w.cells[c].reason);
          }
      }
    }
  }

  /** A settled cell is never touched again, queues included. */
  lemma SettledCellStays(w: World, w': World, c: nat)
    requires Evolves(w, w') && c < |w.cells| && w.cells[c].status != Pending
    ensures w'.cells[c] == w.cells[c]
  {
    assert CellEvolves(w.cells[c], w'.cells[c]);
  }

  /** A first `resolve` fulfils the cell with the argument and, unless a
      callback threw, leaves both queues empty; `_reason` is untouched. */
  lemma ResolveFromPending(w: World, c: nat, v: Value)
    requires c < |w.cells| && w.cells[c].status == Pending
    ensures var r := Resolve(w, c, v);
      && r.world.cells[c].status == Fulfilled
      && r.world.cells[c].value == v
      && r.world.cells[c].reason == w.cells[c].reason
      && (r.thrown.None? ==> r.world.cells[c].resolves == [] && r.world.cells[c].rejects == [])
  {
    var cell := w.cells[c];
    var w1 := w.(cells := w.cells[c := cell.(status := Fulfilled, value := v)]);
    FireAllEvolves(w1, cell.resolves, v);
    assert CellEvolves(w1.cells[c], FireAll(w1, cell.resolves, v).world.cells[c]);
  }

  /** A first `reject` rejects the cell with the argument and leaves
      `_value` and both queues as they were. */
  lemma RejectFromPending(w: World, c: nat, e: Value)
    requires c < |w.cells| && w.cells[c].status == Pending
    ensures var r := Reject(w, c, e);
      && r.world.cells[c].status == Rejected
      && r.world.cells[c].reason == e
      && r.world.cells[c].value == w.cells[c].value
      && r.world.cells[c].resolves == w.cells[c].resolves
      && r.world.cells[c].rejects == w.cells[c].rejects
  {
    var cell := w.cells[c];
    var w1 := w.(cells := w.cells[c := cell.(status := Rejected, reason := e)]);
    FireAllEvolves(w1, cell.rejects, e);
    assert CellEvolves(w1.cells[c], FireAll(w1, cell.rejects, e).world.cells[c]);
  }

  /** Settle-once: after a first resolve, a second resolve and a later
      reject change nothing at all, so the first value stays. */
  lemma FirstSettlementWins(w: World, c: nat, v: Value, v2: Value, e: Value)
    requires c < |w.cells| && w.cells[c].status == Pending
    ensures var w1 := Resolve(w, c, v).world;
      && Resolve(w1, c, v2) == Run(w1, None)
      && Reject(w1, c, e) == Run(w1, None)
      && w1.cells[c].status == Fulfilled && w1.cells[c].value == v
  {
    ResolveFromPending(w, c, v);
  }

  /** Settle-once for rejection: a later resolve or reject changes nothing. */
  lemma FirstRejectionWins(w: World, c: nat, e: Value, v2: Value, e2: Value)
    requires c < |w.cells| && w.cells[c].status == Pending
    ensures var w1 := Reject(w, c, e).world;
      && Resolve(w1, c, v2) == Run(w1, None)
      && Reject(w1, c, e2) == Run(w1, None)
      && w1.cells[c].status == Rejected && w1.cells[c].reason == e
  {
    RejectFromPending(w, c, e);
  }

  /** A closure the library itself builds: everything but a bare user
      handler, and `fulfill` only around such a closure. */
  predicate Safe(f: Fn) {
    match f
    case User(_) => false
    case Fulfil(on, _) => on.None? || Safe(on.value)
    case _ => true
  }

  ghost predicate SafeWorld(w: World) {
    forall i, k :: 0 <= i < |w.cells| ==>
      (0 <= k < |w.cells[i].resolves| ==> Safe(w.cells[i].resolves[k])) &&
      (0 <= k < |w.cells[i].rejects| ==> Safe(w.cells[i].rejects[k]))
  }

  lemma SafeWorldEvolves(w: World, w': World)
    requires SafeWorld(w) && Evolves(w, w')
    ensures SafeWorld(w')
  {
    forall i | 0 <= i < |w'.cells|
      ensures forall k :: 0 <= k < |w'.cells[i].resolves| ==> Safe(w'.cells[i].resolves[k])
      ensures forall k :: 0 <= k < |w'.cells[i].rejects| ==> Safe(w'.cells[i].rejects[k])
    {
      assert CellEvolves(w.cells[i], w'.cells[i]);
    }
  }

  /** In a world whose queues hold only the library's closures, no
      settlement throws: `resolve` and `reject` return normally. */
  lemma {:induction false} ResolveNeverThrows(w: World, c: nat, v: Value)
    requires SafeWorld(w)
    ensures Resolve(w, c, v).thrown == None
    decreases PendingSet(w), 0, 0
  {
    if c < |w.cells| && w.cells[c].status == Pending {
      var cell := w.cells[c];
      var w1 := w.(cells := w.cells[c := cell.(status := Fulfilled, value := v)]);
      assert PendingSet(w1) < PendingSet(w) by {
        assert c in PendingSet(w) && c !in PendingSet(w1);
      }
      assert SafeWorld(w1) by {
        forall i | 0 <= i < |w1.cells|
          ensures forall k :: 0 <= k < |w1.cells[i].resolves| ==> Safe(w1.cells[i].resolves[k])
          ensures forall k :: 0 <= k < |w1.cells[i].rejects| ==> Safe(w1.cells[i].rejects[k])
        {
        }
      }
      FireAllNeverThrows(w1, cell.resolves, v);
    }
  }

  lemma {:induction false} RejectNeverThrows(w: World, c: nat, e: Value)
    requires SafeWorld(w)
    ensures Reject(w, c, e).thrown == None
    decreases PendingSet(w), 0, 0
  {
    if c < |w.cells| && w.cells[c].status == Pending {
      var cell := w.cells[c];
      var w1 := w.(cells := w.cells[c := cell.(status := Rejected, reason := e)]);
      assert PendingSet(w1) < PendingSet(w) by {
        assert c in PendingSet(w) && c !in PendingSet(w1);
      }
      assert SafeWorld(w1) by {
        forall i | 0 <= i < |w1.cells|
          ensures forall k :: 0 <= k < |w1.cells[i].resolves| ==> Safe(w1.cells[i].resolves[k])
          ensures forall k :: 0 <= k < |w1.cells[i].rejects| ==> Safe(w1.cells[i].rejects[k])
        {
        }
      }
      FireAllNeverThrows(w1, cell.rejects, e);
    }
  }

  lemma {:induction false} FireAllNeverThrows(w: World, fs: seq<Fn>, arg: Value)
    requires SafeWorld(w)
    requires forall k :: 0 <= k < |fs| ==> Safe(fs[k])
    ensures FireAll(w, fs, arg).thrown == None
    decreases PendingSet(w), 2, |fs|
  {
    if fs != [] {
      var prev := FireAll(w, fs[..|fs| - 1], arg);
      FireAllNeverThrows(w, fs[..|fs| - 1], arg);
      FireAllEvolves(w, fs[..|fs| - 1], arg);
      SafeWorldEvolves(w, prev.world);
      CallNeverThrows(prev.world, fs[|fs| - 1], arg);
    }
  }

  /** A library closure returns normally; all but `fulfill` without a
      handler return undefined, so `fulfill` around one of them never sees a
      thenable and always reaches its own `self.resolve`. */
  lemma {:induction false} CallNeverThrows(w: World, f: Fn, arg: Value)
    requires SafeWorld(w) && Safe(f)
    ensures Call(w, f, arg).out.Return?
    ensures !f.Fulfil? ==> Call(w, f, arg).out == Return(Undefined)
    decreases PendingSet(w), 1, f
  {
    match f
    case User(_) =>
    case Resolver(c) => ResolveNeverThrows(w, c, arg);
    case Rejecter(c) => RejectNeverThrows(w, c, arg);
    case Wrapper(h, child) =>
      var inner := Call(w, h, arg);
      CallEvolves(w, h, arg);
      SafeWorldEvolves(w, inner.world);
      if inner.out.Throw? {
        RejectNeverThrows(inner.world, child, inner.out.error);
      } else {
        ResolveNeverThrows(inner.world, child, inner.out.value);
      }
    case Fulfil(on, owner) =>
      var ret := if on.Some? then Call(w, on.value, arg) else Invocation(w, Return(arg));
      if on.Some? {
        CallNeverThrows(w, on.value, arg);
        CallEvolves(w, on.value, arg);
      }
      SafeWorldEvolves(w, ret.world);
      ResolveNeverThrows(ret.world, owner, arg);
    case Slot(j, i) =>
      if j < |w.joins| {
        var jn := w.joins[j];
        var jn' := jn.(results := jn.results[i := arg], resolved := jn.resolved + 1);
        var w1 := w.(joins := w.joins[j := jn']);
        ResolveNeverThrows(w1, jn.target, List(Dense(jn'.results, jn.count)));
      }
  }

  /** Inside `fulfill`, the nested `self.resolve(value)` is a no-op: the cell
      that runs `fulfill` is already fulfilled, so only the handler acts. */
  lemma FulfilResolveIsNoop(w: World, on: Option<Fn>, owner: nat, arg: Value)
    requires owner < |w.cells| && w.cells[owner].status == Fulfilled
    ensures Call(w, Fulfil(on, owner), arg) ==
      (if on.Some? then Call(w, on.value, arg) else Invocation(w, Return(arg)))
  {
    if on.Some? {
      CallEvolves(w, on.value, arg);
      assert CellEvolves(w.cells[owner], Call(w, on.value, arg).world.cells[owner]);
    }
  }

  /** Deferred.then on a settled cell never grows a queue. */
  lemma ThenOnSettledKeepsQueues(w: World, c: nat, onF: Option<Fn>, onR: Option<Fn>)
    requires c < |w.cells| && w.cells[c].status != Pending
    ensures var r := Then(w, c, onF, onR).world;
      && |r.cells[c].resolves| == |w.cells[c].resolves|
      && |r.cells[c].rejects| == |w.cells[c].rejects|
      && r.cells[c].status == w.cells[c].status
  {
    ThenEvolves(w, c, onF, onR);
    assert CellEvolves(w.cells[c], Then(w, c, onF, onR).world.cells[c]);
  }

  /** A cell that nobody has subscribed to settles without calling anything. */
  lemma ResolveUnobserved(w: World, c: nat, v: Value)
    requires c < |w.cells| && w.cells[c].status == Pending && w.cells[c].resolves == []
    ensures Resolve(w, c, v) ==
      Run(w.(cells := w.cells[c := w.cells[c].(status := Fulfilled, value := v, rejects := [])]), None)
  {
    var w1 := w.(cells := w.cells[c := w.cells[c].(status := Fulfilled, value := v)]);
    assert FireAll(w1, [], v) == Run(w1, None);
  }

  lemma RejectUnobserved(w: World, c: nat, e: Value)
    requires c < |w.cells| && w.cells[c].status == Pending && w.cells[c].rejects == []
    ensures Reject(w, c, e) == Run(w.(cells := w.cells[c := w.cells[c].(status := Rejected, reason := e)]), None)
  {
    var w1 := w.(cells := w.cells[c := w.cells[c].(status := Rejected, reason := e)]);
    assert FireAll(w1, [], e) == Run(w1, None);
  }

  /** Whether calling `f` can settle cell `k` directly. */
  predicate Mentions(f: Fn, k: nat) {
    match f
    case User(_) => false
    case Resolver(c) => c == k
    case Rejecter(c) => c == k
    case Wrapper(h, child) => child == k || Mentions(h, k)
    case Fulfil(on, owner) => owner == k || (on.Some? && Mentions(on.value, k))
    case Slot(_, _) => false
  }

  /** No closure still able to fire, and no Promise.all target, names cell
      `k`: only the queues of pending cells can ever run again. */
  ghost predicate Untargeted(w: World, k: nat) {
    && (forall j :: 0 <= j < |w.joins| ==> w.joins[j].target != k)
    && (forall i, t :: 0 <= i < |w.cells| && w.cells[i].status == Pending ==>
          (0 <= t < |w.cells[i].resolves| ==> !Mentions(w.cells[i].resolves[t], k)) &&
          (0 <= t < |w.cells[i].rejects| ==> !Mentions(w.cells[i].rejects[t], k)))
  }

  lemma UntargetedEvolves(w: World, w': World, k: nat)
    requires Untargeted(w, k) && Evolves(w, w')
    ensures Untargeted(w', k)
  {
    forall i | 0 <= i < |w'.cells| && w'.cells[i].status == Pending
      ensures forall t :: 0 <= t < |w'.cells[i].resolves| ==> !Mentions(w'.cells[i].resolves[t], k)
      ensures forall t :: 0 <= t < |w'.cells[i].rejects| ==> !Mentions(w'.cells[i].rejects[t], k)
    {
      assert CellEvolves(w.cells[i], w'.cells[i]);
    }
  }

  /** Settling a pending cell other than `k` keeps `k` untargeted. */
  lemma UntargetedSettle(w: World, c: nat, cell: Cell, k: nat)
    requires Untargeted(w, k) && c < |w.cells| && cell.status != Pending
    ensures Untargeted(w.(cells := w.cells[c := cell]), k)
  {
    var w1 := w.(cells := w.cells[c := cell]);
    forall i | 0 <= i < |w1.cells| && w1.cells[i].status == Pending
      ensures forall t :: 0 <= t < |w1.cells[i].resolves| ==> !Mentions(w1.cells[i].resolves[t], k)
      ensures forall t :: 0 <= t < |w1.cells[i].rejects| ==> !Mentions(w1.cells[i].rejects[t], k)
    {
      assert i != c && w1.cells[i] == w.cells[i];
    }
  }

  /** A cascade never touches a cell that nothing able to fire names. */
  lemma {:induction false} ResolveSpares(w: World, c: nat, v: Value, k: nat)
    requires Untargeted(w, k) && c != k && k < |w.cells|
    ensures Resolve(w, c, v).world.cells[k] == w.cells[k]
    decreases PendingSet(w), 0, 0
  {
    if c < |w.cells| && w.cells[c].status == Pending {
      var cell := w.cells[c];
      var w1 := w.(cells := w.cells[c := cell.(status := Fulfilled, value := v)]);
      assert PendingSet(w1) < PendingSet(w) by {
        assert c in PendingSet(w) && c !in PendingSet(w1);
      }
      UntargetedSettle(w, c, cell.(status := Fulfilled, value := v), k);
      FireAllSpares(w1, cell.resolves, v, k);
    }
  }

  lemma {:induction false} RejectSpares(w: World, c: nat, e: Value, k: nat)
    requires Untargeted(w, k) && c != k && k < |w.cells|
    ensures Reject(w, c, e).world.cells[k] == w.cells[k]
    decreases PendingSet(w), 0, 0
  {
    if c < |w.cells| && w.cells[c].status == Pending {
      var cell := w.cells[c];
      var w1 := w.(cells := w.cells[c := cell.(status := Rejected, reason := e)]);
      assert PendingSet(w1) < PendingSet(w) by {
        assert c in PendingSet(w) && c !in PendingSet(w1);
      }
      UntargetedSettle(w, c, cell.(status := Rejected, reason := e), k);
      FireAllSpares(w1, cell.rejects, e, k);
    }
  }

  lemma {:induction false} FireAllSpares(w: World, fs: seq<Fn>, arg: Value, k: nat)
    requires Untargeted(w, k) && k < |w.cells|
    requires forall t :: 0 <= t < |fs| ==> !Mentions(fs[t], k)
    ensures FireAll(w, fs, arg).world.cells[k] == w.cells[k]
    decreases PendingSet(w), 2, |fs|
  {
    if fs != [] {
      var prev := FireAll(w, fs[..|fs| - 1], arg);
      FireAllSpares(w, fs[..|fs| - 1], arg, k);
      if prev.thrown.None? {
        FireAllEvolves(w, fs[..|fs| - 1], arg);
        UntargetedEvolves(w, prev.world, k);
        CallSpares(prev.world, fs[|fs| - 1], arg, k);
      }
    }
  }

  lemma {:induction false} CallSpares(w: World, f: Fn, arg: Value, k: nat)
    requires Untargeted(w, k) && k < |w.cells| && !Mentions(f, k)
    ensures Call(w, f, arg).world.cells[k] == w.cells[k]
    decreases PendingSet(w), 1, f
  {
    match f
    case User(_) =>
    case Resolver(c) => ResolveSpares(w, c, arg, k);
    case Rejecter(c) => RejectSpares(w, c, arg, k);
    case Wrapper(h, child) =>
      var inner := Call(w, h, arg);
      CallSpares(w, h, arg, k);
      CallEvolves(w, h, arg);
      UntargetedEvolves(w, inner.world, k);
      if inner.out.Throw? {
        RejectSpares(inner.world, child, inner.out.error, k);
      } else {
        ResolveSpares(inner.world, child, inner.out.value, k);
      }
    case Fulfil(on, owner) =>
      var ret := if on.Some? then Call(w, on.value, arg) else Invocation(w, Return(arg));
      if on.Some? {
        CallSpares(w, on.value, arg, k);
        CallEvolves(w, on.value, arg);
      }
      UntargetedEvolves(w, ret.world, k);
      ResolveSpares(ret.world, owner, arg, k);
    case Slot(j, i) =>
      if j < |w.joins| {
        var jn := w.joins[j];
        var jn' := jn.(results := jn.results[i := arg], resolved := jn.resolved + 1);
        var w1 := w.(joins := w.joins[j := jn']);
        assert PendingSet(w1) == PendingSet(w);
        assert Untargeted(w1, k);
        ResolveSpares(w1, jn.target, List(Dense(jn'.results, jn.count)), k);
      }
  }

  /** A throw ends `forEach`: once a prefix of the callbacks has thrown, the
      rest are never called. */
  lemma {:induction false} FireAllAbort(w: World, fs: seq<Fn>, n: nat, arg: Value)
    requires n <= |fs| && FireAll(w, fs[..n], arg).thrown.Some?
    ensures FireAll(w, fs, arg) == FireAll(w, fs[..n], arg)
  {
    if n < |fs| {
      var init := fs[..|fs| - 1];
      assert init[..n] == fs[..n];
      FireAllAbort(w, init, n, arg);
    } else {
      assert fs[..n] == fs;
    }
  }

  /** One more turn of `forEach` after a prefix that returned normally. */
  lemma FireAllStep(w: World, fs: seq<Fn>, i: nat, arg: Value, mid: World)
    requires i < |fs| && FireAll(w, fs[..i], arg) == Run(mid, None)
    ensures var call := Call(mid, fs[i], arg);
      FireAll(w, fs[..i + 1], arg) == Run(call.world, if call.out.Throw? then Some(call.out.error) else None)
  {
    assert fs[..i + 1][..i] == fs[..i];
  }
}
