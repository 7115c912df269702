/** The library as the objects it really mutates: a `Deferred` whose fields
    change in place, the state Promise.all shares between its handlers, and
    `Promise` objects that point at their Deferred. A `Heap` holds every
    object made so far; its `Snapshot` is the world of the functional model,
    and each method is proved to change the snapshot exactly as the function
    of the same name does. */
module Runtime {
  import opened Values
  import opened Cells
  import opened CellLemmas
  import opened Promises

  /** `function Deferred()` and its prototype. */
  class Deferred {
    const id: nat
    var status: Status
    var value: Value
    var reason: Value
    var resolves: seq<Fn>
    var rejects: seq<Fn>
    var strayResult: Option<Value>
    var strayStatus: Option<string>

    constructor (id: nat)
      ensures this.id == id && Snapshot() == FreshCell()
    {
      this.id := id;
      status := Pending;
      resolves := [];
      rejects := [];
      value := Null;
      reason := Null;
      strayResult := None;
      strayStatus := None;
    }

    ghost function Snapshot(): Cell
      reads this
    {
      Cell(status, value, reason, resolves, rejects, strayResult, strayStatus)
    }

    /** `Deferred.prototype.resolve`. */
    method Resolve(heap: Heap, v: Value) returns (thrown: Option<Value>)
      requires heap.Valid() && id < |heap.cells| && heap.cells[id] == this
      modifies heap.cells, heap.joins
      ensures Run(heap.Snapshot(), thrown) == Cells.Resolve(old(heap.Snapshot()), id, v)
      decreases PendingSet(heap.Snapshot()), 0, 0
    {
      ghost var w := heap.Snapshot();
      if status != Pending {
        return None;
      }
      status := Fulfilled;
      value := v;
      ghost var w1 := w.(cells := w.cells[id := w.cells[id].(status := Fulfilled, value := v)]);
      assert heap.Snapshot() == w.(cells := w.cells[id := Snapshot()]) by {
        assert forall i :: 0 <= i < |heap.cells| && i != id ==> heap.cells[i] != this;
      }
      assert PendingSet(w1) < PendingSet(w) by {
        assert id in PendingSet(w) && id !in PendingSet(w1);
      }
      var fs := resolves;
      thrown := heap.FireAll(fs, value);
      if thrown.None? {
        ClearQueues(heap);
      }
    }

    method ClearQueues(heap: Heap)
      requires heap.Valid() && id < |heap.cells| && heap.cells[id] == this
      modifies this
      ensures heap.Snapshot() == old(heap.Snapshot()).(cells := old(heap.Snapshot()).cells[id := old(Snapshot()).(resolves := [], rejects := [])])
    {
      ghost var w := heap.Snapshot();
      resolves := [];
      rejects := [];
      assert heap.Snapshot() == w.(cells := w.cells[id := Snapshot()]) by {
        assert forall i :: 0 <= i < |heap.cells| && i != id ==> heap.cells[i] != this;
      }
    }

    /** `Deferred.prototype.reject`. */
    method Reject(heap: Heap, e: Value) returns (thrown: Option<Value>)
      requires heap.Valid() && id < |heap.cells| && heap.cells[id] == this
      modifies heap.cells, heap.joins
      ensures Run(heap.Snapshot(), thrown) == Cells.Reject(old(heap.Snapshot()), id, e)
      decreases PendingSet(heap.Snapshot()), 0, 0
    {
      ghost var w := heap.Snapshot();
      if status != Pending {
        return None;
      }
      status := Rejected;
      reason := e;
      ghost var w1 := w.(cells := w.cells[id := w.cells[id].(status := Rejected, reason := e)]);
      assert heap.Snapshot() == w.(cells := w.cells[id := Snapshot()]) by {
        assert forall i :: 0 <= i < |heap.cells| && i != id ==> heap.cells[i] != this;
      }
      assert PendingSet(w1) < PendingSet(w) by {
        assert id in PendingSet(w) && id !in PendingSet(w1);
      }
      var fs := rejects;
      thrown := heap.FireAll(fs, reason);
    }

    /** What the executor's `resolve(value)` or `reject(reason)` does to this Deferred. */
    method Settle(heap: Heap, call: SettleCall) returns (thrown: Option<Value>)
      requires heap.Valid() && id < |heap.cells| && heap.cells[id] == this
      modifies heap.cells, heap.joins
      ensures Run(heap.Snapshot(), thrown) ==
        match call
        case CallResolve(v) => Cells.Resolve(old(heap.Snapshot()), id, v)
        case CallReject(e) => Cells.Reject(old(heap.Snapshot()), id, e)
    {
      match call {
        case CallResolve(v) =>
          thrown := Resolve(heap, v);
        case CallReject(e) =>
          thrown := Reject(heap, e);
      }
    }

    /** `Deferred.prototype.then`; it returns the Deferred it was called on. */
    method Then(heap: Heap, onFulfilled: Option<Fn>, onRejected: Option<Fn>) returns (self: Deferred, thrown: Option<Value>)
      requires heap.Valid() && id < |heap.cells| && heap.cells[id] == this
      modifies heap.cells, heap.joins
      ensures self == this
      ensures Run(heap.Snapshot(), thrown) == Cells.Then(old(heap.Snapshot()), id, onFulfilled, onRejected)
    {
      self := this;
      thrown := None;
      ghost var w := heap.Snapshot();
      match status
      case Pending =>
        resolves := resolves + [Fulfil(onFulfilled, id)];
        if onRejected.Some? {
          rejects := rejects + [onRejected.value];
        }
        assert heap.Snapshot() == w.(cells := w.cells[id := Snapshot()]) by {
        assert forall i :: 0 <= i < |heap.cells| && i != id ==> heap.cells[i] != this;
      }
      case Fulfilled =>
        var out := heap.Call(Fulfil(onFulfilled, id), value);
        if out.Throw? {
          thrown := Some(out.error);
        }
      case Rejected =>
        if onRejected.None? {
          thrown := Some(TypeError("onRejected is not a function"));
        } else {
          var out := heap.Call(onRejected.value, reason);
          if out.Throw? {
            thrown := Some(out.error);
          }
        }
    }
  }

  /** The variables one call of Promise.all shares between its handlers. */
  class AllState {
    const index: nat
    const target: nat
    const count: nat
    var results: map<nat, Value>
    var resolved: nat

    constructor (index: nat, target: nat, count: nat)
      ensures this.index == index && Snapshot() == Join(target, count, map[], 0)
    {
      this.index := index;
      this.target := target;
      this.count := count;
      results := map[];
      resolved := 0;
    }

    ghost function Snapshot(): Join
      reads this
    {
      Join(target, count, results, resolved)
    }
  }

  /** An instance of Promise: it only holds its Deferred. */
  class Promise {
    const id: nat
    var deferred: Deferred

    constructor (deferred: Deferred)
      ensures id == deferred.id && this.deferred == deferred
    {
      id := deferred.id;
      this.deferred := deferred;
    }

    /** `Promise.prototype.then`: a new promise settled by the handlers, or
        by the outcome of this one where a handler is missing. */
    method Then(heap: Heap, onFulfilled: Option<Fn>, onRejected: Option<Fn>) returns (promise: Promise, thrown: Option<Value>)
      requires heap.Valid() && id < |heap.promises| && heap.promises[id] == this
      modifies heap, heap.cells, heap.joins, this
      ensures heap.Valid() && deferred == old(deferred)
      ensures fresh(promise) && heap.promises == old(heap.promises) + [promise]
      ensures fresh(promise.deferred) && heap.cells == old(heap.cells) + [promise.deferred]
      ensures heap.joins == old(heap.joins)
      ensures Made(heap.Snapshot(), promise.id, thrown) ==
        PromiseThen(old(heap.Snapshot()), id, onFulfilled, onRejected)
    {
      promise := heap.NewPromise();
      var child := promise.id;
      var f := if onFulfilled.Some? then Wrapper(onFulfilled.value, child) else Resolver(child);
      var g := if onRejected.Some? then Wrapper(onRejected.value, child) else Rejecter(child);
      deferred, thrown := deferred.Then(heap, Some(f), Some(g));
    }

    /** `Promise.prototype.catch`. */
    method Catch(heap: Heap, onRejected: Option<Fn>) returns (promise: Promise, thrown: Option<Value>)
      requires heap.Valid() && id < |heap.promises| && heap.promises[id] == this
      modifies heap, heap.cells, heap.joins, this
      ensures heap.Valid() && deferred == old(deferred)
      ensures fresh(promise) && heap.promises == old(heap.promises) + [promise]
      ensures Made(heap.Snapshot(), promise.id, thrown) == Promises.Catch(old(heap.Snapshot()), id, onRejected)
    {
      promise, thrown := Then(heap, None, onRejected);
    }
  }

  /** Every Deferred and every Promise.all state made so far; Deferred `i`
      sits at index `i`. */
  class Heap {
    var cells: seq<Deferred>
    var joins: seq<AllState>
    var promises: seq<Promise>

    /** Deferred `i`, Promise `i` and Promise.all state `k` sit at their own
        index, and Promise `i` points at Deferred `i`. */
    ghost predicate Valid()
      reads this, promises
    {
      && (forall i :: 0 <= i < |cells| ==> cells[i].id == i)
      && (forall k :: 0 <= k < |joins| ==> joins[k].index == k)
      && |promises| == |cells|
      && (forall i :: 0 <= i < |promises| ==> promises[i].id == i && promises[i].deferred == cells[i])
    }

    /** Since the pre-state, `cells` and `promises` have only grown, by fresh objects. */
    twostate predicate Grown()
      reads this
    {
      && old(cells) <= cells && (forall k :: old(|cells|) <= k < |cells| ==> fresh(cells[k]))
      && old(promises) <= promises && (forall k :: old(|promises|) <= k < |promises| ==> fresh(promises[k]))
    }

    ghost function Snapshot(): World
      reads this, cells, joins
    {
      World(seq(|cells|, i requires 0 <= i < |cells| reads this, cells => cells[i].Snapshot()),
            seq(|joins|, k requires 0 <= k < |joins| reads this, joins => joins[k].Snapshot()))
    }

    constructor ()
      ensures Valid() && Snapshot() == World([], [])
    {
      cells := [];
      joins := [];
      promises := [];
    }

    /** `new Promise(...)` up to its executor: a new Promise and its Deferred. */
    method NewPromise() returns (promise: Promise)
      requires Valid()
      modifies this
      ensures Valid() && fresh(promise) && fresh(promise.deferred)
      ensures promise.id == old(|cells|) == promise.deferred.id
      ensures promise.id < |cells| && cells[promise.id] == promise.deferred && promises[promise.id] == promise
      ensures promises == old(promises) + [promise] && joins == old(joins)
      ensures cells == old(cells) + [promise.deferred] && promise.deferred.Snapshot() == FreshCell()
      ensures Snapshot() == Allocate(old(Snapshot())).world
    {
      ghost var w := Snapshot();
      var d := new Deferred(|cells|);
      promise := new Promise(d);
      cells := cells + [d];
      promises := promises + [promise];
      assert Snapshot().cells == w.cells + [FreshCell()];
    }

    /** `new Promise(executor)`; `executor` is None when it is not a function,
        and `promise` is then null. */
    method Construct(executor: Option<Executor>) returns (promise: Promise?, thrown: Option<Value>)
      requires Valid()
      modifies this, cells, joins
      ensures Valid()
      ensures executor.Some? ==> promise != null && fresh(promise) && promises == old(promises) + [promise]
      ensures executor.None? ==> promise == null && Snapshot() == old(Snapshot()) && promises == old(promises)
      ensures Made(Snapshot(), if promise == null then 0 else promise.id, thrown)
        == Promises.Construct(old(Snapshot()), executor)
    {
      if executor.None? {
        return null, Some(TypeError("Executor must be a function"));
      }
      promise := NewPromise();
      var deferred := promise.deferred;
      RunExecutor(deferred, executor.value.calls);
      thrown := None;
      if executor.value.completion.Throw? {
        // catch (e) { deferred.reject(e); }
        thrown := deferred.Reject(this, executor.value.completion.error);
      }
    }

    /** The executor's own calls of `resolve` and `reject`, in order. Nobody
        has subscribed to the new Deferred yet, so none of them throws. */
    method RunExecutor(deferred: Deferred, calls: seq<SettleCall>)
      requires Valid() && deferred.id < |cells| && cells[deferred.id] == deferred
      requires deferred.resolves == [] && deferred.rejects == []
      modifies cells, joins
      ensures Run(Snapshot(), None) == RunCalls(old(Snapshot()), deferred.id, calls, |calls|)
    {
      ghost var w := Snapshot();
      var i := 0;
      while i < |calls|
        invariant 0 <= i <= |calls|
        invariant RunCalls(w, deferred.id, calls, i) == Run(Snapshot(), None)
      {
        RunCallsStep(w, deferred.id, calls, i, Snapshot());
        RunCallsQuiet(w, deferred.id, calls, i + 1);
        var _ := deferred.Settle(this, calls[i]);
        i := i + 1;
      }
    }

    /** `Promise.resolve(value)`; an instance of Promise comes back as it is. */
    method StaticResolve(v: Value) returns (promise: Promise)
      requires Valid()
      requires v.PromiseObj? ==> v.id < |promises|
      modifies this, cells, joins
      ensures Valid() && promise.id < |promises| && promises[promise.id] == promise
      ensures joins == old(joins)
      ensures old(cells) <= cells && forall i :: old(|cells|) <= i < |cells| ==> fresh(cells[i])
      ensures old(promises) <= promises && forall i :: old(|promises|) <= i < |promises| ==> fresh(promises[i])
      ensures Made(Snapshot(), promise.id, None) == Promises.StaticResolve(old(Snapshot()), v)
    {
      if v.PromiseObj? {
        return promises[v.id];
      }
      promise := NewPromise();
      // new Promise(function (resolve) { resolve(value); }): nothing observes the new Deferred.
      ResolveUnobserved(Snapshot(), promise.id, v);
      var _ := promise.deferred.Resolve(this, v);
    }

    /** `Promise.reject(reason)`: the properties it writes are never read. */
    method StaticReject(e: Value) returns (promise: Promise)
      requires Valid()
      modifies this
      ensures Valid() && fresh(promise) && promises == old(promises) + [promise]
      ensures Made(Snapshot(), promise.id, None) == Promises.StaticReject(old(Snapshot()), e)
    {
      promise := NewPromise();
      ghost var w := Snapshot();
      var deferred := promise.deferred;
      deferred.strayResult := Some(e);
      deferred.strayStatus := Some("rejected");
      assert Snapshot() == w.(cells := w.cells[promise.id := deferred.Snapshot()]);
    }

    /** `Promise.all(iterable)`. */
    method All(items: seq<Value>) returns (promise: Promise, thrown: Option<Value>)
      requires Valid()
      requires forall i :: 0 <= i < |items| && items[i].PromiseObj? ==> items[i].id < |promises|
      modifies this, cells, joins, promises
      ensures Valid() && promise.id < |promises| && promises[promise.id] == promise
      ensures Made(Snapshot(), promise.id, thrown) == Promises.All(old(Snapshot()), items)
    {
      promise := NewPromise();
      var deferred := promise.deferred;
      var a := promise.id;
      var j := NewAllState(a, |items|);
      var escaped := AllExecutor(a, j, items);
      thrown := RejectOnThrow(deferred, escaped);
    }

    /** The body of Promise.all's executor: wire every input, or resolve
        with `[]` at once when there is none. */
    method AllExecutor(a: nat, j: nat, items: seq<Value>) returns (escaped: Option<Value>)
      requires Valid() && a < |cells|
      requires forall i :: 0 <= i < |items| && items[i].PromiseObj? ==> items[i].id < |promises|
      modifies this, cells, joins, promises
      ensures Valid() && joins == old(joins)
      ensures old(cells) <= cells && forall k :: old(|cells|) <= k < |cells| ==> fresh(cells[k])
      ensures old(promises) <= promises && forall k :: old(|promises|) <= k < |promises| ==> fresh(promises[k])
      ensures Run(Snapshot(), escaped) == Promises.AllExecutor(old(Snapshot()), a, j, items)
    {
      if |items| > 0 {
        escaped := WireAll(a, j, items);
      } else {
        escaped := cells[a].Resolve(this, List([]));
      }
    }

    /** `var l = iterable.length, resolved = 0, results = [];` */
    method NewAllState(target: nat, count: nat) returns (j: nat)
      requires Valid()
      modifies this
      ensures Valid() && j == old(|joins|)
      ensures cells == old(cells) && promises == old(promises)
      ensures |joins| == old(|joins|) + 1 && joins[..j] == old(joins) && fresh(joins[j])
      ensures Snapshot() == old(Snapshot()).(joins := old(Snapshot()).joins + [Join(target, count, map[], 0)])
    {
      ghost var w := Snapshot();
      var state := new AllState(|joins|, target, count);
      j := |joins|;
      joins := joins + [state];
      assert joins[..j] == old(joins);
      assert Snapshot() == w.(joins := w.joins + [Join(target, count, map[], 0)]);
    }

    /** `catch (e) { deferred.reject(e); }` around an executor that ended
        with `escaped`. */
    method RejectOnThrow(deferred: Deferred, escaped: Option<Value>) returns (thrown: Option<Value>)
      requires Valid() && deferred.id < |cells| && cells[deferred.id] == deferred
      modifies cells, joins
      ensures Made(Snapshot(), deferred.id, thrown) == Guard(Run(old(Snapshot()), escaped), deferred.id)
    {
      thrown := None;
      if escaped.Some? {
        thrown := deferred.Reject(this, escaped.value);
      }
    }

    /** `iterable.forEach(function (p, index) { Promise.resolve(p).then(slot, reject); })`
        for the combined promise `a` and its shared state `j`. */
    method WireAll(a: nat, j: nat, items: seq<Value>) returns (escaped: Option<Value>)
      requires Valid()
      requires forall i :: 0 <= i < |items| && items[i].PromiseObj? ==> items[i].id < |promises|
      modifies this, cells, joins, promises
      ensures Valid() && joins == old(joins)
      ensures old(cells) <= cells && forall k :: old(|cells|) <= k < |cells| ==> fresh(cells[k])
      ensures old(promises) <= promises && forall k :: old(|promises|) <= k < |promises| ==> fresh(promises[k])
      ensures Run(Snapshot(), escaped) == AllLoop(old(Snapshot()), a, j, items, |items|)
    {
      ghost var w := Snapshot();
      var i := 0;
      while i < |items|
        invariant Valid() && joins == old(joins)
        invariant Grown()
        invariant forall o :: o in cells ==> o in old(cells) || fresh(o)
        invariant forall o :: o in promises ==> o in old(promises) || fresh(o)
        invariant 0 <= i <= |items|
        invariant AllLoop(w, a, j, items, i) == Run(Snapshot(), None)
      {
        var t := AllTurnAt(a, j, items, i, w);
        if t.Some? {
          return t;
        }
        i := i + 1;
      }
      return None;
    }

    /** Turn `i` of WireAll, stated as a step of `Promises.AllLoop` from `w`. */
    method AllTurnAt(a: nat, j: nat, items: seq<Value>, i: nat, ghost w: World) returns (thrown: Option<Value>)
      requires Valid() && i < |items|
      requires items[i].PromiseObj? ==> items[i].id < |promises|
      requires AllLoop(w, a, j, items, i) == Run(Snapshot(), None)
      modifies this, cells, joins, promises
      ensures Valid() && joins == old(joins)
      ensures old(cells) <= cells && forall k :: old(|cells|) <= k < |cells| ==> fresh(cells[k])
      ensures old(promises) <= promises && forall k :: old(|promises|) <= k < |promises| ==> fresh(promises[k])
      ensures AllLoop(w, a, j, items, i + 1) == Run(Snapshot(), thrown)
      ensures thrown.Some? ==> AllLoop(w, a, j, items, |items|) == Run(Snapshot(), thrown)
    {
      AllLoopStep(w, a, j, items, i, Snapshot());
      thrown := AllTurn(a, j, items[i], i);
      if thrown.Some? {
        AllLoopAbort(w, a, j, items, i + 1, |items|);
      }
    }

    /** One turn of WireAll: `Promise.resolve(p).then(slot, reject)`. */
    method AllTurn(a: nat, j: nat, p: Value, index: nat) returns (thrown: Option<Value>)
      requires Valid()
      requires p.PromiseObj? ==> p.id < |promises|
      modifies this, cells, joins, promises
      ensures Valid() && joins == old(joins)
      ensures old(cells) <= cells && forall k :: old(|cells|) <= k < |cells| ==> fresh(cells[k])
      ensures old(promises) <= promises && forall k :: old(|promises|) <= k < |promises| ==> fresh(promises[k])
      ensures Run(Snapshot(), thrown) == AllStep(old(Snapshot()), a, j, p, index)
    {
      var q := StaticResolve(p);
      var _, t := q.Then(this, Some(Slot(j, index)), Some(Rejecter(a)));
      thrown := t;
    }

    /** `Promise.race(iterable)`. */
    method Race(items: seq<Value>) returns (promise: Promise, thrown: Option<Value>)
      requires Valid()
      requires forall i :: 0 <= i < |items| && items[i].PromiseObj? ==> items[i].id < |promises|
      modifies this, cells, joins, promises
      ensures Valid() && promise.id < |promises| && promises[promise.id] == promise
      ensures Made(Snapshot(), promise.id, thrown) == Promises.Race(old(Snapshot()), items)
    {
      promise := NewPromise();
      var deferred := promise.deferred;
      var escaped := RaceExecutor(promise.id, items);
      thrown := RejectOnThrow(deferred, escaped);
    }

    /** The body of Promise.race's executor; with no input it races
        `Promise.resolve(null)`. */
    method RaceExecutor(r: nat, items: seq<Value>) returns (escaped: Option<Value>)
      requires Valid()
      requires forall i :: 0 <= i < |items| && items[i].PromiseObj? ==> items[i].id < |promises|
      modifies this, cells, joins, promises
      ensures Valid() && joins == old(joins)
      ensures old(cells) <= cells && forall k :: old(|cells|) <= k < |cells| ==> fresh(cells[k])
      ensures old(promises) <= promises && forall k :: old(|promises|) <= k < |promises| ==> fresh(promises[k])
      ensures Run(Snapshot(), escaped) == Promises.RaceExecutor(old(Snapshot()), r, items)
    {
      if |items| > 0 {
        escaped := WireRace(r, items);
      } else {
        escaped := RaceTurn(r, Null);
      }
    }

    /** `iterable.forEach(function (p, index) { Promise.resolve(iterable[index]).then(resolve, reject); })`. */
    method WireRace(r: nat, items: seq<Value>) returns (escaped: Option<Value>)
      requires Valid()
      requires forall i :: 0 <= i < |items| && items[i].PromiseObj? ==> items[i].id < |promises|
      modifies this, cells, joins, promises
      ensures Valid() && joins == old(joins)
      ensures old(cells) <= cells && forall k :: old(|cells|) <= k < |cells| ==> fresh(cells[k])
      ensures old(promises) <= promises && forall k :: old(|promises|) <= k < |promises| ==> fresh(promises[k])
      ensures Run(Snapshot(), escaped) == RaceLoop(old(Snapshot()), r, items, |items|)
    {
      ghost var w := Snapshot();
      var i := 0;
      while i < |items|
        invariant Valid() && joins == old(joins)
        invariant Grown()
        invariant forall o :: o in cells ==> o in old(cells) || fresh(o)
        invariant forall o :: o in promises ==> o in old(promises) || fresh(o)
        invariant 0 <= i <= |items|
        invariant RaceLoop(w, r, items, i) == Run(Snapshot(), None)
      {
        var t := RaceTurnAt(r, items, i, w);
        if t.Some? {
          return t;
        }
        i := i + 1;
      }
      return None;
    }

    /** Turn `i` of WireRace, stated as a step of `Promises.RaceLoop` from `w`. */
    method RaceTurnAt(r: nat, items: seq<Value>, i: nat, ghost w: World) returns (thrown: Option<Value>)
      requires Valid() && i < |items|
      requires items[i].PromiseObj? ==> items[i].id < |promises|
      requires RaceLoop(w, r, items, i) == Run(Snapshot(), None)
      modifies this, cells, joins, promises
      ensures Valid() && joins == old(joins)
      ensures old(cells) <= cells && forall k :: old(|cells|) <= k < |cells| ==> fresh(cells[k])
      ensures old(promises) <= promises && forall k :: old(|promises|) <= k < |promises| ==> fresh(promises[k])
      ensures RaceLoop(w, r, items, i + 1) == Run(Snapshot(), thrown)
      ensures thrown.Some? ==> RaceLoop(w, r, items, |items|) == Run(Snapshot(), thrown)
    {
      RaceLoopStep(w, r, items, i, Snapshot());
      thrown := RaceTurn(r, items[i]);
      if thrown.Some? {
        RaceLoopAbort(w, r, items, i + 1, |items|);
      }
    }

    /** One turn of WireRace: `Promise.resolve(p).then(resolve, reject)`. */
    method RaceTurn(r: nat, p: Value) returns (thrown: Option<Value>)
      requires Valid()
      requires p.PromiseObj? ==> p.id < |promises|
      modifies this, cells, joins, promises
      ensures Valid() && joins == old(joins)
      ensures old(cells) <= cells && forall k :: old(|cells|) <= k < |cells| ==> fresh(cells[k])
      ensures old(promises) <= promises && forall k :: old(|promises|) <= k < |promises| ==> fresh(promises[k])
      ensures Run(Snapshot(), thrown) == RaceStep(old(Snapshot()), r, p)
    {
      var q := StaticResolve(p);
      var _, t := q.Then(this, Some(Resolver(r)), Some(Rejecter(r)));
      thrown := t;
    }

    /** `fs.forEach(function (f) { Promise.asap(f(arg)); })`. */
    method FireAll(fs: seq<Fn>, arg: Value) returns (thrown: Option<Value>)
      requires Valid()
      modifies cells, joins
      ensures Run(Snapshot(), thrown) == Cells.FireAll(old(Snapshot()), fs, arg)
      decreases PendingSet(Snapshot()), 2, |fs|
    {
      ghost var w := Snapshot();
      var i := 0;
      while i < |fs|
        invariant 0 <= i <= |fs|
        invariant Cells.FireAll(w, fs[..i], arg) == Run(Snapshot(), None)
      {
        ghost var before := Snapshot();
        assert PendingSet(before) <= PendingSet(w);
        var out := Call(fs[i], arg);
        FireAllStep(w, fs, i, arg, before);
        if out.Throw? {
          FireAllAbort(w, fs, i + 1, arg);
          return Some(out.error);
        }
        i := i + 1;
      }
      assert fs[..i] == fs;
      return None;
    }

    /** Calling one of the closures the library puts in a queue. */
    method Call(f: Fn, arg: Value) returns (out: Completion)
      requires Valid()
      modifies cells, joins
      ensures Invocation(Snapshot(), out) == Cells.Call(old(Snapshot()), f, arg)
      decreases PendingSet(Snapshot()), 1, f
    {
      match f
      case User(code) =>
        out := code(arg);
      case Resolver(c) =>
        var thrown := ResolveCell(c, arg);
        out := Ending(thrown);
      case Rejecter(c) =>
        var thrown := RejectCell(c, arg);
        out := Ending(thrown);
      case Wrapper(h, child) =>
        var result := Call(h, arg);
        var thrown;
        if result.Throw? {
          thrown := RejectCell(child, result.error);
        } else {
          thrown := ResolveCell(child, result.value);
        }
        out := Ending(thrown);
      case Fulfil(onFulfilled, owner) =>
        var ret;
        if onFulfilled.Some? {
          ret := Call(onFulfilled.value, arg);
        } else {
          ret := Return(arg);
        }
        if ret.Throw? || IsThenable(ret.value) {
          return ret;
        }
        var again := ResolveCell(owner, arg);
        out := if again.Some? then Throw(again.value) else ret;
      case Slot(j, i) =>
        if j >= |joins| {
          return Return(Undefined);
        }
        out := FillSlot(j, i, arg);
    }

    /** The fulfilment handler Promise.all gives input `index`:
        `results[index] = value; if (++resolved === l) resolve(results);` */
    method FillSlot(j: nat, index: nat, value: Value) returns (out: Completion)
      requires Valid() && j < |joins|
      modifies cells, joins
      ensures Invocation(Snapshot(), out) == Cells.Call(old(Snapshot()), Slot(j, index), value)
      decreases PendingSet(Snapshot()), 0, 2
    {
      ghost var w := Snapshot();
      var state := joins[j];
      state.results := state.results[index := value];
      state.resolved := state.resolved + 1;
      assert Snapshot() == w.(joins := w.joins[j := state.Snapshot()]);
      if state.resolved == state.count {
        var thrown := ResolveCell(state.target, List(Dense(state.results, state.count)));
        out := Ending(thrown);
      } else {
        out := Return(Undefined);
      }
    }

    /** `deferred.resolve(value)` on the Deferred with id `c`, if there is one. */
    method ResolveCell(c: nat, v: Value) returns (thrown: Option<Value>)
      requires Valid()
      modifies cells, joins
      ensures Run(Snapshot(), thrown) == Cells.Resolve(old(Snapshot()), c, v)
      decreases PendingSet(Snapshot()), 0, 1
    {
      if c < |cells| {
        thrown := cells[c].Resolve(this, v);
      } else {
        thrown := None;
      }
    }

    method RejectCell(c: nat, e: Value) returns (thrown: Option<Value>)
      requires Valid()
      modifies cells, joins
      ensures Run(Snapshot(), thrown) == Cells.Reject(old(Snapshot()), c, e)
      decreases PendingSet(Snapshot()), 0, 1
    {
      if c < |cells| {
        thrown := cells[c].Reject(this, e);
      } else {
        thrown := None;
      }
    }
  }
}
