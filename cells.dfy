/** The settlement cell (`Deferred`) and the closures that sit in its queues,
    as functions over a snapshot of every cell. A cell is named by its index
    in `World.cells`; promise `i` owns cell `i`. Callbacks run synchronously
    and in registration order, and a throw that escapes a callback aborts the
    `forEach` that called it, exactly as in the JavaScript. */
module Cells {
  import opened Values

  /** `Promise.STATUS`. */
  datatype Status = Pending | Fulfilled | Rejected

  /** Every JavaScript function that can reach a cell's queues. */
  datatype Fn =
    | User(code: Value -> Completion)        // a handler written by the library's user
    | Resolver(cell: nat)                    // `function (value) { deferred.resolve(value) }`
    | Rejecter(cell: nat)                    // `function (reason) { deferred.reject(reason) }`
    | Wrapper(handler: Fn, child: nat)       // `wrapper(_resolve, _reject, f)` of Promise.prototype.then
    | Fulfil(onFulfilled: Option<Fn>, owner: nat)  // the `fulfill` closure of Deferred.then
    | Slot(join: nat, index: nat)            // the fulfilment handler Promise.all gives input `index`

  /** The fields of one `Deferred`; `strayResult` and `strayStatus` are the
      `_result` and `_status` properties that Promise.reject adds. */
  datatype Cell = Cell(
    status: Status,
    value: Value,
    reason: Value,
    resolves: seq<Fn>,
    rejects: seq<Fn>,
    strayResult: Option<Value>,
    strayStatus: Option<string>)

  /** A Deferred as its constructor leaves it. */
  function FreshCell(): (c: Cell)
    ensures c.status == Pending && c.resolves == [] && c.rejects == []
  {
    Cell(Pending, Null, Null, [], [], None, None)
  }

  /** The variables one call of Promise.all shares between its handlers:
      the combined cell, `l`, `results` and `resolved`. */
  datatype Join = Join(target: nat, count: nat, results: map<nat, Value>, resolved: nat)

  datatype World = World(cells: seq<Cell>, joins: seq<Join>)

  /** The end of a call that returns nothing useful: it may have thrown. */
  datatype Run = Run(world: World, thrown: Option<Value>)

  /** The end of a call of a JavaScript function. */
  datatype Invocation = Invocation(world: World, out: Completion)

  /** The array `results` as a JavaScript array of length `count`; a hole reads as undefined. */
  function Dense(results: map<nat, Value>, count: nat): (s: seq<Value>)
    ensures |s| == count
    ensures forall i :: 0 <= i < count && i in results ==> s[i] == results[i]
  {
    seq(count, i requires 0 <= i < count => if i in results then results[i] else Undefined)
  }

  ghost function PendingSet(w: World): set<nat> {
    set i | 0 <= i < |w.cells| && w.cells[i].status == Pending
  }

  /** Settle-once, for one cell: a settled cell keeps its status, value and
      reason; a pending one may settle, storing only the matching field; the
      queues stay as they are unless the cell was fulfilled, which empties them. */
  ghost predicate CellEvolves(a: Cell, b: Cell) {
    && b.strayResult == a.strayResult && b.strayStatus == a.strayStatus
    && (a.status != Pending ==> b.status == a.status && b.value == a.value && b.reason == a.reason)
    && (b.status == Pending ==> b.value == a.value && b.reason == a.reason)
    && (b.status == Fulfilled ==> b.reason == a.reason)
    && (b.status == Rejected ==> b.value == a.value)
    && ((b.resolves == a.resolves && b.rejects == a.rejects)
        || (a.status == Pending && b.status == Fulfilled && b.resolves == [] && b.rejects == []))
  }

  /** What any cascade of settlements may do to the world. */
  ghost predicate Evolves(w: World, w': World) {
    && |w'.cells| == |w.cells|
    && |w'.joins| == |w.joins|
    && (forall i :: 0 <= i < |w.cells| ==> CellEvolves(w.cells[i], w'.cells[i]))
    && (forall k :: 0 <= k < |w.joins| ==>
          w'.joins[k].target == w.joins[k].target && w'.joins[k].count == w.joins[k].count)
  }

  /** How one of the library's closures ends: it returns undefined unless
      what it called threw. */
  function Ending(thrown: Option<Value>): Completion
  {
    if thrown.Some? then Throw(thrown.value) else Return(Undefined)
  }

  /** Turns a Run into the completion of the closure that ran it. */
  function Lift(r: Run): Invocation
  {
    Invocation(r.world, Ending(r.thrown))
  }

  /** `Deferred.prototype.resolve`. */
  function Resolve(w: World, c: nat, v: Value): (r: Run)
    ensures |r.world.cells| == |w.cells|
    ensures PendingSet(r.world) <= PendingSet(w)
    decreases PendingSet(w), 0, 0
  {
    if c >= |w.cells| || w.cells[c].status != Pending then Run(w, None)
    else
      var cell := w.cells[c];
      var w1 := w.(cells := w.cells[c := cell.(status := Fulfilled, value := v)]);
      assert PendingSet(w1) < PendingSet(w) by {
        assert c in PendingSet(w) && c !in PendingSet(w1);
      }
      var fired := FireAll(w1, cell.resolves, v);
      if fired.thrown.Some? then fired
      else
        var w2 := fired.world;
        var w3 := w2.(cells := w2.cells[c := w2.cells[c].(resolves := [], rejects := [])]);
        assert PendingSet(w3) == PendingSet(w2) by {
          assert forall i :: 0 <= i < |w2.cells| ==> w3.cells[i].status == w2.cells[i].status;
        }
        Run(w3, None)
  }

  /** `Deferred.prototype.reject`: unlike resolve, it leaves both queues in place. */
  function Reject(w: World, c: nat, e: Value): (r: Run)
    ensures |r.world.cells| == |w.cells|
    ensures PendingSet(r.world) <= PendingSet(w)
    decreases PendingSet(w), 0, 0
  {
    if c >= |w.cells| || w.cells[c].status != Pending then Run(w, None)
    else
      var cell := w.cells[c];
      var w1 := w.(cells := w.cells[c := cell.(status := Rejected, reason := e)]);
      assert PendingSet(w1) < PendingSet(w) by {
        assert c in PendingSet(w) && c !in PendingSet(w1);
      }
      FireAll(w1, cell.rejects, e)
  }

  /** `fs.forEach(function (f) { Promise.asap(f(arg)); })`: each callback in
      turn; a throw ends the loop. The value handed to `asap` is dropped. */
  function FireAll(w: World, fs: seq<Fn>, arg: Value): (r: Run)
    ensures |r.world.cells| == |w.cells|
    ensures PendingSet(r.world) <= PendingSet(w)
    decreases PendingSet(w), 2, |fs|
  {
    if fs == [] then Run(w, None)
    else
      var prev := FireAll(w, fs[..|fs| - 1], arg);
      if prev.thrown.Some? then prev
      else
        var call := Call(prev.world, fs[|fs| - 1], arg);
        Run(call.world, if call.out.Throw? then Some(call.out.error) else None)
  }

  /** Calling one of the closures with an argument. */
  function Call(w: World, f: Fn, arg: Value): (r: Invocation)
    ensures |r.world.cells| == |w.cells|
    ensures PendingSet(r.world) <= PendingSet(w)
    decreases PendingSet(w), 1, f
  {
    match f
    case User(code) => Invocation(w, code(arg))
    case Resolver(c) => Lift(Resolve(w, c, arg))
    case Rejecter(c) => Lift(Reject(w, c, arg))
    case Wrapper(h, child) =>
      var inner := Call(w, h, arg);
      var next :=
        if inner.out.Throw? then Reject(inner.world, child, inner.out.error)
        else Resolve(inner.world, child, inner.out.value);
      Lift(next)
    case Fulfil(on, owner) =>
      var ret := if on.Some? then Call(w, on.value, arg) else Invocation(w, Return(arg));
      if ret.out.Throw? || IsThenable(ret.out.value) then ret
      else
        var again := Resolve(ret.world, owner, arg);
        if again.thrown.Some? then Invocation(again.world, Throw(again.thrown.value))
        else Invocation(again.world, ret.out)
    case Slot(j, i) =>
      if j >= |w.joins| then Invocation(w, Return(Undefined))
      else
        var jn := w.joins[j];
        var jn' := jn.(results := jn.results[i := arg], resolved := jn.resolved + 1);
        var w1 := w.(joins := w.joins[j := jn']);
        if jn'.resolved == jn.count then
          Lift(Resolve(w1, jn.target, List(Dense(jn'.results, jn.count))))
        else Invocation(w1, Return(Undefined))
  }

  /** `Deferred.prototype.then`: queue while pending, otherwise call at once.
      It returns the cell itself, so only the world and a possible throw are
      reported. */
  function Then(w: World, c: nat, onFulfilled: Option<Fn>, onRejected: Option<Fn>): (r: Run)
    ensures c < |w.cells| && w.cells[c].status == Pending ==>
      && r.thrown == None
      && r.world.joins == w.joins
      && |r.world.cells| == |w.cells|
      && (forall i :: 0 <= i < |w.cells| && i != c ==> r.world.cells[i] == w.cells[i])
      && r.world.cells[c] == w.cells[c].(
           resolves := w.cells[c].resolves + [Fulfil(onFulfilled, c)],
           rejects := w.cells[c].rejects + (if onRejected.Some? then [onRejected.value] else []))
    ensures |r.world.cells| == |w.cells|
  {
    if c >= |w.cells| then Run(w, None)
    else
      var cell := w.cells[c];
      match cell.status
      case Pending =>
        var cell' := cell.(
          resolves := cell.resolves + [Fulfil(onFulfilled, c)],
          rejects := if onRejected.Some? then cell.rejects + [onRejected.value] else cell.rejects);
        Run(w.(cells := w.cells[c := cell']), None)
      case Fulfilled =>
        var i := Call(w, Fulfil(onFulfilled, c), cell.value);
        Run(i.world, if i.out.Throw? then Some(i.out.error) else None)
      case Rejected =>
        if onRejected.None? then Run(w, Some(TypeError("onRejected is not a function")))
        else
          var i := Call(w, onRejected.value, cell.reason);
          Run(i.world, if i.out.Throw? then Some(i.out.error) else None)
  }
}
