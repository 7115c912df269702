# promise.js in Dafny

A model of promise.js, a small Promise/A+-style library, with proofs about
its behaviour. The library has three parts:

- **`Deferred`** is a settlement cell. It holds a status (`PENDING`,
  `FULFILLED`, `REJECTED`), a value, a reason and two callback queues.
- **`Promise`** owns one `Deferred`. It runs a user executor with a
  `resolve` and a `reject` closure. `then` and `catch` build a child promise
  that the parent's outcome settles, through the `wrapper` closure.
- **The statics** are `Promise.all`, `Promise.race`, `Promise.resolve`,
  `Promise.reject` and `Promise.isThenable`.

The model has two layers.

- **The functional layer** (modules `Cells` and `Promises`) describes every
  operation as a function over a snapshot `World` of all cells:
  - Promise `i` owns cell `i`.
  - A `Join` holds the variables one call of `Promise.all` shares between its
    handlers (`l`, `results`, `resolved`).
  - Every JavaScript closure that can reach a queue is a value of `Fn`.

  Callbacks run synchronously and in order. A throw escaping a callback
  aborts the `forEach` that called it and propagates to the caller, as it
  does in the JavaScript.
- **The imperative layer** (module `Runtime`) holds the same operations as
  classes:
  - `Deferred`, whose fields `resolve`, `reject` and `then` update in place;
  - `Promise`, whose `then` replaces its `deferred` field;
  - `AllState`;
  - `Heap`, which owns every object.

  Each method is proved to produce exactly the snapshot that the functional
  layer computes from the old snapshot.

The properties are proved in `CellLemmas`, `PromiseLemmas`, `RaceLemmas`, `AllLemmas`, `OperationLemmas` and `ScopeLemmas`:

- settle-once;
- the effect of a first `resolve` or `reject`;
- `then` queueing on a pending cell and firing at once on a settled one;
- the library's own closures never throwing;
- the executor's first call deciding the promise;
- handler return, handler throw and forwarding in `then`;
- positional, order-independent results and first-rejection-wins in `Promise.all`, for plain values and for pending promises;
- first-settler-wins in `Promise.race`, for plain values and for pending promises;
- every public operation returning normally, keeping the queues free of bare user code, and changing existing cells only as settle-once allows;
- every public operation keeping promise ids pointing at promises that already exist.

## Model

| member | source | states |
|---|---|---|
| Values.IsThenable | promise.js:160-162 | a value is thenable exactly when it has a callable `then`, and only truthy values are |
| Cells.FreshCell | promise.js:55-61 | a new Deferred is pending with both queues empty |
| Cells.Dense | promise.js:171-181 | the `results` array has length `l`, and each stored index holds its stored value |
| Cells.Resolve | promise.js:64-77 | resolve never adds a cell and never makes a settled cell pending again |
| Cells.Reject | promise.js:78-90 | reject never adds a cell and never makes a settled cell pending again |
| Cells.FireAll | promise.js:71-73 | running a queue of callbacks never adds a cell and never makes a settled cell pending again |
| Cells.Call | promise.js:94-243 | calling any closure (`fulfill` at 94-104, the executor's resolve and reject at 136-140, Promise.all's slot at 177-181, `wrapper` at 232-243) never adds a cell and never makes a settled cell pending again |
| Cells.Then | promise.js:91-122 | on a pending cell, then appends `fulfill` to `_resolves`, and `onRejected` to `_rejects` only when given; it changes nothing else and throws nothing |
| CellLemmas.EvolvesTrans | promise.js:64-90 | two successive cascades of settlements together respect settle-once |
| CellLemmas.ResolveEvolves | promise.js:64-77 | everything resolve sets off keeps settled cells' status, value and reason, and empties queues only of a cell it fulfils |
| CellLemmas.RejectEvolves | promise.js:78-90 | everything reject sets off keeps settled cells' status, value and reason, and leaves queues in place except where a cell is fulfilled |
| CellLemmas.FireAllEvolves | promise.js:71-73 | running a queue of callbacks respects settle-once for every cell |
| CellLemmas.CallEvolves | promise.js:94-243 | any closure of the library, or any user handler, respects settle-once for every cell |
| CellLemmas.SlotEvolves | promise.js:177-182 | Promise.all's fulfilment handler respects settle-once and keeps each join's target and count |
| CellLemmas.ThenEvolves | promise.js:113-118 | then on a settled cell respects settle-once |
| CellLemmas.ResolveFromPending | promise.js:69-75 | a first resolve fulfils the cell with its argument, keeps `_reason`, and empties both queues unless a callback threw |
| CellLemmas.RejectFromPending | promise.js:83-88 | a first reject rejects the cell with its argument, keeps `_value`, and keeps both queues |
| CellLemmas.SettledCellStays | promise.js:66-68 | once a cell is settled, no cascade changes any of its fields, queues included |
| CellLemmas.FirstSettlementWins | promise.js:66-68 | after a first resolve, a later resolve or reject is a no-op that throws nothing, and the first value stays |
| CellLemmas.FirstRejectionWins | promise.js:80-82 | after a first reject, a later resolve or reject is a no-op that throws nothing, and the first reason stays |
| CellLemmas.SafeWorldEvolves | promise.js:64-90 | settle-once keeps a world whose queues hold only library closures in that state |
| CellLemmas.ResolveNeverThrows | promise.js:64-77 | when queues hold only the library's own closures, resolve never throws |
| CellLemmas.RejectNeverThrows | promise.js:78-90 | when queues hold only the library's own closures, reject never throws |
| CellLemmas.FireAllNeverThrows | promise.js:71-73 | a queue of library closures runs to the end without throwing |
| CellLemmas.CallNeverThrows | promise.js:232-243 | a library closure returns normally; all but `fulfill` return undefined |
| CellLemmas.FulfilResolveIsNoop | promise.js:94-104 | inside `fulfill`, the nested `self.resolve(value)` is a no-op because the cell is already fulfilled, so the outcome is the handler's alone |
| CellLemmas.ThenOnSettledKeepsQueues | promise.js:113-118 | then on a settled cell calls at once: the cell's status stays and its queues do not grow |
| CellLemmas.ResolveUnobserved | promise.js:64-77 | resolving a pending cell with no subscribers only sets its status and value, and throws nothing |
| CellLemmas.RejectUnobserved | promise.js:78-90 | rejecting a pending cell with no subscribers only sets its status and reason, and throws nothing |
| CellLemmas.UntargetedEvolves | promise.js:64-90 | once no queue of a pending cell and no Promise.all target names a cell, settle-once keeps it that way |
| CellLemmas.UntargetedSettle | promise.js:69-70 | settling a pending cell keeps every other cell unnamed by the closures that can still fire |
| CellLemmas.ResolveSpares | promise.js:64-77 | resolve, and everything it sets off, leaves untouched a cell that no closure able to fire names |
| CellLemmas.RejectSpares | promise.js:78-90 | reject, and everything it sets off, leaves untouched a cell that no closure able to fire names |
| CellLemmas.FireAllSpares | promise.js:71-73 | running a queue whose closures do not name a cell leaves that cell untouched |
| CellLemmas.CallSpares | promise.js:94-243 | a closure that does not name a cell, whatever it calls in turn, leaves that cell untouched |
| CellLemmas.FireAllAbort | promise.js:71-73 | once one callback in a queue has thrown, the rest are never called |
| CellLemmas.FireAllStep | promise.js:71-73 | after a prefix of the queue returned normally, the next callback runs on the resulting state |
| Promises.Allocate | promise.js:133-134 | a new promise gets a new pending cell at the next index; nothing else changes |
| Promises.RunCalls | promise.js:135-140 | the executor's calls never add a cell |
| Promises.RunCallsEvolves | promise.js:136-140 | the executor's calls of resolve and reject respect settle-once |
| Promises.RunCallsQuiet | promise.js:136-140 | the executor's calls on its own new cell never throw |
| Promises.RunCallsStep | promise.js:136-140 | after calls that returned normally, the next call resolves or rejects the cell on the resulting state |
| Promises.UnobservedNeverThrows | promise.js:133-140 | a cell created with empty queues can be resolved or rejected without a throw, whatever happened since |
| Promises.Guard | promise.js:135-143 | the try/catch around an executor leaves the promise's index unchanged and adds no cell |
| Promises.Construct | promise.js:129-143 | a non-function executor throws a TypeError "Executor must be a function" and changes nothing; otherwise exactly one cell is added and nothing escapes |
| Promises.PromiseThen | promise.js:225-251 | then always returns a new promise at the next index and adds exactly one cell |
| Promises.Catch | promise.js:252-254 | catch returns the new promise that `then(null, onRejected)` makes |
| Promises.StaticResolve | promise.js:214-221 | an instance of Promise comes back as it is; any other value gives a new promise already fulfilled with it |
| Promises.StaticReject | promise.js:203-213 | Promise.reject as written: a new promise whose cell stays pending; only the stray `_result`/`_status` fields hold the reason |
| Promises.StaticRejectIntended | promise.js:203-213 | corrected Promise.reject: a new promise already rejected with the reason, with no other change |
| Promises.AllStep | promise.js:177-182 | one turn of Promise.all's loop makes the child promise of `then`, and first a promise for the input when it is not one |
| Promises.Spawned | promise.js:177-196 | n turns of the all or race loop make between n and 2n promises: one `then` child per input, plus one `Promise.resolve` promise per input that is not a promise |
| Promises.AllLoopSize | promise.js:176-183 | n turns of Promise.all's loop that throw nothing add exactly one promise per promise input and two per other input; a throw only ends the loop early |
| Promises.AllExecutor | promise.js:168-187 | Promise.all's executor adds at most two promises per input |
| Promises.All | promise.js:167-188 | Promise.all returns a new promise at the next index |
| Promises.RaceStep | promise.js:196 | one turn of Promise.race's loop makes the child promise of `then`, and first a promise for the input when it is not one |
| Promises.RaceLoopSize | promise.js:195-197 | n turns of Promise.race's loop that throw nothing add exactly one promise per promise input and two per other input; a throw only ends the loop early |
| Promises.RaceExecutor | promise.js:190-201 | Promise.race's executor adds at most two promises per input, or two for the race against `Promise.resolve(null)` |
| Promises.Race | promise.js:189-202 | Promise.race returns a new promise at the next index |
| Promises.AllLoopStep | promise.js:176-183 | after turns that returned normally, the next turn of Promise.all's forEach runs on the resulting state |
| Promises.RaceLoopStep | promise.js:195-197 | after turns that returned normally, the next turn of Promise.race's forEach runs on the resulting state |
| Promises.AllLoopAbort | promise.js:176-183 | a throw in one turn of Promise.all's forEach ends the loop |
| Promises.RaceLoopAbort | promise.js:195-197 | a throw in one turn of Promise.race's forEach ends the loop |
| PromiseLemmas.SettledBy | promise.js:136-140 | an executor's resolve call gives a fulfilled cell and its reject call a rejected one, with empty queues |
| PromiseLemmas.RunCallsOnFresh | promise.js:136-140 | on a new cell, the executor's first call decides the cell, later calls change nothing, nothing throws and no other cell moves |
| PromiseLemmas.ExecutorDecides | promise.js:125-144 | new Promise: the executor's first resolve or reject decides the promise; a throw rejects it only if neither came first; otherwise it stays pending; earlier cells are unchanged |
| PromiseLemmas.ChildOf | promise.js:232-243 | a handler's return gives a fulfilled child and its throw a rejected one |
| PromiseLemmas.ThenOnFulfilled | promise.js:225-251 | then on a fulfilled promise settles the child at once, by the handler's return or throw, or with the parent's value when no handler was given; the parent and other cells are unchanged |
| PromiseLemmas.ThenOnRejected | promise.js:225-251 | then on a rejected promise settles the child by the rejection handler's return (recovery) or throw, or forwards the reason when no handler was given |
| PromiseLemmas.QueuedBehind | promise.js:106-112 | then on a pending promise appends `fulfill` and the rejection closure behind the existing subscribers, leaves the child pending, changes no other cell, and keeps every queue safe with no closure naming the child |
| PromiseLemmas.PendingThenLaterResolved | promise.js:91-112 | then on a pending promise leaves the child pending; when the parent is later resolved with v, its earlier subscribers cannot reach the child, and the child settles by the handler applied to v, or with v when there is no handler; the parent ends fulfilled with v and its queues emptied; nothing throws |
| PromiseLemmas.PendingThenLaterRejected | promise.js:225-251 | then on a pending promise later rejected with e: the child settles by the rejection handler applied to e (a return recovers it), or is rejected with e when there is no handler; the parent ends rejected with e; nothing throws |
| PromiseLemmas.ThrowThenCatch | promise.js:232-254 | `Promise.resolve(1).then(() => { throw 'boom' }).catch(e => e)` fulfils with 'boom' |
| PromiseLemmas.AllOfNothing | promise.js:184-186 | Promise.all of an empty input fulfils at once with `[]` |
| PromiseLemmas.AllRejectsWithFirstReason | promise.js:177-182 | Promise.all's rejection handler rejects the combined promise with the first rejection's reason and leaves an already-settled one alone |
| PromiseLemmas.SlotsBeforeLast | promise.js:177-181 | until the counter reaches `l`, the fulfilment handlers only store values at their indexes and count |
| PromiseLemmas.AllInAnyOrder | promise.js:171-183 | in any order of settlement, the combined promise stays untouched while an input is outstanding; the handler that brings `resolved` to `l` fulfils it with all values in input order |
| PromiseLemmas.RaceStepOnValue | promise.js:196 | one turn of race on a plain value fulfils the race cell with it if still pending, and otherwise changes it not at all |
| PromiseLemmas.RaceLoopOnValues | promise.js:194-197 | after n turns of race over plain values, the race cell holds the first value |
| PromiseLemmas.RaceOfValues | promise.js:189-202 | Promise.race over plain values fulfils with the first of them |
| PromiseLemmas.RaceOfNothing | promise.js:198-200 | Promise.race of an empty input fulfils with null |
| PromiseLemmas.AllStepOnValue | promise.js:176-183 | one turn of all on a plain value stores it at its index and bumps the counter; the last turn fulfils the combined promise with every value |
| PromiseLemmas.AllLoopOnValues | promise.js:175-183 | after n turns of all over plain values, `results` holds the first n values and `resolved` is n |
| PromiseLemmas.AllOfValues | promise.js:167-188 | Promise.all over plain values fulfils with those values, in input order |
| PromiseLemmas.StaticRejectNeverCatches | promise.js:203-213 | as written, `Promise.reject(e).catch(h)` never runs h: the promise and the child both stay pending |
| PromiseLemmas.StaticRejectIntendedCatches | promise.js:203-213 | with the corrected Promise.reject, `.catch(h)` settles the child by h(e) and leaves the rejected promise as it is |
| RaceLemmas.UnobservedEvolves | promise.js:64-90 | settle-once keeps a cell with no subscribers free of subscribers |
| RaceLemmas.RaceFulfilCall | promise.js:94-104 | the `fulfill` closure that race leaves on a fulfilled input resolves the race cell with the value if it is still pending, and otherwise leaves it alone; it returns undefined |
| RaceLemmas.RaceRejectCall | promise.js:232-243 | the rejection closure that race leaves on an input rejects the race cell with the reason if it is still pending, and otherwise leaves it alone; it returns undefined |
| RaceLemmas.FireRaceFulfils | promise.js:71-73 | running an input's queue of race closures on fulfilment: the first one fulfils a pending race cell, the rest change it not at all, and nothing throws |
| RaceLemmas.FireRaceRejects | promise.js:86-88 | running an input's queue of race closures on rejection: the first one rejects a pending race cell, the rest change it not at all, and nothing throws |
| RaceLemmas.ArmedResolve | promise.js:64-77 | resolving an input subscribed only to the race fulfils the still-pending race cell with that value, without a throw |
| RaceLemmas.ArmedReject | promise.js:78-90 | rejecting an input subscribed only to the race rejects the still-pending race cell with that reason, without a throw |
| RaceLemmas.RaceStepWires | promise.js:196 | one turn of race on a pending input subscribes the race cell to it around a fresh child and changes no other input and not the race cell |
| RaceLemmas.RaceLoopWires | promise.js:195-197 | after n turns of race over pending inputs, the first n are subscribed to the race cell, which stays as it was, and nothing threw |
| RaceLemmas.RaceArmsInputs | promise.js:189-202 | Promise.race over pending promises with no subscribers returns normally with a pending race promise, and every input is subscribed to it and to nothing else |
| RaceLemmas.RaceFirstFulfilmentWins | promise.js:189-202 | first settler wins: the first input resolved with v fulfils the race with v, and a later resolve or reject of any input leaves the race cell exactly as it is |
| RaceLemmas.RaceFirstRejectionWins | promise.js:189-202 | first settler wins: the first input rejected with e rejects the race with e, and a later resolve or reject of any input leaves the race cell exactly as it is |
| OperationLemmas.AdvancesTrans | promise.js:64-122 | two successive operations together only advance the world: settle-once, with queues growing only on pending cells |
| OperationLemmas.KeptTrans | promise.js:64-122 | two successive operations that each keep the guarantee keep it together |
| OperationLemmas.EvolvesAdvances | promise.js:64-90 | a cascade of settlements only advances the world |
| OperationLemmas.EvolvesKept | promise.js:64-90 | a cascade started in a world with safe queues keeps them safe and only advances the world |
| OperationLemmas.AllocateKept | promise.js:133 | a new Deferred, and a new Promise.all state, keep queues safe and change no existing cell |
| OperationLemmas.PromiseThenKept | promise.js:225-251 | then, with any handlers, throws nothing, keeps queues safe (every handler reaches a queue inside `wrapper`) and only advances existing cells |
| OperationLemmas.CatchKept | promise.js:252-254 | catch throws nothing, keeps queues safe and only advances existing cells |
| OperationLemmas.ConstructKept | promise.js:129-143 | new Promise with a function executor throws nothing, keeps queues safe and only advances existing cells |
| OperationLemmas.StaticResolveKept | promise.js:214-221 | Promise.resolve throws nothing, keeps queues safe and changes no existing cell |
| OperationLemmas.StaticRejectKept | promise.js:203-213 | Promise.reject throws nothing, keeps queues safe and changes no existing cell |
| OperationLemmas.AllStepKept | promise.js:177-182 | one turn of Promise.all's loop throws nothing, keeps queues safe and only advances existing cells |
| OperationLemmas.AllLoopKept | promise.js:176-183 | Promise.all's whole loop throws nothing, keeps queues safe and only advances existing cells |
| OperationLemmas.AllKept | promise.js:167-188 | Promise.all throws nothing, keeps queues safe, only advances existing cells, and adds one Promise.all state whose target is the new promise and whose count is the number of inputs |
| OperationLemmas.RaceStepKept | promise.js:196 | one turn of Promise.race's loop throws nothing, keeps queues safe and only advances existing cells |
| OperationLemmas.RaceLoopKept | promise.js:195-197 | Promise.race's whole loop throws nothing, keeps queues safe and only advances existing cells |
| OperationLemmas.RaceKept | promise.js:189-202 | Promise.race throws nothing, keeps queues safe and only advances existing cells |
| AllLemmas.AllStepWires | promise.js:177-182 | one turn of Promise.all on a pending input subscribes it with `then(slot i, reject)` around a fresh child, throws nothing and changes no other input, the combined promise or the state |
| AllLemmas.AllLoopWiresStep | promise.js:176-183 | one more turn of Promise.all's loop keeps every earlier input armed |
| AllLemmas.AllLoopWires | promise.js:176-183 | after n turns of Promise.all over pending inputs, the first n are armed, the rest untouched, and nothing threw |
| AllLemmas.AllArmsInputs | promise.js:167-188 | Promise.all over distinct pending promises with no subscribers returns normally; the combined promise is pending; the new state holds `l` inputs, no results and `resolved` 0; input i is subscribed only by slot i and the combined reject |
| AllLemmas.AllArmedResolve | promise.js:177-181 | an armed input fulfilling stores its value at its index and counts it; the count reaching `l` fulfils the combined promise with `results`; no other earlier cell changes and nothing throws |
| AllLemmas.AllArmedReject | promise.js:177-182 | an armed input rejecting rejects the combined promise with its reason if still pending, and leaves it alone otherwise |
| AllLemmas.AllFulfilStep | promise.js:177-181 | one more input fulfilling: `results` gains its value and `resolved` goes up by one; before the last input every other input stays armed, and the last one fulfils the combined promise |
| AllLemmas.FulfilInOrderWaits | promise.js:176-183 | after any inputs fulfil, each once and not all of them, the combined promise is still waiting, with exactly their values stored |
| AllLemmas.FulfilInOrderStep | promise.js:177-181 | the next input to fulfil finds the combined promise waiting and throws nothing; the last one fulfils it |
| AllLemmas.FulfilWaits | promise.js:167-188 | while inputs are outstanding, the combined promise stays pending, and no input's resolve throws |
| AllLemmas.FulfilLast | promise.js:167-188 | once every input has fulfilled, in any order, the combined promise is fulfilled with the values in input order |
| AllLemmas.FilledByEvery | promise.js:171-181 | once every index is stored, `results` as an array is exactly the values in input order |
| AllLemmas.AllSettlesInAnyOrder | promise.js:167-188 | Promise.all over pending promises: whatever order they fulfil in, the combined promise stays pending until the last one and then fulfils with the values in input order; nothing throws |
| AllLemmas.AllFirstRejectionWins | promise.js:167-188 | after any inputs but not all have fulfilled, the first input to reject rejects the combined promise with its reason; a later resolve or reject of any input leaves it exactly as it is |
| ScopeLemmas.WithinWidens | promise.js:133 | a closure naming only existing promises still does after more promises are made |
| ScopeLemmas.WithinUnmentioned | promise.js:94-243 | a closure naming only the first n promises cannot settle promise n |
| ScopeLemmas.ScopedUntargeted | promise.js:133 | when every queued closure and every Promise.all state name existing promises, nothing that can still run names the promise about to be made |
| ScopeLemmas.ScopedEvolves | promise.js:64-90 | settle-once keeps every queued closure naming existing promises |
| ScopeLemmas.ScopedAllocate | promise.js:133 | a new Deferred, and a Promise.all state targeting it, keep every name pointing at an existing promise |
| ScopeLemmas.ThenScoped | promise.js:225-251 | then with handlers that name only existing promises queues closures that name the parent, the new child and what the handlers name |
| ScopeLemmas.CatchScoped | promise.js:252-254 | catch with such a handler keeps every name pointing at an existing promise |
| ScopeLemmas.ConstructScoped | promise.js:129-143 | new Promise keeps every name pointing at an existing promise |
| ScopeLemmas.ScopedAppendSettled | promise.js:203-221 | appending a promise with empty queues keeps every name pointing at an existing promise |
| ScopeLemmas.StaticResolveScoped | promise.js:214-221 | Promise.resolve keeps every name pointing at an existing promise and never removes one |
| ScopeLemmas.StaticRejectScoped | promise.js:203-213 | Promise.reject keeps every name pointing at an existing promise |
| ScopeLemmas.AllStepScoped | promise.js:177-182 | one turn of Promise.all's loop, for an existing combined promise, keeps every name pointing at an existing promise |
| ScopeLemmas.AllLoopScoped | promise.js:176-183 | Promise.all's loop keeps every name pointing at an existing promise |
| ScopeLemmas.GuardScoped | promise.js:141-143 | rejecting the new promise after an executor throws keeps every name pointing at an existing promise |
| ScopeLemmas.AllScoped | promise.js:167-188 | Promise.all keeps every name pointing at an existing promise; its state targets the promise it made |
| ScopeLemmas.RaceStepScoped | promise.js:196 | one turn of Promise.race's loop, for an existing race promise, keeps every name pointing at an existing promise |
| ScopeLemmas.RaceLoopScoped | promise.js:195-197 | Promise.race's loop keeps every name pointing at an existing promise |
| ScopeLemmas.RaceScoped | promise.js:189-202 | Promise.race keeps every name pointing at an existing promise |
| Runtime.Deferred.constructor | promise.js:55-61 | a new Deferred is pending, with null value and reason and empty queues |
| Runtime.Deferred.Resolve | promise.js:64-77 | updating the fields in place gives exactly the state and throw that `Cells.Resolve` computes |
| Runtime.Deferred.ClearQueues | promise.js:74-75 | empties this Deferred's two queues and changes nothing else |
| Runtime.Deferred.Reject | promise.js:78-90 | updating the fields in place gives exactly the state and throw that `Cells.Reject` computes |
| Runtime.Deferred.Settle | promise.js:136-140 | the executor's resolve and reject closures call Deferred.resolve and Deferred.reject |
| Runtime.Deferred.Then | promise.js:91-122 | returns the Deferred itself, with exactly the state and throw that `Cells.Then` computes |
| Runtime.AllState.constructor | promise.js:171-173 | Promise.all's shared state starts with empty `results` and `resolved` at 0 |
| Runtime.Promise.constructor | promise.js:133-134 | a promise is tied to its own Deferred |
| Runtime.Promise.Then | promise.js:225-251 | allocates a fresh child promise and Deferred, keeps `this.deferred` the same object, and matches `Promises.PromiseThen` |
| Runtime.Promise.Catch | promise.js:252-254 | allocates a fresh child promise and matches `Promises.Catch` |
| Runtime.Heap.NewPromise | promise.js:133-134 | allocates a fresh Promise and a fresh pending Deferred at the next index |
| Runtime.Heap.Construct | promise.js:125-144 | new Promise on the heap matches `Promises.Construct`; a non-function executor changes nothing |
| Runtime.Heap.RunExecutor | promise.js:135-140 | the executor's calls run in order, matching `Promises.RunCalls`, and none throws |
| Runtime.Heap.StaticResolve | promise.js:214-221 | matches `Promises.StaticResolve`, returning the same object for an instance of Promise |
| Runtime.Heap.StaticReject | promise.js:203-213 | matches `Promises.StaticReject`: writes only the stray fields of a fresh Deferred |
| Runtime.Heap.All | promise.js:167-188 | matches `Promises.All` |
| Runtime.Heap.AllExecutor | promise.js:168-187 | matches `Promises.AllExecutor`: the loop for a non-empty input, resolve with `[]` for an empty one |
| Runtime.Heap.NewAllState | promise.js:171-173 | adds one fresh Promise.all state with the given target and count, and changes nothing else |
| Runtime.Heap.RejectOnThrow | promise.js:141-143 | a throw that escaped the executor rejects the new promise, matching `Promises.Guard` |
| Runtime.Heap.WireAll | promise.js:176-183 | the forEach of Promise.all, turn by turn, matches `Promises.AllLoop` |
| Runtime.Heap.AllTurnAt | promise.js:176-183 | turn `i` of the forEach of Promise.all moves the heap one step along `Promises.AllLoop`; once it throws, the rest of the loop is skipped |
| Runtime.Heap.AllTurn | promise.js:177-182 | one turn of Promise.all matches `Promises.AllStep` |
| Runtime.Heap.Race | promise.js:189-202 | matches `Promises.Race` |
| Runtime.Heap.RaceExecutor | promise.js:190-201 | matches `Promises.RaceExecutor`: the loop for a non-empty input, a race against `Promise.resolve(null)` for an empty one |
| Runtime.Heap.WireRace | promise.js:195-197 | the forEach of Promise.race, turn by turn, matches `Promises.RaceLoop` |
| Runtime.Heap.RaceTurnAt | promise.js:195-197 | turn `i` of the forEach of Promise.race moves the heap one step along `Promises.RaceLoop`; once it throws, the rest of the loop is skipped |
| Runtime.Heap.RaceTurn | promise.js:196 | one turn of Promise.race matches `Promises.RaceStep` |
| Runtime.Heap.FireAll | promise.js:71-73 | calls each queued callback in registration order, stops at the first throw, and matches `Cells.FireAll` |
| Runtime.Heap.Call | promise.js:94-104 | calling any closure on the heap matches `Cells.Call` |
| Runtime.Heap.FillSlot | promise.js:177-181 | Promise.all's fulfilment handler stores the value at its index, bumps `resolved`, resolves the combined promise when `resolved` reaches `l`, and matches `Cells.Call` |
| Runtime.Heap.ResolveCell | promise.js:136-138 | the resolve closure of a cell matches `Cells.Resolve` |
| Runtime.Heap.RejectCell | promise.js:138-140 | the reject closure of a cell matches `Cells.Reject` |

## Left out

- The UMD wrapper (promise.js:1-11) and the helpers `extend`, `toArray` and `type` (promise.js:13-51) are not modelled. `toArray` is taken as given: `all` and `race` receive a sequence. Where the source asks `type(x) === 'function'`, a handler is `Some` when it is a function and `None` otherwise.
- `Promise.asap` (promise.js:153-159) is not modelled. Every call site hands it the result of a call that has already run synchronously, so the model drops that value. What the host does with a non-function argument is outside the model.
- The check that `Promise` was called with `new` (promise.js:126-128) is not modelled, because a call without `new` has no counterpart in the model.
- The event loop, timers and concurrency are not modelled. Every callback in this library runs synchronously.
- Cells.Call: when `onFulfilled` returns a thenable, `fulfill` calls `ret.then(...)` on it (promise.js:96-99). The model does not make that call. The callback it would register only calls `self.resolve` on a cell that is already fulfilled, which is a no-op. The model does not capture the effects of the `then` call itself: the extra promise it creates, or a foreign object's own `then` code. Thenables are not flattened, as in the source.
- User handlers are pure functions from a value to a return or a throw. A handler that itself calls library operations is not modelled.
- An executor is a script of `resolve` and `reject` calls followed by a return or a throw.
- Promise identities are indexes into the heap. `PromiseObj` values and handler targets name existing promises, and operations on an index out of range are no-ops.
- `Runtime.Heap.All` and `Runtime.Heap.Race` require every `PromiseObj` input to name an existing promise, because an index stands for an object reference.
- RaceLemmas.RaceFirstFulfilmentWins and RaceLemmas.RaceFirstRejectionWins: the inputs are pending promises with no subscribers of their own. An earlier subscriber of one input could settle another input first, so the input that is settled first would no longer decide the race by itself. Race over plain values is covered by `PromiseLemmas.RaceOfValues`.
- PromiseLemmas.PendingThenLaterResolved and PromiseLemmas.PendingThenLaterRejected: they need the parent's queues to hold only the library's own closures (`SafeWorld`), and no closure able to fire to name the cell about to be made (`Untargeted`). The first is kept by every public operation (`OperationLemmas`). The second follows from `Scoped` (`ScopeLemmas.ScopedUntargeted`), which every public operation keeps when its handlers name only existing promises (`ScopeLemmas`). A user function names none. Handlers are user functions or absent.
- AllLemmas.AllSettlesInAnyOrder and AllLemmas.AllFirstRejectionWins: the inputs are distinct pending promises with no subscribers of their own. A promise listed twice gets two slots, and resolving it fills both at once; an earlier subscriber of one input could settle another input first. Inputs that are plain values are covered by `PromiseLemmas.AllOfValues`.
- `results` is handed to `resolve` as a snapshot (`Cells.Dense`) rather than as a shared array. Nothing in the library writes to it afterwards, since every slot has already run.
- Cells.Resolve, Cells.Reject, Cells.FireAll and Cells.Call: settle-once is stated by the `*Evolves` lemmas beside them, not in their own contracts.

## Findings

| source | as written | input that shows it | evidently intended | confidence | as-written member | corrected member |
|---|---|---|---|---|---|---|
| promise.js:209-210 | `Promise.reject` writes `_result` and `_status = 'rejected'`, which the rest of the library never reads; the Deferred's `status` stays PENDING | `Promise.reject(e).catch(h)`: h is queued and never called, and the promise never settles | a promise already rejected with `e`, so that `catch(h)` runs h on `e` | high (not executed) | PromiseLemmas.StaticRejectNeverCatches | PromiseLemmas.StaticRejectIntendedCatches |

The runtime's `Heap.StaticReject` keeps the behaviour as written. `Promises.StaticRejectIntended` is the corrected operation. No other operation in the library calls either one.
