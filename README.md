# SelfPromise: a single-slot promise state machine

`promise.ts` defines `SelfPromise`, a hand-written, fully synchronous promise.
It has three states (`PENDING`, `FULFILLED`, `REJECTED`) and five mutable
fields: `status`, `value`, `reason` and one slot each for the fulfilled and the
rejected callback. It has three operations:

- `resolve(v)` and `reject(r)` settle a pending promise once. Settling stores
  the value or the reason, then calls the stored callback for that side, if
  there is one. On a settled promise both are no-ops.
- `then(f, g)` calls `f(value)` or `g(reason)` at once when the promise is
  already settled. On a pending promise it overwrites both callback slots.
  It returns nothing.

The project has two modules.

- `PromiseModel` (`promise_model.dfy`) is the state machine on values.
  `PState` holds the five fields. `Apply` is one call of `resolve`, `reject`
  or `then`. `Run` is a sequence of calls. The lemmas cover first-write-wins,
  monotone status, which callbacks fire, and with what argument.
- `Promise` (`self_promise.dfy`) is `class SelfPromise` with the same five
  fields. Its methods `Resolve`, `Reject` and `Then` update those fields in
  place. Each method is proved against `Apply`. Every callback invocation is
  appended to a ghost `log`.

User callbacks are opaque. A callback is a `CallbackId`, and `None` stands for
`null` / `undefined`. A callback call shows up only as an `Invocation` in the
log, with the argument it was given. The executor passed to the constructor is
given as the script of `resolve` / `reject` calls it makes synchronously, in
order, before the constructor returns. Calls the executor makes later through
the captured `resolve` / `reject` (from a timer, say) are later calls of the
`Resolve` / `Reject` methods.

`Promise.Client` is a usage example of the class contracts: what a caller can
prove about a short sequence of calls. It models no line of the source.

This code is not a Promise/A+ implementation. It keeps one callback per side
rather than a list. It runs callbacks synchronously rather than on a
microtask. Its `then` returns no derived promise. It does not unwrap
thenables, and it does not catch exceptions thrown by the executor. The model
follows the code.

## Model

| member | source | states |
|---|---|---|
| PromiseModel.Apply | promise.ts:25-53 | One call keeps the state well-formed (`value` set exactly when fulfilled, `reason` exactly when rejected). A call on a settled promise changes no field. `then` never changes `status`, `value` or `reason`. `resolve` and `reject` never touch the callback slots. A throwing `then` has no effect. A call invokes at most one callback, and that callback gets the data the promise has settled with, on the matching side. |
| PromiseModel.Run | promise.ts:25-42 | Any sequence of calls keeps the state well-formed. Once a promise has settled, its status, value and reason never change. |
| PromiseModel.SettledIgnoresSettlements | promise.ts:25-42 | On a settled promise, any sequence of `resolve` / `reject` calls changes no field and invokes no callback. |
| PromiseModel.FirstWriteWins | promise.ts:25-42 | From a pending promise, a non-empty sequence of `resolve` / `reject` calls leaves the state and the invocations of its first call. `resolve(v)` first gives FULFILLED with value `v`. `reject(r)` first gives REJECTED with reason `r`. The other fields are unchanged. |
| PromiseModel.StatusMonotone | promise.ts:25-53 | Along any sequence of calls, a promise that ends pending was pending at every earlier point. Once settled at some point, it keeps that status, value and reason to the end, so FULFILLED and REJECTED never replace each other. |
| PromiseModel.CallbacksSeeSettledData | promise.ts:25-53 | Every callback invoked during any sequence of calls gets the promise's final value (a fulfilled callback) or final reason (a rejected callback). So no run invokes callbacks of both sides. |
| PromiseModel.PendingThenKeepsLast | promise.ts:48-51 | On a pending promise, a sequence of `then` calls invokes nothing and changes neither status, value nor reason. It leaves exactly the last pair of handlers in the slots. |
| PromiseModel.LastRegistrationFires | promise.ts:25-53 | After several `then` calls on a pending promise, the settling call invokes only the last registered handler of the matching side, once, with `v` or `r`. If that last registration left the slot empty, nothing is invoked. |
| Promise.SelfPromise.constructor | promise.ts:9-23 | A fresh promise is PENDING, with `value` and `reason` null and both slots empty. Running the executor's script leaves the state and log of its first call only. |
| Promise.SelfPromise.Resolve | promise.ts:25-33 | On a pending promise: sets FULFILLED and `value = v`, keeps `reason` null, and appends one invocation of the stored fulfilled callback with `v`, or none if the slot is empty. On a settled promise: changes nothing and invokes nothing. |
| Promise.SelfPromise.Reject | promise.ts:34-42 | On a pending promise: sets REJECTED and `reason = r`, keeps `value` null, and appends one invocation of the stored rejected callback with `r`, or none if the slot is empty. On a settled promise: changes nothing and invokes nothing. |
| Promise.SelfPromise.Then | promise.ts:43-53 | Never changes status, value or reason. FULFILLED: calls `f(value)` and keeps the slots. REJECTED: calls `g(reason)` and keeps the slots. If that handler is missing, it reports the TypeError instead. PENDING: invokes nothing and overwrites both slots with `f` and `g`. |

## Left out

- Callback and executor bodies: they are arbitrary user code, so they appear only as opaque identifiers and as entries in the log. A callback that re-enters `resolve`, `reject` or `then` while it runs is not modelled.
- Exceptions thrown by the executor or by a callback: the source has no `try`/`catch`, so they simply propagate out of the call.
- Of the TypeErrors the class itself raises, only one is modelled: `then` on a settled promise whose matching handler is `null` / `undefined`. `Promise.SelfPromise.Then` reports it as `threw`, with no effect on the state.
- The other TypeErrors cannot be expressed with `Option<CallbackId>` and a command script, so they are left out. These are a non-callable executor (promise.ts:22), a non-function, non-nullish handler passed to `then` on a settled promise (promise.ts:45, promise.ts:47), and a truthy non-function stored in a slot and called at settlement (promise.ts:31, promise.ts:40). Slots and handlers hold either a callback or `None`.
- TypeScript typing details, such as `onRejectedCallback` being typed over `T` (promise.ts:13): values and reasons have independent type parameters `V` and `R`.
- Derived promises from `then`, thenable unwrapping, microtask scheduling, callback lists, `catch`/`finally` and the combinators `all`/`race`/`allSettled`/`any`: `promise.ts` has none of them.
- `Call、bind、apply.ts` is not part of this model.
