# SwiftPromise in Dafny

This project models the promise classes of the SwiftPromise library. The
repository holds four drafts of one stateful object: a single-result promise.
Each draft stores an executor, a success closure (`then`) and a failure closure
(`catch`), plus an optional one-shot waiter used by `await`. The executor
receives the promise's `resolve`/`reject` closures. When they are called, the
promise either wakes the waiter or calls the stored closures.

Each draft is its own module over the shared `Callbacks` module:

| module | class | source | what is specific to it |
|---|---|---|---|
| `Promise2Draft` | `Promise2` | `Sources/SwiftPromise/Promise2.swift` | the success closure maps the result to a new result; an `isResultInitialized` flag lets only the first `resolve` write its argument |
| `PromiseDraft` | `Promise` | `Sources/SwiftPromise/Promise.swift` | same design, but `resolve` writes its argument whenever the result is nil |
| `NestedPromiseDraft` | `NestedPromise` | `Sources/SwiftPromise/SwiftPromise.swift` | the success closure may return a nested promise, whose executor runs with this promise's own `resolve`/`reject` |
| `SyncPromiseDraft` | `SyncPromise` | `Sources/SwiftPromise/Sync/SyncPromise.swift` | `then` returns a fresh next promise; `resolve` writes the closure's output into that promise's `externalInput` |

How the model is built:

- **Executor.** An executor is the sequence of `resolve`/`reject` calls it makes
  synchronously when started (`Executor = seq<Event>`). Calls it makes later,
  from another queue, are separate calls of the class's `Resolve`/`Reject` methods.
- **Closures.**
  - A success closure is a total Dafny function value.
  - A catch closure is seen only through its invocations. It is a `HandlerId`, and
    each invocation is appended to the ghost log `catchCalls`.
  - The arguments the success closure receives are logged in the ghost field `thenCalls`.
- **Waiter.** The semaphore is the flag `waiterInstalled`.
  - `await` runs the executor first, as the source does. It then installs the
    waiter, and `wake` is the one later callback that signals the waiter.
  - `await`'s blocking itself is not modelled.
- **State.** In the first three drafts, every method is proved against a pure
  function of the `State` datatype: `Snapshot() == AfterResolve(old(Snapshot()), v)`.
  The lemmas are proved about those functions.
- **SyncPromise.** This draft links objects together, so its methods state the
  new fields, and the next promise's fields, directly.

None of the drafts has:
- idempotent-once settlement (a later `resolve` still acts),
- a queue of continuations owned by a chain root,
- mutual exclusion,
- first-failure-wins aggregation.

`Promise2` and `Promise` overwrite the result with the closure's output.
`NestedPromise` overwrites it with every `resolve` argument.

## Model

| member | source | states |
|---|---|---|
| `Callbacks.OrElse` | Sources/SwiftPromise/Sync/SyncPromise.swift:124 | Swift's `a ?? b`: `a` when it is non-nil, `b` otherwise |
| `Callbacks.Blank` | Sources/SwiftPromise/Promise2.swift:143-147 | erases every resolve argument to nil and keeps every reject and the order of callbacks (used to state that arguments are ignored) |
| `Promise2Draft.Promise2.constructor` | Sources/SwiftPromise/Promise2.swift:76-78 | init stores only the executor: no result, flag unset, no closures, no waiter, and the executor is not run (no closure calls) |
| `Promise2Draft.AfterSignal` | Sources/SwiftPromise/Promise2.swift:175-180 | `signalIfNeeded` returns true exactly when a waiter was installed, and leaves none installed; nothing else changes |
| `Promise2Draft.SignalIsOneShot` | Sources/SwiftPromise/Promise2.swift:175-180 | an immediate second `signalIfNeeded` returns false |
| `Promise2Draft.AfterResolve` | Sources/SwiftPromise/Promise2.swift:142-156 | resolve sets `isResultInitialized`; the stored value is the argument only on the first call; with a waiter it only signals (no closure call, result = recorded value); without one the result becomes `thenClosure(recorded)`, or nil when no closure is stored, and the closure call is logged |
| `Promise2Draft.AfterReject` | Sources/SwiftPromise/Promise2.swift:159-164 | reject never touches the result; with a waiter it only signals; without one it calls the catch closure, if stored, exactly once with the error |
| `Promise2Draft.AfterRun` | Sources/SwiftPromise/Promise2.swift:86 | a run of callbacks never replaces a closure nor clears `isResultInitialized`, only appends to the invocation logs, and a non-empty run leaves no waiter installed |
| `Promise2Draft.AfterThen` | Sources/SwiftPromise/Promise2.swift:82-88 | then stores the closure, keeps the catch closure, and starts the executor |
| `Promise2Draft.AfterAwait` | Sources/SwiftPromise/Promise2.swift:100-106 | await returns the result after the waking callback; a waking resolve returns the value recorded (its argument only if no result was recorded yet), a waking reject the result the executor left; the waking callback calls no closure |
| `Promise2Draft.LaterResolveArgumentsIgnored` | Sources/SwiftPromise/Promise2.swift:143-147 | once a result is recorded, every run of callbacks ends in the same state whatever the resolve arguments: no later resolve writes its own argument |
| `Promise2Draft.ResolvesIterateClosure` | Sources/SwiftPromise/Promise2.swift:149-153 | with no waiter, `n` resolves apply the closure `n` times to the already transformed result |
| `Promise2Draft.AwaitOnFreshPromise` | Sources/SwiftPromise/Promise2.swift:100-106 | await on a new promise returns `v` when woken by `resolve(v)` and nil when woken by a reject |
| `Promise2Draft.RejectAfterThenAndCatch` | Sources/SwiftPromise/Promise2.swift:159-164 | after `then(f).catch(h)`, a later reject calls `h` once with the error and never `f` |
| `Promise2Draft.Promise2.Then` | Sources/SwiftPromise/Promise2.swift:82-88 | returns the same instance; new state is `AfterThen` of the old |
| `Promise2Draft.Promise2.Catch` | Sources/SwiftPromise/Promise2.swift:92-95 | returns the same instance; only the catch closure changes |
| `Promise2Draft.Promise2.Await` | Sources/SwiftPromise/Promise2.swift:100-106 | result and new state are `AfterAwait` of the old state |
| `Promise2Draft.Promise2.Resolve` | Sources/SwiftPromise/Promise2.swift:142-156 | new state is `AfterResolve` of the old |
| `Promise2Draft.Promise2.Reject` | Sources/SwiftPromise/Promise2.swift:159-164 | new state is `AfterReject` of the old |
| `Promise2Draft.Promise2.SignalIfNeeded` | Sources/SwiftPromise/Promise2.swift:175-180 | return value and new state are `AfterSignal` of the old state |
| `Promise2Draft.Promise2.Deliver` | Sources/SwiftPromise/Promise2.swift:142-164 | one callback: new state is `AfterStep` of the old |
| `Promise2Draft.Promise2.Execute` | Sources/SwiftPromise/Promise2.swift:86 | running an executor's callbacks in order yields `AfterRun` of the old state |
| `PromiseDraft.Promise.constructor` | Sources/SwiftPromise/Promise.swift:74-76 | init stores only the executor; nothing runs and no state is set |
| `PromiseDraft.AfterSignal` | Sources/SwiftPromise/Promise.swift:171-176 | `signalIfNeeded` returns true iff a waiter was installed and clears it; nothing else changes |
| `PromiseDraft.SignalIsOneShot` | Sources/SwiftPromise/Promise.swift:171-176 | an immediate second `signalIfNeeded` returns false |
| `PromiseDraft.AfterResolve` | Sources/SwiftPromise/Promise.swift:140-152 | the argument is written only into a nil result; with a waiter resolve only signals and no closure runs; without one the result becomes `then?(result)` and the call is logged |
| `PromiseDraft.AfterReject` | Sources/SwiftPromise/Promise.swift:155-160 | reject never touches the result; with a waiter it only signals; without one it calls `catch`, if stored, exactly once with the error |
| `PromiseDraft.AfterRun` | Sources/SwiftPromise/Promise.swift:84 | a run of callbacks never replaces a closure, only appends to the invocation logs, and a non-empty run leaves no waiter installed |
| `PromiseDraft.AfterThen` | Sources/SwiftPromise/Promise.swift:80-86 | then stores the closure, keeps the catch closure, and starts the executor |
| `PromiseDraft.AfterAwait` | Sources/SwiftPromise/Promise.swift:98-104 | await returns the result after the waking callback: a waking resolve writes its argument only into a nil result, a waking reject leaves the result; the waking callback calls no closure |
| `PromiseDraft.NonNilResultIgnoresArgument` | Sources/SwiftPromise/Promise.swift:141-143 | a non-nil result is never overwritten by a resolve argument |
| `PromiseDraft.NilFromClosureIsOverwritten` | Sources/SwiftPromise/Promise.swift:141-149 | a nil produced by the closure is overwritten: the next resolve hands its own argument to the closure |
| `PromiseDraft.ResolveArgumentsIgnoredWhileNonNil` | Sources/SwiftPromise/Promise.swift:141-149 | with a closure that never yields nil and a non-nil result, every run of callbacks ends in the same state whatever the resolve arguments |
| `PromiseDraft.ResolvesIterateClosure` | Sources/SwiftPromise/Promise.swift:145-149 | with no waiter, `n` resolves apply a never-nil closure `n` times to the already transformed result |
| `PromiseDraft.ThenReceivesResolvedValue` | Tests/SwiftPromiseTests/SwiftPromiseTests.swift:10-26 | a closure attached before the executor's later `resolve(v)` is called exactly once, with `v`, and no catch runs |
| `PromiseDraft.RejectCallsCatchOnly` | Tests/SwiftPromiseTests/SwiftPromiseTests.swift:28-49 | after `then(f).catch(h)`, a later `reject(e)` calls `h` exactly once with `e` and never `f` |
| `PromiseDraft.AwaitOnFreshPromise` | Tests/SwiftPromiseTests/SwiftPromiseTests.swift:51-81 | await returns the value of the first resolve, and nil after a reject |
| `PromiseDraft.Promise.Then` | Sources/SwiftPromise/Promise.swift:80-86 | returns `self`; new state is `AfterThen` of the old |
| `PromiseDraft.Promise.Catch` | Sources/SwiftPromise/Promise.swift:90-93 | returns `self`; only the catch closure changes |
| `PromiseDraft.Promise.Await` | Sources/SwiftPromise/Promise.swift:98-104 | result and new state are `AfterAwait` of the old state |
| `PromiseDraft.Promise.Resolve` | Sources/SwiftPromise/Promise.swift:140-152 | new state is `AfterResolve` of the old |
| `PromiseDraft.Promise.Reject` | Sources/SwiftPromise/Promise.swift:155-160 | new state is `AfterReject` of the old |
| `PromiseDraft.Promise.SignalIfNeeded` | Sources/SwiftPromise/Promise.swift:171-176 | return value and new state are `AfterSignal` of the old state |
| `PromiseDraft.Promise.Deliver` | Sources/SwiftPromise/Promise.swift:140-160 | one callback: new state is `AfterStep` of the old |
| `PromiseDraft.Promise.Execute` | Sources/SwiftPromise/Promise.swift:84 | running an executor's callbacks in order yields `AfterRun` of the old state |
| `NestedPromiseDraft.NestedPromise.constructor` | Sources/SwiftPromise/SwiftPromise.swift:56-58 | init stores only the executor |
| `NestedPromiseDraft.AfterSignal` | Sources/SwiftPromise/SwiftPromise.swift:122-127 | `signalIfNeeded` returns true iff a waiter was installed and clears it |
| `NestedPromiseDraft.SignalIsOneShot` | Sources/SwiftPromise/SwiftPromise.swift:122-127 | an immediate second `signalIfNeeded` returns false |
| `NestedPromiseDraft.AfterResolve` | Sources/SwiftPromise/SwiftPromise.swift:93-103 | resolve always overwrites the result with its argument; with a waiter it only signals and calls no closure; without one `then` is first called with exactly the resolved value, and a closure returning nil ends there; closures never change and no waiter remains |
| `NestedPromiseDraft.AfterReject` | Sources/SwiftPromise/SwiftPromise.swift:106-111 | reject never touches the result; with a waiter it only signals; without one it calls `catch`, if stored, exactly once |
| `NestedPromiseDraft.AfterRun` | Sources/SwiftPromise/SwiftPromise.swift:99-101 | a completed run of a (nested) executor's callbacks never replaces a closure and only appends to the invocation logs |
| `NestedPromiseDraft.AfterThen` | Sources/SwiftPromise/SwiftPromise.swift:62-68 | then stores the closure and starts the executor; with an executor that calls back later nothing else happens |
| `NestedPromiseDraft.AfterAwait` | Sources/SwiftPromise/SwiftPromise.swift:80-86 | await completes iff the executor's run does; a waking resolve returns its argument, a waking reject the result the executor left; the waking callback calls no closure |
| `NestedPromiseDraft.ResolveFuelMonotone` | Sources/SwiftPromise/SwiftPromise.swift:99-101 | a resolve that completes within a nesting bound gives the same state under any larger bound |
| `NestedPromiseDraft.RunFuelMonotone` | Sources/SwiftPromise/SwiftPromise.swift:99-101 | the same for a run of callbacks |
| `NestedPromiseDraft.EchoingClosureNeverCompletes` | Sources/SwiftPromise/SwiftPromise.swift:99-101 | the re-entrant cascade need not end: a closure whose nested promise resolves with the value it received makes resolve re-enter forever, under any bound |
| `NestedPromiseDraft.NestedValueRefiresClosure` | Sources/SwiftPromise/SwiftPromise.swift:99-101 | the same `then` closure is re-invoked on the nested promise's value: it is called with `v` then with `w`, and `w` is the final result |
| `NestedPromiseDraft.LaterResolveOverwrites` | Sources/SwiftPromise/SwiftPromise.swift:94 | there is no settle-once guard: a second resolve overwrites the result |
| `NestedPromiseDraft.ThenReceivesResolvedValue` | Tests/SwiftPromiseTests/SwiftPromiseTests.swift:10-26 | then with a later-resolving executor stores the closure and does nothing else; the later `resolve(v)` calls it exactly once, with `v` |
| `NestedPromiseDraft.NestedPromise.Then` | Sources/SwiftPromise/SwiftPromise.swift:62-68 | returns `self`; when it completes, the new state is `AfterThen` of the old |
| `NestedPromiseDraft.NestedPromise.Catch` | Sources/SwiftPromise/SwiftPromise.swift:72-75 | returns `self`; only the catch closure changes |
| `NestedPromiseDraft.NestedPromise.Await` | Sources/SwiftPromise/SwiftPromise.swift:80-86 | when it completes, result and new state are `AfterAwait` of the old state |
| `NestedPromiseDraft.NestedPromise.Resolve` | Sources/SwiftPromise/SwiftPromise.swift:93-103 | completes exactly when `AfterResolve` does, and then the new state is `AfterResolve` of the old |
| `NestedPromiseDraft.NestedPromise.Reject` | Sources/SwiftPromise/SwiftPromise.swift:106-111 | new state is `AfterReject` of the old |
| `NestedPromiseDraft.NestedPromise.SignalIfNeeded` | Sources/SwiftPromise/SwiftPromise.swift:122-127 | return value and new state are `AfterSignal` of the old state |
| `NestedPromiseDraft.NestedPromise.Deliver` | Sources/SwiftPromise/SwiftPromise.swift:93-111 | one callback: completes exactly when `AfterStep` does, with its state |
| `NestedPromiseDraft.NestedPromise.Execute` | Sources/SwiftPromise/SwiftPromise.swift:99-101 | running a (nested) executor's callbacks on this promise completes exactly when `AfterRun` does, with its state |
| `SyncPromiseDraft.Forward` | Sources/SwiftPromise/Sync/SyncPromise.swift:124-127 | resolve hands the next promise the closure applied to `externalInput ?? input`, or nil when no closure is stored |
| `SyncPromiseDraft.Forwarded` | Sources/SwiftPromise/Sync/SyncPromise.swift:122-134 | after a run of callbacks the next promise holds what the last resolve forwarded; rejects leave it alone |
| `SyncPromiseDraft.ClosureArguments` | Sources/SwiftPromise/Sync/SyncPromise.swift:124 | no closure, no calls; with an external input every call receives that input |
| `SyncPromiseDraft.CatchInvocations` | Sources/SwiftPromise/Sync/SyncPromise.swift:137-140 | no catch closure, no invocations; at most one invocation per callback |
| `SyncPromiseDraft.PipeSnoc` | Sources/SwiftPromise/Sync/SyncPromise.swift:57-59 | appending a link to a chain feeds it the chain's output |
| `SyncPromiseDraft.PipeStopsAtNil` | Sources/SwiftPromise/Sync/SyncPromise.swift:55-63 | once a closure returns nil, nothing further is forwarded along the chain |
| `SyncPromiseDraft.PipeIsComposition` | Tests/SwiftPromiseTests/Sync/SyncPromiseTests.swift:31-51 | while no closure returns nil, an n-link chain computes the composition of its closures |
| `SyncPromiseDraft.ExternalInputBypassesExecutor` | Sources/SwiftPromise/Sync/SyncPromise.swift:57-59 | then on a promise with an external input resolves with it and ignores the executor: the closure is called once with the input, the next promise gets its output, no catch runs |
| `SyncPromiseDraft.FirstClosureReceivesExecutorValue` | Tests/SwiftPromiseTests/Sync/SyncPromiseTests.swift:14-26 | the first closure receives exactly the value the executor resolved with, and the next promise gets its output |
| `SyncPromiseDraft.SyncPromise.constructor` | Sources/SwiftPromise/Sync/SyncPromise.swift:42-44 | init stores only the executor; `externalInput` and `nextPromise` start absent, no closures |
| `SyncPromiseDraft.SyncPromise.Then` | Sources/SwiftPromise/Sync/SyncPromise.swift:50-66 | stores the closure and returns a fresh next promise, never `self`, with a no-op executor and nothing stored; resolves at once with the external input when there is one and runs the executor otherwise; states the next promise's input and the closure calls |
| `SyncPromiseDraft.SyncPromise.Catch` | Sources/SwiftPromise/Sync/SyncPromise.swift:71-74 | stores the catch closure and returns `self`; nothing else changes |
| `SyncPromiseDraft.SyncPromise.Resolve` | Sources/SwiftPromise/Sync/SyncPromise.swift:122-134 | writes `Forward(thenClosure, externalInput, input)` into the next promise's `externalInput` and logs the closure call; nothing else changes |
| `SyncPromiseDraft.SyncPromise.Reject` | Sources/SwiftPromise/Sync/SyncPromise.swift:137-140 | invokes the stored catch closure, if set, once with the error; nothing else changes |
| `SyncPromiseDraft.SyncPromise.Execute` | Sources/SwiftPromise/Sync/SyncPromise.swift:62 | running the executor's callbacks: the next promise ends with `Forwarded`, and the closure and catch invocations are logged in order |
| `SyncPromiseDraft.ThenChain` | Sources/SwiftPromise/Sync/SyncPromise.swift:50-67 | `p.then(f1)...then(fn)` on a promise without input: the last promise's input is `Pipe` of the later closures applied to what `f1` forwarded |
| `SyncPromiseDraft.ChainTwo` | Tests/SwiftPromiseTests/Sync/SyncPromiseTests.swift:31-51 | with an executor resolving `v` at once, `f1` receives `v`, `f2` receives `f1(v)` and never `v`, and `f2` is not called when `f1(v)` is nil |
| `SyncPromiseDraft.CatchAfterThen` | Sources/SwiftPromise/Sync/SyncPromise.swift:50-74 | `p.then(f).catch(h)` stores `h` on the next promise, so a later reject from `p`'s executor reaches no handler |

## Left out

- `all()` (Sources/SwiftPromise/Promise2.swift:109-135, Sources/SwiftPromise/Promise.swift:107-133). Its outcome depends on `DispatchGroup` and on `notify` scheduling on the main queue. Only its success-string constant is kept, as `AllPromise2sSuccessString` / `AllPromisesSuccessString`.
- Blocking in `waitForSignal` (`DispatchSemaphore.wait`/`signal`). This is thread concurrency. Only the installed/cleared waiter flag is modelled, so `Await` is modelled as returning after the one callback that wakes it.
  - An executor that only calls back synchronously would deadlock `await` in the source. This case is not modelled.
- Asynchrony of executors (`DispatchQueue.global().asyncAfter` in the tests). The callbacks such an executor makes later are explicit calls of `Resolve`/`Reject` by the caller.
- The `error` fields of all four classes. They are never written.
- In SyncPromise.swift, the commented-out `await`/`all` and the unused `waitForSignal`/`signalIfNeeded`.
- Swift's type erasure in `SyncPromise` (`Then<Input, Any>`, `SyncPromise<Any>`). Every link of a chain carries values of one type `V`.
- Swift closures are modelled as total functions without side effects. A success closure's own effects (the tests' assertions and expectations) are seen only through the `thenCalls` log, and a catch closure's only through the `catchCalls` log.
- NestedPromiseDraft.NestedPromise.Resolve: nothing in the source bounds the re-entrant `resolve` → `then` → nested executor → `resolve` cascade. Every operation that may start a nested executor therefore takes a `fuel` bound on the nesting depth. When the fuel runs out, it reports `completed == false` and says nothing about the state reached. `ResolveFuelMonotone` shows the bound never changes a completed outcome, and `EchoingClosureNeverCompletes` shows some cascades never end.
- NestedPromiseDraft.NestedPromise.Then, NestedPromiseDraft.NestedPromise.Await, NestedPromiseDraft.NestedPromise.Execute, NestedPromiseDraft.NestedPromise.Deliver: the same fuel bound applies to these.
- Nested promises returned by a success closure are represented only by their executor. `resolve` uses nothing else of them.
