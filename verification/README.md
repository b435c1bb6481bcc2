# Promise, event registry and injector, in Dafny

This project models three small stateful components of a JavaScript/TypeScript repository and
proves what each of them does.

- **`iPromise`** (space/11/promise.js) is a hand-rolled deferred value. It has three states
  (`pending`, `resolved`, `rejected`), a FIFO queue of reactions, `then`, `transition`,
  `resolve`, `reject` and `execute`.
  - Module `Promise` gives the semantics as functions over a *world*. The world holds every
    promise's closure variables, indexed by promise id, and a log of user-handler calls.
  - Module `PromiseRuntime` is the imperative form. Class `Runtime` updates the same state in
    place, and each of its methods is proved to produce exactly the world the matching function
    describes.
  - Module `PromiseProperties` defines a reference table, `Expected`, for what one reaction
    does. It also defines `Drain`, which applies that table to a whole queue in registration
    order. It then proves the listed behaviours against them.
- **`Listener`** (space/11/listener.js) is an event registry with `on`, `remove` and `emit`.
  - The registry is a map from event name to a sequence of stored entries. A named function
    is stored wrapped as `{[fn.name]: fn}`. An anonymous one is stored bare.
  - `remove` splices the array while `map` walks it. It is specified by the front-to-back
    scan `Sweep`.
- **The injector** (posts/14/src/injection.ts) has two modules.
  - Module `Injection` covers `KeyRegistry`, whose ids are proved dense: 0, 1, 2, … with no
    gaps and no repeats. It also covers the `ReflectiveKey` constructor check and
    `ReflectiveInjector.resolve`.
  - Module `Injector` covers `ReflectiveInjector_`. This is the parallel `keyIds`/`objs`
    arrays, lazy construction in `_getByKey`/`_new`, and `createInjector`.
  - Each slot is proved to be written at most once. A filled slot never changes.

## Where the code departs from textbook promise semantics

The model follows the code of space/11/promise.js. The code differs from the usual Promise
contract in these ways:

- **Settling is not one-shot.** A second `resolve`/`reject` overwrites the state and the
  stored value. Because `callbacks` is never cleared, it runs the whole queue again.
  See `SettleAgainRerunsQueue` (and `SecondSettleRerunsQueue`).
- **An absent handler does not pass the value through.** The downstream gets `undefined`, and
  it is settled the same way as the source (resolved or rejected). See
  `NoHandlersYieldUndefined`.
- **A handled rejection stays a rejection.** On a rejected promise, `onRejected`'s return value
  rejects the downstream. See `RecoveryStillRejects`.
- **A throw in `onFulfilled` goes to the same reaction's `onRejected`.** The downstream is then
  resolved, not rejected, with that handler's result, or `undefined`. See
  `FulfilledThrowStillResolves`.
- **A throw while resolving the downstream is caught.** The forwarding reaction of a chained
  promise is `onFulfilled = downstream.resolve`, inside the `try` of line 25. If that call
  throws, the throw goes to `downstream.reject`. See `ForwarderCopiesInner`.
- **A throw from `onRejected` is not caught.** It escapes `transition`, the executor of the new
  promise, and so escapes `then` (`Threw` in the model).

## Model

| member | source | states |
|---|---|---|
| Promise.Store | space/11/promise.js:42-52 | `resolve`/`reject` overwrite `state` and `value` (or `error`) and keep the queue |
| Promise.Transition | space/11/promise.js:18-40 | the world only grows: no promise disappears, the log only gains calls, a queue only gains reactions at its end, and a settled promise stays settled with its queue unchanged. It stays well formed, and a normal end returns `undefined` |
| Promise.Forward | space/11/promise.js:35-39 | chaining or settling the downstream keeps the world well formed and growing; a normal end returns `undefined` |
| Promise.Then | space/11/promise.js:7-16 | `then` always creates a new promise (the next id), and on a normal end returns exactly that promise |
| Promise.Settle | space/11/promise.js:42-52 | settling keeps the world well formed and growing, and a normal end returns `undefined` |
| Promise.ExecuteFrom | space/11/promise.js:54-56 | running the queue keeps the world well formed and growing; a normal end returns `undefined` |
| Promise.Invoke | space/11/promise.js:25-33 | calling a handler keeps the world growing, and any promise it answers with exists |
| PromiseRuntime.Runtime.Create | space/11/promise.js:1-58 | a new promise whose executor returns without settling it is pending, with `null` value and error and an empty queue, at the next id |
| PromiseRuntime.Runtime.Then | space/11/promise.js:7-16 | the in-place `then` leaves exactly the world and completion of `Promise.Then` |
| PromiseRuntime.Runtime.Transition | space/11/promise.js:18-40 | the in-place `transition` leaves exactly the world and completion of `Promise.Transition` |
| PromiseRuntime.Runtime.TransitionResolved | space/11/promise.js:24-30 | on a resolved promise, `onFulfilled` and then (after a throw) `onRejected` in place, followed by the tail, equal `Promise.Transition` |
| PromiseRuntime.Runtime.TransitionRejected | space/11/promise.js:31-33 | on a rejected promise, `onRejected` in place followed by the tail equals `Promise.Transition` |
| PromiseRuntime.Runtime.Forward | space/11/promise.js:35-39 | the in-place tail of `transition` equals `Promise.Forward` |
| PromiseRuntime.Runtime.Resolve | space/11/promise.js:42-46 | the `resolve` closure equals `Promise.Settle` with `Resolved` |
| PromiseRuntime.Runtime.Reject | space/11/promise.js:48-52 | the `reject` closure equals `Promise.Settle` with `Rejected` |
| PromiseRuntime.Runtime.Execute | space/11/promise.js:54-56 | the loop over the queue equals `Promise.ExecuteFrom` from index 0 over the starting length |
| PromiseRuntime.Runtime.Invoke | space/11/promise.js:25-33 | calling a handler in place equals `Promise.Invoke` |
| PromiseProperties.Expected | space/11/promise.js:24-39 | the reference table: the downstream is settled the same way as the source, a throw can escape only through `onRejected`, and at most two user calls are made |
| PromiseProperties.Drain | space/11/promise.js:54-56 | applying the table in order only appends to the log, changes no queue, and leaves the source promise untouched when no reaction feeds it |
| PromiseProperties.Follow | space/11/promise.js:39-52 | one plain reaction's calls are logged before its downstream is touched; the downstream is then settled through its own `resolve`/`reject`, running its queue, and the world only grows; a normal end returns `undefined` |
| PromiseProperties.PushQueuesLast | space/11/promise.js:21-23 | `callbacks.push` puts the reaction last in the queue, one longer, and changes no state, value, error, log or other promise |
| PromiseProperties.TransitionMatchesExpected | space/11/promise.js:18-40 | on a settled promise with a plain reaction, whatever reactions the downstream already carries, `transition` makes exactly the calls `Expected` lists and then settles the downstream through its own closure (running its queue) with the table's outcome, or lets the throw escape |
| PromiseProperties.SettleUnqueued | space/11/promise.js:42-56 | settling a promise with an empty queue only stores the outcome and ends normally |
| PromiseProperties.TransitionOnLeafQueue | space/11/promise.js:18-56 | when the downstream's queue is empty, one `transition` is exactly the table's effect |
| PromiseProperties.ExecuteMatchesDrain | space/11/promise.js:54-56 | `execute` over a queue of plain reactions whose downstreams have empty queues equals `Drain` in registration order |
| PromiseProperties.SettleDrainsQueueInOrder | space/11/promise.js:42-56 | when every downstream's queue is empty, `resolve`/`reject` store the new state, then process each queued reaction in FIFO order |
| PromiseProperties.DrainLogsInOrder | space/11/promise.js:54-56 | draining a queue with no escaping throw logs every reaction's calls, reaction by reaction |
| PromiseProperties.DrainLeavesOthers | space/11/promise.js:54-56 | draining touches no promise other than the reactions' downstreams |
| PromiseProperties.DrainSettlesEach | space/11/promise.js:54-56 | draining settles each reaction's downstream as `Expected` says |
| PromiseProperties.SettleRunsEachReactionOnce | space/11/promise.js:42-56 | when the downstreams are distinct other promises with empty queues and no throw escapes a handler: one settle ends normally, runs every queued reaction exactly once, in order (the log grows by exactly their calls), and settles each downstream as the table says |
| PromiseProperties.SecondSettleRerunsQueue | space/11/promise.js:42-56 | when every downstream's queue is empty: a second settle overwrites state and value and drains the whole original queue again |
| PromiseProperties.Walk | space/11/promise.js:42-56 | the reference walk of a queue of plain reactions in registration order, each downstream settled (its own queue run) before the next reaction; the world only grows and a normal end returns `undefined` |
| PromiseProperties.ExecuteFollowsQueue | space/11/promise.js:54-56 | `execute` over plain reactions equals `Walk`, whatever reactions their downstreams carry |
| PromiseProperties.SettleFollowsQueue | space/11/promise.js:42-56 | `resolve`/`reject` overwrite state and value and then walk the whole queue as `Walk` says, whatever the downstreams carry |
| PromiseProperties.SettleAgainRerunsQueue | space/11/promise.js:42-56 | after a first settle ends normally the promise is settled and keeps its whole queue, and a second settle walks all of it again |
| PromiseProperties.Pipeline | space/11/promise.js:24-39 | the reference outcome of a chain of plain `then`s: a chain never changes the disposition, and makes at most two calls per link |
| PromiseProperties.PipelineRuns | space/11/promise.js:18-56 | settling the head of a chain `p.then(..).then(..)...` (one plain reaction per link) logs exactly the calls of `Pipeline` in order, creates no promise, changes nothing outside the chain, and settles the end with the outcome that reaches it or ends with the first escaping throw |
| PromiseProperties.ThenOnPendingQueues | space/11/promise.js:7-23 | `then` on a pending promise appends exactly one reaction at the end of the queue and calls nothing |
| PromiseProperties.ThenOnSettledRunsAtOnce | space/11/promise.js:7-39 | `then` on a settled promise processes the reaction inside the call and leaves the promise's own queue unchanged |
| PromiseProperties.ForwardChainsPending | space/11/promise.js:35-37 | a handler result that is a pending promise `q` queues, last on `q`, a reaction into the downstream's `resolve`/`reject` feeding a fresh promise; nothing else changes and nothing is called |
| PromiseProperties.ChainWaitsForInner | space/11/promise.js:24-37 | `onFulfilled` on a resolved promise returning a pending promise: its call is logged, the downstream stays unsettled, and the forwarding reaction is queued last on the inner promise |
| PromiseProperties.RejectionChainWaitsForInner | space/11/promise.js:31-37 | the same for `onRejected` on a rejected promise |
| PromiseProperties.RecoveryChainWaitsForInner | space/11/promise.js:24-37 | the same when `onFulfilled` throws and the caught throw's `onRejected` returns a pending promise: both calls are logged, in order |
| PromiseProperties.ForwarderCopiesInner | space/11/promise.js:24-52 | the forwarding reaction on a settled inner promise settles the downstream with the inner state and value (running its queue), then settles its fresh promise with `undefined`; a throw while resolving the downstream is caught and rejects it instead; any other throw escapes |
| PromiseProperties.ForwardIntoUnqueued | space/11/promise.js:24-52 | when settling the downstream ends normally and the fresh promise has an empty queue, the forwarding reaction ends with that promise settled with `undefined` |
| PromiseProperties.DownstreamFollowsInner | space/11/promise.js:24-56 | end to end, when the inner promise's queue is empty and a chain of plain `then`s (one per link, no escaping throw) hangs from the downstream: the downstream stays pending at first; when the inner promise settles, the whole chain runs as if the downstream had been settled with the inner outcome, logging the calls of `Pipeline` and settling the chain's end with its outcome |
| PromiseProperties.NoHandlersYieldUndefined | space/11/promise.js:19-39 | `then()` with no handlers settles the downstream with `undefined`, with the source's disposition |
| PromiseProperties.RecoveryStillRejects | space/11/promise.js:31-39 | on a rejected promise, `onRejected`'s return value rejects the downstream |
| PromiseProperties.FulfilledThrowStillResolves | space/11/promise.js:24-39 | a throw from `onFulfilled` is passed to the same reaction's `onRejected`, and the downstream is still resolved |
| Listener.Stored | space/11/listener.js:8-12 | a named function is wrapped under its own name; an anonymous one is stored bare |
| Listener.StoredMatches | space/11/listener.js:8-12 | `remove` hits a stored entry exactly when the function was named and either has the removed name or the name is inherited from `Object.prototype`; an anonymous function's entry is never hit |
| Listener.Sweep | space/11/listener.js:17-21 | `remove` only drops entries: the result is no longer than the array and holds no entry the array did not hold |
| Listener.SweepKeepsUnmatched | space/11/listener.js:17-21 | every entry that does not match survives, in the same relative order |
| Listener.SweepRemovesIsolatedMatches | space/11/listener.js:17-21 | when no two matching entries are adjacent, every matching entry is removed |
| Listener.AdjacentSameNameSurvives | space/11/listener.js:17-20 | of two adjacent entries stored under the same name, only the first is removed |
| Listener.SpliceIsSweep | space/11/listener.js:17-21 | splicing the live array during `map` gives the same array as the front-to-back scan `Sweep` |
| Listener.SpliceMatching | space/11/listener.js:17-21 | the splice-during-`map` loop leaves exactly `Sweep` of the array |
| Listener.SpliceOnlyRemoves | space/11/listener.js:17-21 | the splice-during-`map` only removes entries: the array gets no longer and gains nothing |
| Listener.SweepKeepsShape | space/11/listener.js:8-21 | after `remove`, every entry still has the shape `on` gave it |
| Listener.Listener.constructor | space/11/listener.js:3-5 | a new registry has no events |
| Listener.Listener.On | space/11/listener.js:6-14 | creates an empty list for a new event, then appends the stored function at its end; other events are untouched; an inherited `Object.prototype` name throws and changes nothing; a missing handler throws after the empty list is created |
| Listener.Listener.Remove | space/11/listener.js:15-22 | with no function it logs and changes nothing; an unknown event throws; otherwise that event's list becomes `Sweep` of it |
| Listener.Listener.Emit | space/11/listener.js:23-31 | calls every stored function of the event once, in registration order, with `data`; an unknown event throws |
| Injection.NewKey | posts/14/src/injection.ts:28-33 | the key constructor accepts exactly the truthy tokens and throws "Token must be defined!" otherwise |
| Injection.Intern | posts/14/src/injection.ts:11-20 | a known token gets its stored key and the registry is unchanged; a new one gets id = current count; a falsy one throws and stores nothing |
| Injection.InternKeepsDense | posts/14/src/injection.ts:11-23 | after any `get`, the ids are still exactly 0 .. size - 1, each used once |
| Injection.InternTwice | posts/14/src/injection.ts:12-14 | a second `get` of the same token returns the same key and adds nothing |
| Injection.KeyRegistry.constructor | posts/14/src/injection.ts:10 | the registry starts empty, and so trivially dense |
| Injection.KeyRegistry.Get | posts/14/src/injection.ts:11-20 | the in-place `get` updates `_allKeys` and returns exactly what `Intern` says, keeping the ids dense |
| Injection.KeyRegistry.NumberOfKeys | posts/14/src/injection.ts:21-23 | the count is the next free id: every id handed out is below it, and every id below it is in use |
| Injection.NoAnnotationErrorQuotes | posts/14/src/injection.ts:180-182 | the annotation error reads "Make sure that <name> is decorated with Injectable." with the class name whole, so different names give different messages |
| Injection.Parameters | posts/14/src/injection.ts:154-163 | only an undecorated class throws the annotation error; no constructor gives no parameters |
| Injection.InternAll | posts/14/src/injection.ts:151 | registering the parameter types never changes a key already handed out |
| Injection.DependenciesFor | posts/14/src/injection.ts:149-152 | computing the dependency keys never changes a key already handed out |
| Injection.InternAllMeets | posts/14/src/injection.ts:149-152 | parameter keys come back in parameter order, each the registry's key for its token; a falsy parameter type throws |
| Injection.ResolveProvider | posts/14/src/injection.ts:128-147 | resolving a provider never changes a key already handed out |
| Injection.ResolveProviderMeets | posts/14/src/injection.ts:128-147 | a provider resolves to its own key and one factory over its parameters' keys, or throws the first error the source meets |
| Injection.ResolveAll | posts/14/src/injection.ts:71-74 | resolving a list never changes a key already handed out |
| Injection.ResolveAllMeets | posts/14/src/injection.ts:71-74 | `resolve` maps providers one for one and in order, and throws exactly when one fails, with the first failing provider's error |
| Injection.ExtractTokens | posts/14/src/injection.ts:150-151 | the loop over the parameter types leaves the registry and result of `InternAll` |
| Injection.ResolveReflectiveProvider | posts/14/src/injection.ts:128-133 | resolving one provider in place equals `ResolveProvider` |
| Injection.Resolve | posts/14/src/injection.ts:71-74 | the loop over the providers equals `ResolveAll` and keeps the ids dense |
| Injector.NoProviderErrorQuotes | posts/14/src/injection.ts:176-178 | the message reads "No provider for <token>!" with the token's text whole, so different tokens give different messages |
| Injector.FirstIndex | posts/14/src/injection.ts:105-106 | the slot used is the first whose key id matches; no slot means no provider has that id |
| Injector.GetByKeyF | posts/14/src/injection.ts:104-117 | a filled slot never changes, each slot is written at most once and the assignment log only grows, a success leaves the instance in the key's slot, an instance built for an empty slot is assembled by the first factory of that slot's provider from the instances held for its dependencies, and a missing provider throws "No provider for …!" with the class name for a dependency |
| Injector.NewF | posts/14/src/injection.ts:118-125 | the instance is built by the first factory from the instances now held for its dependencies, in declared order; no factory is a TypeError |
| Injector.DepsF | posts/14/src/injection.ts:122 | one instance per remaining dependency, in declared order, each the instance now held in that dependency's slot; filled slots are kept |
| Injector.WriteKeeps | posts/14/src/injection.ts:107-109 | assigning a slot after building it keeps every other filled slot and the write-once log |
| Injector.LookupTwice | posts/14/src/injection.ts:107-110 | after a successful look-up, looking the same key up again returns the same instance and changes nothing |
| Injector.FreshHeapInv | posts/14/src/injection.ts:96-99 | a new injector, with all slots `undefined` and nothing written, satisfies the write-once invariant |
| Injector.ReflectiveInjector.constructor | posts/14/src/injection.ts:88-100 | `keyIds[i]` is provider `i`'s key id and every slot starts empty; both arrays have the providers' length |
| Injector.ReflectiveInjector.GetByKey | posts/14/src/injection.ts:104-117 | the in-place search and lazy fill equal `GetByKeyF` |
| Injector.ReflectiveInjector.New | posts/14/src/injection.ts:118-125 | the in-place `_new` equals `NewF` |
| Injector.ReflectiveInjector.Dependencies | posts/14/src/injection.ts:122 | the in-place dependency loop equals `DepsF` |
| Injector.ReflectiveInjector.Get | posts/14/src/injection.ts:101-103 | `get` registers the token's key (or throws for a falsy token), then looks it up as a top-level request |
| Injector.CreateInjector | posts/14/src/injection.ts:188-190 | `createInjector` fails exactly when `resolve` does; otherwise it gives a fresh injector over the resolved providers with every slot empty |

## Left out

- The demo chain of space/11/promise.js:61-75 is not modelled. It is driven by `setTimeout`, and the model has no clock.
- Promise.Transition: a user handler is data. It is either a function from argument to return-or-throw with no side effects, or a function that returns an existing promise (`Chain`). A handler that creates promises or calls settle closures itself is not modelled.
- Promise.Settle: `resolve` with a promise as its value is not modelled. Values never contain promises, and the source itself does not unwrap such a value.
- Promise.Transition: nesting depth is bounded by `fuel`. When it runs out, the result is `Exhausted`, which stands for the host's call-stack limit. Results are exact only while fuel lasts.
- ExecuteMatchesDrain: stated for downstreams with empty queues only, where one reaction is one table lookup. For downstreams that carry reactions, `ExecuteFollowsQueue` gives the general form against `Walk`.
- SettleDrainsQueueInOrder: stated for downstreams with empty queues only. `SettleFollowsQueue` is the general form.
- SettleRunsEachReactionOnce: the log and downstream outcomes are stated for distinct downstreams with empty queues and no escaping throw. With queued downstreams, each reaction's effect includes its downstream's whole queue. `SettleFollowsQueue` gives that case against `Walk`, and `PipelineRuns` spells it out for chains.
- SecondSettleRerunsQueue: stated for downstreams with empty queues. `SettleAgainRerunsQueue` is the general form.
- PipelineRuns: each promise of the chain holds exactly one reaction. A promise with several `then`s on it (a tree) is covered only through `Walk`.
- DownstreamFollowsInner: the inner promise's queue must be empty before the forwarding reaction is queued. The chain from the downstream holds one plain reaction per link, and no throw escapes along it. The other flattening cases are `RejectionChainWaitsForInner`, `RecoveryChainWaitsForInner` and `ForwarderCopiesInner`.
- PromiseRuntime.Runtime.Create: the executor call `fn(resolve, reject)` of space/11/promise.js:58 is not modelled as such. An executor that only keeps the closures is `Create`; one that settles synchronously is `Create` followed by `Resolve` or `Reject`. An executor that throws, or a missing `fn`, makes the throw escape `new iPromise` (there is no `try` around line 58), where a standard promise would be rejected; the model cannot express that case.
- Promise.Invoke: a handler that is truthy but not callable, such as `then(1)`, is not modelled. Calling it throws a `TypeError` at space/11/promise.js:26, 28 or 32, and a handler here is always a function or absent.
- Listener.Listener.On: `fn` is either a function or missing (`undefined`/`null`). Another value, such as a string or a number, has an own or inherited `name` that the source reads. It is pushed bare or wrapped, and `emit` would then throw when calling it. That case is not modelled.
- Listener.Listener.Remove: `fn` is either a function or missing, as for `on`. A truthy value that is not a function, such as a string, passes the check of line 16, and line 18 then looks entries up under its `name` (for a string, `undefined`). That case is not modelled.
- Listener.Stored: a function named `__proto__` is stored as a wrapped entry. In JavaScript, `obj["__proto__"] = fn` sets the prototype instead, so `emit` would call nothing for it.
- Listener.Listener.Emit: the calls are returned in order rather than executed. A handler that throws, which would stop `map` part-way, is not modelled.
- Listener: `console.error` is modelled as the outcome `ConsoleError(message)`, not as output.
- Injection: the reflection behind `parameters` is given as data (`Params`). That covers `Reflect.getMetadata` for `Injectable` and `design:paramtypes`, and `noCtor`'s scan of the class source text (lines 154-170, 184-186). `new t(...args)` (lines 135-137) becomes the value `Instance(t, args)`.
- Injection.Intern: the new id is the size of this registry. The source reads the global registry's count (line 16). Only the global registry exists, so the two are the same object.
- Injector.GetByKeyF: the source never detects a dependency cycle. Re-entering a slot whose `_new` is still running repeats the same calls until the runtime's stack overflows. The model detects this re-entry from the set `busy` and returns `StackOverflow` at once.
- Injector: a thrown JavaScript error or string is modelled as a result (`Err`), not as an exception.
- posts/14/src/infer.ts and infer.spec.ts are not part of this model. They hold type-level TypeScript and a constant, with no runtime logic.
- posts/14/src/injection.spec.ts is not part of this model. It imports names that injection.ts does not export.
- posts/11/spider/spider.js, space/11/spider.js, posts/11/pub-sub/gzip.js, posts/11/pub-sub/watch.js and space/11/index.js are not part of this model. They are network, file-system and timer code.
