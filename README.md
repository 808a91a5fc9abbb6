# xtend-stream core, modelled in Dafny

This project models the sequential core of xtend-stream, a library of promises and streams for Java and Xtend:

- **Publisher** (`Observe`). A one-to-many notifier. `onChange` appends an observer to an ordered list and hands back the action that removes it again. `act` delivers a message to every observer in list order while publishing is on. The model's `Act` then always signals done. As written, `act` on a publisher nobody has subscribed to throws before it signals done (see Findings).
- **BasePromise** (`Promises`). A promise is built on a publisher. `apply` stores the first entry of any kind. After that it accepts only errors, and each error overwrites the stored entry and is published again. `then` and `onError` register closures on the publisher and replay the stored entry at once. The `then` closure unregisters itself on a value, runs the value function and completes its task. On an error it errors the task. An Exception from the value function errors the source with a PromiseException and errors the task with that Exception.
- **PromiseExtensions** (`PromiseExtensions`, `PromiseScenarios`). The combinators `promise(value)`, `error(promise, message)`, `<<` / `>>`, `map`, `flatten`, `thenAsync`, `fork` and `forwardTo`, written in terms of the promises and closures they create.
- **LoadBalancer** (`LoadBalancing`). A splitter that gives each value to the first ready child. It gives finishes and errors to every child. It passes `next` upstream always, `skip` only when every child skips, and `close` only when no child is open.
- **SubStream** (`SubStreams`). Producer calls on a sub stream go to the shared root input of its chain. The keyed calls build a `Value`, `Error` or `Finish` entry and apply it to the sub stream itself.
- **StreamResponder** (`StreamResponders`). One optional handler slot per event kind; the last registration wins. Each event is dispatched to its handler when one is set.

Callbacks are observer or handler identities (natural numbers). Each sender keeps the calls it makes, in order:

- a publisher keeps a log of `Notify(observer, message)` and `Done`;
- the load balancer, a sub-stream chain root and a responder each keep a list of the calls they made.

Promise values are modelled without Java's erased generics, as one type `Val`. A `Val` is null, an integer, a boolean or a reference to a promise.

A closure that the core registers on a publisher is modelled as an object with a `Handle(entry)` method. `act` records which observers are notified. The reaction of each closure is then its own step, called in the order the log gives. This is how Java's nested synchronous delivery is taken apart: one closure at a time.

The methods in `PromiseScenarios`, and the scenario methods at the end of the other modules, build fresh objects and run one such sequence of steps. Each states the outcome the source promises, for every input of the stated kind.

## Model

Source paths are relative to the repository root.

| member | source | states |
|---|---|---|
| Observe.Subscribed | src/main/xtend-gen/nl/kii/observe/Publisher.java:30-38 | with no list yet the result is exactly the one observer; otherwise the old list with the observer appended last |
| Observe.RemoveFirst | src/main/xtend-gen/nl/kii/observe/Publisher.java:42 | removing an observer shortens the list by one exactly when the observer is on it; an absent observer leaves the list unchanged |
| Observe.FirstIndex | src/main/xtend-gen/nl/kii/observe/Publisher.java:42 | the position of the first equal observer, which is the one a Java `List.remove(Object)` takes out |
| Observe.RemoveFirstCutsFirstOccurrence | src/main/xtend-gen/nl/kii/observe/Publisher.java:39-44 | unsubscribing removes exactly the first occurrence of the observer and keeps the rest in their relative order; an absent observer leaves the list as it is |
| Observe.RemoveFirstMultiset | src/main/xtend-gen/nl/kii/observe/Publisher.java:42 | unsubscribing takes away one occurrence of that observer and no other observer |
| Observe.UnsubscribeUndoesSubscribe | src/main/xtend-gen/nl/kii/observe/Publisher.java:29-45 | for an observer not yet on the list, the action `onChange` returns restores the list to what it was before the subscription |
| Observe.Deliveries | src/main/xtend-gen/nl/kii/observe/Publisher.java:51-54 | one message makes exactly one delivery per list position, to that position's observer, in list order |
| Observe.DeliveriesExactlyOnce | src/main/xtend-gen/nl/kii/observe/Publisher.java:52-53 | an observer receives a message as many times as it is on the list; one subscription means exactly once |
| Observe.Publisher.constructor | src/main/xtend-gen/nl/kii/observe/Publisher.java:25-27 | a new publisher publishes, has no observer list and has notified nobody |
| Observe.Publisher.SetPublishing | src/main/xtend-gen/nl/kii/observe/Publisher.java:59-65 | `isPublishing` returns the value last given to `setPublishing` |
| Observe.Publisher.IsPublishing | src/main/xtend-gen/nl/kii/observe/Publisher.java:59-61 | the publishing flag; what it returns after construction and after `setPublishing` is stated on those two rows |
| Observe.Publisher.OnChange | src/main/xtend-gen/nl/kii/observe/Publisher.java:29-46 | the list becomes `Subscribed` of the old one, and the action returned unsubscribes this observer |
| Observe.Publisher.Unsubscribe | src/main/xtend-gen/nl/kii/observe/Publisher.java:39-44 | the list loses the first occurrence of the observer |
| Observe.Publisher.Act | src/main/xtend-gen/nl/kii/observe/Publisher.java:48-57 | the log grows by the deliveries to every listed observer in order when publishing, by none when paused, and then by a single `Done` |
| Observe.Publisher.ActAsWritten | src/main/xtend-gen/nl/kii/observe/Publisher.java:49-53 | with publishing on and no observer list, the iteration throws a NullPointerException before any delivery and `Done` is never logged; otherwise the same as `Act` |
| Observe.PausedMessageIsDiscarded | src/main/xtend-gen/nl/kii/observe/Publisher.java:49-56 | a message sent while paused reaches no observer and is not kept for later; after resuming, only the next message is delivered, and each `act` signals done |
| Observe.FreshPublisherActThrows | src/main/xtend-gen/nl/kii/observe/Publisher.java:51-52 | a publisher nobody has subscribed to throws on its first message and never signals done |
| Promises.Accept | src/main/xtend-gen/nl/kii/promise/BasePromise.java:63-88 | an unfulfilled promise takes the entry, whatever its kind, and so does a fulfilled one given an error; a fulfilled promise given anything else is left as it is |
| Promises.AcceptFulfils | src/main/xtend-gen/nl/kii/promise/BasePromise.java:66-91 | through `apply`, the entry is present exactly when the promise is fulfilled, and any accepted entry leaves it fulfilled |
| Promises.LastError | src/main/xtend-gen/nl/kii/promise/BasePromise.java:73-81 | the last error of the sequence, which a fulfilled promise still takes: an Error entry from the sequence with no Error entry after it; none exactly when the sequence holds no error |
| Promises.ApplyAllFulfilled | src/main/xtend-gen/nl/kii/promise/BasePromise.java:73-91 | on a fulfilled promise a sequence of entries changes nothing except through its last error, which is then the stored entry |
| Promises.SettledIsApplied | src/main/xtend-gen/nl/kii/promise/BasePromise.java:58-92 | a new promise given entries in order holds its first entry, unless errors follow, in which case it holds the last of them; it is fulfilled exactly when it was given something |
| Promises.FirstValueIsPermanent | src/main/xtend-gen/nl/kii/promise/BasePromise.java:82-88 | once a promise holds a value, no later value replaces it |
| Promises.FirstNull | src/main/xtend-gen/nl/kii/promise/PromiseExtensions.java:180-191 | the first empty slot, which is where walking an array of promises throws a NullPointerException |
| Promises.BasePromise.constructor | src/main/xtend-gen/nl/kii/promise/BasePromise.java:25-100 | a new promise is unfulfilled, `get` returns null, and no handler flag is set |
| Promises.BasePromise.Get | src/main/xtend-gen/nl/kii/promise/BasePromise.java:97-100 | on a consistent promise, `get` returns null exactly while the promise is unfulfilled |
| Promises.BasePromise.Apply | src/main/xtend-gen/nl/kii/promise/BasePromise.java:58-92 | a null entry fails with "cannot promise a null entry" and changes and publishes nothing; otherwise the state becomes `Accept` of the old state and the entry, published exactly when accepted |
| Promises.BasePromise.Set | src/main/xtend-gen/nl/kii/promise/BasePromise.java:58-92 | setting a value is `apply` of a Value entry: accepted only on an unfulfilled promise |
| Promises.BasePromise.SetError | src/main/xtend-gen/nl/kii/promise/BasePromise.java:73-91 | erroring is `apply` of an Error entry: always accepted, it overwrites the entry and is published again |
| Promises.BasePromise.Complete | src/main/xtend-gen/nl/kii/promise/BasePromise.java:211 | a task is completed by the value `true` |
| Promises.BasePromise.Replay | src/main/xtend-gen/nl/kii/promise/BasePromise.java:235-240 | the stored entry, if any, is published again to every observer |
| Promises.BasePromise.Then | src/main/xtend-gen/nl/kii/promise/BasePromise.java:195-244 | a fresh unfulfilled task is returned; the closure is appended to the list; `hasValueHandler` is set; the stored entry is republished when there is one |
| Promises.BasePromise.OnError | src/main/xtend-gen/nl/kii/promise/BasePromise.java:135-175 | the closure is appended, `hasErrorHandler` is set, the stored entry is republished and the promise itself is returned |
| Promises.SetEach | src/main/xtend-gen/nl/kii/promise/PromiseExtensions.java:186-191 | the value is set on each slot up to the first empty one, which throws a NullPointerException exactly when there is one; each slot set takes it through `apply`, so its state and its publisher's log grow as for `set`; later slots and their logs are left alone |
| Promises.ErrorEach | src/main/xtend-gen/nl/kii/promise/PromiseExtensions.java:175-180 | the same for an error: each slot up to the first empty one is errored and publishes the error, later slots are left alone |
| Promises.ThenObserver.RunAndReport | src/main/xtend-gen/nl/kii/promise/BasePromise.java:210-228 | the then closure on a value: with no exception the task completes and publishes `true`; an Exception errors the source with a PromiseException wrapping it and the task with the Exception, each published to its observers; anything else escapes and leaves both promises and their logs unchanged |
| Promises.ThenObserver.RunValueFn | src/main/xtend-gen/nl/kii/promise/PromiseExtensions.java:123-192 | each value function the core passes to `then` has its effect on its target promises, logs included: map sets and publishes the mapping result, flatten registers two closures on the inner promise and replays its entry after each registration, fork sets the slots; what it throws is `Outcome`, and then source and task are untouched |
| Promises.ThenObserver.Handle | src/main/xtend-gen/nl/kii/promise/BasePromise.java:200-230 | a value unregisters the closure, runs the value function and completes the task; an Exception from the value function errors the source with a PromiseException and the task with that Exception instead, both published; any other Throwable escapes; an error errors the task and the closure stays registered; other entries change nothing |
| Promises.ThenObserver.HandleValue | src/main/xtend-gen/nl/kii/promise/BasePromise.java:206-228 | the value case of `Handle`, with the same effects on states and logs |
| Promises.ThenObserver.Unregister | src/main/xtend-gen/nl/kii/promise/BasePromise.java:208-209 | the closure takes itself off the source's list before the value function runs |
| Promises.ThenObserver.Report | src/main/xtend-gen/nl/kii/promise/BasePromise.java:211-228 | no exception completes the task and publishes `true`, leaving the source and its log alone; an Exception errors the source and the task, each published; another Throwable escapes and changes neither promise nor log |
| Promises.ErrorObserver.Handle | src/main/xtend-gen/nl/kii/promise/BasePromise.java:139-161 | an error unregisters the closure and runs the error function, whose target is errored and publishes the error; an Exception from it is swallowed and any other Throwable escapes; other entries change nothing and the closure stays |
| Promises.ErrorObserver.Unregister | src/main/xtend-gen/nl/kii/promise/BasePromise.java:147-148 | on an error the closure takes itself off the source's list and records the call, before the error function runs; its targets are untouched |
| Promises.ErrorObserver.RunErrorFn | src/main/xtend-gen/nl/kii/promise/BasePromise.java:149-160 | the error function's effect: flatten's error closure errors its target, fork's errors each slot up to the first empty one; an Exception it throws is swallowed, any other Throwable escapes |
| PromiseExtensions.PromiseOf | src/main/xtend-gen/nl/kii/promise/PromiseExtensions.java:45-47 | a new promise already holding the value, with no observer notified |
| PromiseExtensions.ErrorWith | src/main/xtend-gen/nl/kii/promise/PromiseExtensions.java:85-88 | the promise is errored with an Exception carrying the message, the error is published to its observers, and the promise is returned |
| PromiseExtensions.Fulfil | src/main/xtend-gen/nl/kii/promise/PromiseExtensions.java:93-112 | `<<` and `>>` set the value, publish it when accepted, and return the same promise |
| PromiseExtensions.Map | src/main/xtend-gen/nl/kii/promise/PromiseExtensions.java:119-133 | a fresh unfulfilled promise, and a `then` closure on the source whose value function sets it to the mapping result |
| PromiseExtensions.Flatten | src/main/xtend-gen/nl/kii/promise/PromiseExtensions.java:138-162 | a fresh unfulfilled promise, and a `then` closure on the outer promise that listens on the inner one |
| PromiseExtensions.ThenAsync | src/main/xtend-gen/nl/kii/promise/PromiseExtensions.java:63-71 | it is `flatten` of `map` with the same function: the closures are exactly those two registrations |
| PromiseExtensions.Fork | src/main/xtend-gen/nl/kii/promise/PromiseExtensions.java:169-198 | a negative amount throws and registers nothing; otherwise an array of exactly `amount` empty slots, with the error closure and then the value closure on the source, a stored entry being replayed after each registration |
| PromiseExtensions.Register | src/main/xtend-gen/nl/kii/promise/PromiseExtensions.java:183-194 | fork's error closure is registered first and its value closure second, on the same promise, and a stored entry is replayed after each registration to the list as it then stands |
| PromiseExtensions.ForkFilled | src/main/xtend-gen/nl/kii/promise/PromiseExtensions.java:169-198 | fork as intended: every one of the `amount` slots holds a fresh unfulfilled promise of its own; the registrations and replays are those of `fork` |
| PromiseExtensions.FirstNullOfFull | src/main/xtend-gen/nl/kii/promise/PromiseExtensions.java:180-191 | an array with no empty slot is walked to its end |
| PromiseExtensions.ForwardObserver.Handle | src/main/xtend-gen/nl/kii/promise/PromiseExtensions.java:204-207 | every entry delivered is applied to the existing promise, which publishes it to its own observers when it is accepted |
| PromiseExtensions.Always | src/main/xtend-gen/nl/kii/promise/PromiseExtensions.java:209 | the forwarding closure is appended and the stored entry replayed; the same promise is returned |
| PromiseExtensions.ForwardTo | src/main/xtend-gen/nl/kii/promise/PromiseExtensions.java:203-215 | the forwarding closure and then an empty `then` closure are registered, and a stored entry is replayed after each registration |
| PromiseScenarios.FulfilOnce | src/main/xtend-gen/nl/kii/promise/BasePromise.java:66-91 | a second value is dropped and not published; a later error overwrites the value and is published again |
| PromiseScenarios.MapSetsMappedValue | src/main/xtend-gen/nl/kii/promise/PromiseExtensions.java:119-133 | when the source is set to v, the mapped promise gets `mappingFn(v)` and the task completes; an Exception from the mapping leaves the mapped promise unfulfilled, errors the task and errors the source with a PromiseException |
| PromiseScenarios.ThenRunsValueFn | src/main/xtend-gen/nl/kii/promise/BasePromise.java:206-228 | a caller's value function runs on the value and the task completes; its Exception errors the source with a PromiseException and the task with the Exception; its other Throwable escapes; the closure is off the list in every case |
| PromiseScenarios.ThenPassesErrorOn | src/main/xtend-gen/nl/kii/promise/BasePromise.java:214-218 | an error reaches the task and the closure stays on the list |
| PromiseScenarios.OnErrorRunsErrorFn | src/main/xtend-gen/nl/kii/promise/BasePromise.java:135-175 | `onError` returns the promise itself; a value leaves the closure registered; an error unregisters it, and only a Throwable that is no Exception escapes from the error function |
| PromiseScenarios.MapReplaysToLateSubscriber | src/main/xtend-gen/nl/kii/promise/BasePromise.java:235-240 | a closure registered after the value arrived is handed the value at once |
| PromiseScenarios.FlattenSetsInnerValue | src/main/xtend-gen/nl/kii/promise/PromiseExtensions.java:150-155 | the inner promise's value is set on the flattened promise |
| PromiseScenarios.FlattenForwardsInnerError | src/main/xtend-gen/nl/kii/promise/PromiseExtensions.java:144-149 | the inner promise's error becomes an error of the flattened promise |
| PromiseScenarios.FlattenSetsLaterInnerValue | src/main/xtend-gen/nl/kii/promise/PromiseExtensions.java:138-162 | an inner promise set only after flatten has registered on it passes its value to the flattened promise |
| PromiseScenarios.FlattenForwardsLaterInnerError | src/main/xtend-gen/nl/kii/promise/PromiseExtensions.java:138-162 | an inner promise errored only after flatten has registered on it passes its error to the flattened promise |
| PromiseScenarios.ThenAsyncSetsReturnedPromisesValue | src/main/xtend-gen/nl/kii/promise/PromiseExtensions.java:63-71 | the value of the promise the function returns becomes the value of the result |
| PromiseScenarios.ForwardToAppliesEntry | src/main/xtend-gen/nl/kii/promise/PromiseExtensions.java:203-215 | the entry the source receives reaches both closures in order and ends up in the existing promise |
| PromiseScenarios.ErrorWithMessage | src/main/xtend-gen/nl/kii/promise/PromiseExtensions.java:85-88 | a new promise errored with a message holds an Exception with that message |
| PromiseScenarios.FulfilIsDroppedOnFulfilled | src/main/xtend-gen/nl/kii/promise/PromiseExtensions.java:105-112 | `<<` on a promise that holds a value changes nothing and returns that promise |
| PromiseScenarios.ForkNegative | src/main/xtend-gen/nl/kii/promise/PromiseExtensions.java:172 | fork with a negative amount throws a NegativeArraySizeException |
| PromiseScenarios.ForkAsWrittenErrorsSource | src/main/xtend-gen/nl/kii/promise/PromiseExtensions.java:172-194 | as written, a source value makes the fork closure throw on the first empty slot: the source is errored with a PromiseException, the task gets the NullPointerException, and no slot holds anything; the source's log shows the value to both closures and then the PromiseException to the error closure, which throws again on the empty slot and swallows it |
| PromiseScenarios.ForkAsWrittenLosesError | src/main/xtend-gen/nl/kii/promise/PromiseExtensions.java:172-183 | as written, a source error makes the fork error closure throw a NullPointerException on the first unfilled slot, and that exception is swallowed: nothing escapes and the source keeps only its own error |
| PromiseScenarios.ForkFilledSetsEverySlot | src/main/xtend-gen/nl/kii/promise/PromiseExtensions.java:184-194 | with filled slots, a source value is set on every slot and the task completes |
| PromiseScenarios.ForkFilledErrorsEverySlot | src/main/xtend-gen/nl/kii/promise/PromiseExtensions.java:173-183 | with filled slots, a source error is sent to every slot |
| LoadBalancing.FirstReady | src/main/xtend-gen/nl/kii/stream/source/LoadBalancer.java:36-42 | the first child whose `isReady` is true, or none when no child is ready |
| LoadBalancing.ValueGoesToFirstReadyOnly | src/main/xtend-gen/nl/kii/stream/source/LoadBalancer.java:33-41 | a value is applied to child i exactly when i is the first ready child; it reaches at most one child, and unchanged |
| LoadBalancing.UnreadyChildrenGetNoValue | src/main/xtend-gen/nl/kii/stream/source/LoadBalancer.java:36-43 | with no child ready, a value reaches no child and nothing else happens |
| LoadBalancing.BroadcastReachesEveryChild | src/main/xtend-gen/nl/kii/stream/source/LoadBalancer.java:46-61 | a finish calls `finish()` on every child, without its level, and an error goes to every child, each once and in list order, whatever their readiness |
| LoadBalancing.AllMeansEvery | src/main/xtend-gen/nl/kii/stream/source/LoadBalancer.java:97-111 | the splitter's `all` holds exactly when the predicate holds of every child |
| LoadBalancing.NoneSetMeansNoOne | src/main/xtend-gen/nl/kii/stream/source/LoadBalancer.java:107-111 | the close condition holds exactly when no child is open |
| LoadBalancing.SkipIffAllSkipping | src/main/xtend-gen/nl/kii/stream/source/LoadBalancer.java:92-103 | a skip reaches the source exactly when every child is skipping, and nothing happens otherwise |
| LoadBalancing.CloseIffNoneOpen | src/main/xtend-gen/nl/kii/stream/source/LoadBalancer.java:105-117 | a close reaches the source exactly when no child is open, and nothing happens otherwise |
| LoadBalancing.NextAlwaysReachesSource | src/main/xtend-gen/nl/kii/stream/source/LoadBalancer.java:69-90 | a next command calls the source's `next` exactly once |
| LoadBalancing.LoadBalancer.constructor | src/main/xtend-gen/nl/kii/stream/source/LoadBalancer.java:22-24 | a new load balancer has no children attached and has made no call |
| LoadBalancing.LoadBalancer.OnEntry | src/main/xtend-gen/nl/kii/stream/source/LoadBalancer.java:30-63 | the calls made are `Routed` of the children's readiness and the entry; a close entry makes none |
| LoadBalancing.LoadBalancer.OnCommand | src/main/xtend-gen/nl/kii/stream/source/LoadBalancer.java:66-86 | the calls made are `Commanded` of the children's flags and the command |
| LoadBalancing.LoadBalancer.NextCommand | src/main/xtend-gen/nl/kii/stream/source/LoadBalancer.java:88-90 | one `next` to the source |
| LoadBalancing.LoadBalancer.SkipCommand | src/main/xtend-gen/nl/kii/stream/source/LoadBalancer.java:92-103 | a `skip` to the source when all children skip, nothing otherwise |
| LoadBalancing.LoadBalancer.CloseCommand | src/main/xtend-gen/nl/kii/stream/source/LoadBalancer.java:105-117 | a `close` to the source when no child is open, nothing otherwise |
| LoadBalancing.RoutesToSecondReadyChild | src/main/xtend-gen/nl/kii/stream/source/LoadBalancer.java:30-103 | with only the second of two children ready, a value goes to the second only, a finish to both, and a skip upstream exactly when both skip |
| SubStreams.Root.AsParent | src/main/xtend-gen/nl/kii/stream/SubStream.java:22-24 | a chain started at a root has that root as its input |
| SubStreams.SubStream.constructor | src/main/xtend-gen/nl/kii/stream/SubStream.java:21-26 | the parent's input is taken over and its concurrency copied |
| SubStreams.SubStream.WithMaxSize | src/main/xtend-gen/nl/kii/stream/SubStream.java:28-32 | the parent's input is taken over with the given queue size; the concurrency is not copied |
| SubStreams.SubStream.GetInput | src/main/xtend-gen/nl/kii/stream/SubStream.java:34-37 | the root of the chain; what it is after construction is stated on the constructor rows and on `ChainForwardsToRoot` |
| SubStreams.SubStream.AsParent | src/main/xtend-gen/nl/kii/stream/SubStream.java:21-37 | a further sub stream sees this stream's input and concurrency |
| SubStreams.SubStream.Push | src/main/xtend-gen/nl/kii/stream/SubStream.java:43-45 | the value goes unchanged to the input, and nothing else changes |
| SubStreams.SubStream.Error | src/main/xtend-gen/nl/kii/stream/SubStream.java:52-54 | the error goes unchanged to the input |
| SubStreams.SubStream.Finish | src/main/xtend-gen/nl/kii/stream/SubStream.java:60-62 | `finish()` goes to the input as it is |
| SubStreams.SubStream.FinishLevel | src/main/xtend-gen/nl/kii/stream/SubStream.java:68-70 | `finish(level)` goes to the input with the same level |
| SubStreams.SubStream.PushFrom | src/main/xtend-gen/nl/kii/stream/SubStream.java:75-78 | exactly `Value(from, value)` is applied to this stream |
| SubStreams.SubStream.ErrorFrom | src/main/xtend-gen/nl/kii/stream/SubStream.java:84-87 | exactly `Error(from, error)` is applied to this stream |
| SubStreams.SubStream.FinishFrom | src/main/xtend-gen/nl/kii/stream/SubStream.java:92-95 | exactly `Finish(from, 0)` is applied to this stream |
| SubStreams.SubStream.FinishFromLevel | src/main/xtend-gen/nl/kii/stream/SubStream.java:100-103 | exactly `Finish(from, level)` is applied to this stream |
| SubStreams.ChainForwardsToRoot | src/main/xtend-gen/nl/kii/stream/SubStream.java:21-70 | in a chain of two sub streams both have the root as input, only the one-argument constructor copies the concurrency, and every producer call reaches the root unchanged and in order while no sub stream applies anything |
| SubStreams.KeyedCallsApplyEntries | src/main/xtend-gen/nl/kii/stream/SubStream.java:75-103 | the keyed calls apply exactly the entries they name, `finish(from)` being a finish of level 0, and send nothing to the input |
| StreamResponders.StreamResponder.Each | src/main/xtend-gen/nl/kii/stream/internal/StreamResponder.java:45-47 | the value slot now holds the handler given (or none for null); the other slots are untouched |
| StreamResponders.StreamResponder.Finish | src/main/xtend-gen/nl/kii/stream/internal/StreamResponder.java:52-54 | the finish slot holds the handler given, the others are untouched |
| StreamResponders.StreamResponder.Error | src/main/xtend-gen/nl/kii/stream/internal/StreamResponder.java:59-61 | the error slot holds the handler given, the others are untouched |
| StreamResponders.StreamResponder.Closed | src/main/xtend-gen/nl/kii/stream/internal/StreamResponder.java:66-68 | the closed slot holds the handler given, the others are untouched |
| StreamResponders.StreamResponder.OnValue | src/main/xtend-gen/nl/kii/stream/internal/StreamResponder.java:71-76 | the value handler is called once with (from, value) when set; nothing happens otherwise |
| StreamResponders.StreamResponder.OnError | src/main/xtend-gen/nl/kii/stream/internal/StreamResponder.java:79-84 | the error handler is called once with (from, error) when set; nothing happens otherwise |
| StreamResponders.StreamResponder.OnFinish | src/main/xtend-gen/nl/kii/stream/internal/StreamResponder.java:87-92 | the finish handler is called with the same level when set; nothing happens otherwise |
| StreamResponders.StreamResponder.OnClosed | src/main/xtend-gen/nl/kii/stream/internal/StreamResponder.java:95-100 | the closed handler is called (with null) when set; nothing happens otherwise |
| StreamResponders.StreamResponder.SetStream | src/main/xtend-gen/nl/kii/stream/internal/StreamResponder.java:102-108 | `getStream` returns the value given |
| StreamResponders.StreamResponder.GetStream | src/main/xtend-gen/nl/kii/stream/internal/StreamResponder.java:106-108 | the stream last set; what it returns is stated on `SetStream` and `LastStreamIsKept` |
| StreamResponders.LastRegistrationWins | src/main/xtend-gen/nl/kii/stream/internal/StreamResponder.java:45-84 | of two value handlers the later one is called, the error handler set in between is kept, and events without a handler call nothing |
| StreamResponders.EachEventReachesItsHandler | src/main/xtend-gen/nl/kii/stream/internal/StreamResponder.java:45-100 | each event reaches its own handler with its own arguments, the finish level unchanged; a cleared handler is no longer called |
| StreamResponders.LastStreamIsKept | src/main/xtend-gen/nl/kii/stream/internal/StreamResponder.java:102-108 | after two `setStream` calls `getStream` returns the second |

## Left out

- The Actor mailbox behind `publisher.apply`, the atomics and the `synchronized` modifier. Each call is modelled as running to completion on one thread.
- Nested synchronous delivery. A closure's reaction to a delivery is its own `Handle` step, not run inside `act`. The Java list's behaviour when a closure unregisters itself while `act` iterates over it (a `LinkedList` iterator can throw a ConcurrentModificationException) is not modelled.
- `future`, `async` and `run` (PromiseExtensions.java:224-292). They are executor and `Future` plumbing.
- `promise(Class)`, `promiseList`, `promiseMap` and `error(Task, String)`. They are trivial constructors and the task variant.
- `toString`, the operation name, `println` and `printStackTrace`. The `onError` closure's handling of an Exception is modelled as swallowing it.
- The `Procedure1` overloads of `then` and `onError` (BasePromise.java:117-125, 181-189). They only drop the `from` key before calling the two-argument versions.
- `Promise.java` and `Task.java` are not part of this model. The model takes three things from them:
  - `set(v)` and `error(t)` apply `Value(null, v)` and `Error(null, t)`;
  - `complete()` sets the value `true`;
  - the entries built by set and error carry the key `Null`.
- `new Promise(parentPromise)` in `map` and `flatten` is modelled as a fresh promise. Whatever that constructor links to the parent is not modelled.
- `always` is not part of this model. `PromiseExtensions.Always` takes it to register the closure, replay the stored entry and return the promise, like `then` does, without setting a flag.
- The entry a PromiseException carries is not kept. The model keeps only its message and its cause.
- `Throwable` values are opaque. The only distinctions kept are between Exception and a non-Exception Throwable, and the kinds the core itself creates.
- `BaseStream` and `StreamSplitter` are not part of this model. A child stream is modelled only by the three flags the balancer reads. Calls to children and to the source are recorded, not executed. The splitter's `all` is taken to hold on an empty list of children. Commands other than next, skip or close are not modelled.
- What `apply` does inside a sub stream belongs to `BaseStream`, and the stream class at the root of a chain is not part of this model. The entries applied and the calls forwarded are recorded. The root stream's `getInput` is taken to return the root itself. A concurrency and queue size that are not given are `None`, which stands for the base class's default.
- What a dispatched handler does is not modelled; the responder records its calls. A handler that throws is not modelled. `getAndSet...` (StreamResponder.java:110-160) are private and unused by the core.
- Promises.BasePromise.Apply, Promises.BasePromise.Replay: publish through the corrected `Act`, which treats a missing observer list as empty (see Findings). As written, setting, erroring or completing a promise nobody has subscribed to throws in `act`. Inside the `then` closure, `newTask.complete()` on a task nothing has subscribed to would then error the source with a PromiseException, and the `newTask.error(e)` that follows would throw again and escape. `map`'s `newPromise.set(...)` on a mapped promise nothing has subscribed to throws the same way. The promise members and scenarios, `PromiseOf`, `ThenRunsValueFn`, `MapSetsMappedValue`, `MapReplaysToLateSubscriber`, `ErrorWithMessage` and `FulfilIsDroppedOnFulfilled` among them, state the behaviour with that correction applied.
- PromiseScenarios.FlattenInner: does not state the log of the inner promise's publisher, only the closures registered on it and their targets, because that part of the proof was too costly.
- PromiseExtensions.ThenAsync: does not state the source publisher's log, only the closures registered and the freshness of the promises, because that part of the proof was too costly.
- Promises.ThenObserver.RunAndReport, Promises.ThenObserver.HandleValue, Promises.ThenObserver.Handle: for flatten, do not carry up the inner promise's log, which `RunValueFn` states, because that part of the proof was too costly; when the inner promise is the task, its log after the task completes is not stated either.
- PromiseScenarios.ThenAsyncSetsReturnedPromisesValue: runs the two closures flatten registered on the returned promise on its value without deriving their notification from that promise's log, for the reason on the line above.

## Findings

| source | as written | input that shows it | evidently intended | confidence | as-written member | corrected member |
|---|---|---|---|---|---|---|
| src/main/xtend-gen/nl/kii/observe/Publisher.java:51-52 | `act` iterates `observers.get()` without a null check | a publisher no one has subscribed to yet, given a message while publishing: the `set` inside `promise(value)`, `newTask.complete()` in the `then` closure on a task nobody has subscribed to (BasePromise.java:211), or `newPromise.set(...)` in `map` (PromiseExtensions.java:126) before anyone subscribes to the mapped promise | no list means nobody to deliver to; `done` is still signalled | not executed; the Actor that calls `act` is not part of this model and might catch the exception | Observe.Publisher.ActAsWritten, Observe.FreshPublisherActThrows | Observe.Publisher.Act |
| src/main/xtend-gen/nl/kii/promise/PromiseExtensions.java:172 | `fork` allocates `new Promise[amount]` and never fills it | `fork(p, 2)` then `p.set(v)`: the value closure throws a NullPointerException on slot 0, so `p` gets a PromiseException error; with `p.error(t)` the NullPointerException is swallowed and no slot sees `t` | every slot holds a new promise that receives the source's value or error | not executed | PromiseExtensions.Fork, PromiseScenarios.ForkAsWrittenErrorsSource, PromiseScenarios.ForkAsWrittenLosesError | PromiseExtensions.ForkFilled, PromiseScenarios.ForkFilledSetsEverySlot, PromiseScenarios.ForkFilledErrorsEverySlot |
