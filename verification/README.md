# Verification model of node-celery-ts: its asynchronous containers, result backends and parsers

The library keeps its asynchronous state in three hand-written containers. `PromiseMap` correlates results with the
callers that wait for them, `ResourcePool` shares a bounded number of connections, and `PromiseQueue` and `List` are
the queues under the pool. The Redis and RPC result backends are protocols over `PromiseMap`. This project models
these containers, the two protocols, and the small parsers that decide how connection URIs are read.

How the model is built:

- **Objects are classes, and each method is one step of a specification.** `PromiseMap`, `ResourcePool`,
  `PromiseQueue`, `List`, `RedisBackend` and `RpcBackend` are classes whose methods do what the source's methods do,
  field by field and loop by loop. Each contract says that the object's `View()` (or `Contents`, or `Waiting()`) after
  the call is a function of the one before. `List` is a real linked structure on the heap.
- **Asynchrony is a choice of the next step.** A call is split where it awaits: `DoResolve` and `Finish`, `Get` and
  `OnResource`, `DestroyAll` and `OnEmpty`. The continuations, due timers, the server and the network are operations
  beside the callers' own, and a run is any feasible sequence of them. Results are about all runs.
- **The runtime is explicit.** A promise is a cell with the key it was made for, how often a settle function of it was
  called, and what it follows or carries. A `doResolve` call that has not finished is a task. A timer has a key and a
  due time on a logical clock. A promise-like argument of `resolve` may settle in any way at any time.
- **Side conditions are stated as guards of operations**, and shown exact where the code needs them (`QuietIsExact`,
  `KeepsIsExact`, `ClearIsHarmlessIff`, `DocumentedBoundIff`, `DestroyAllIsCompleteIff`, `GetReturnsIff`,
  `PutGoesOutIff`, `TurnCanComeIff`, `TimesOutIff`, `NothingIsLostInOrderIff`, `CamelCaseIsCompleteIff`).

| files | what they hold |
|---|---|
| `PromiseMapSpec`, `PromiseMapSteps`, `PromiseMapRuns`, `PromiseMap` | the steps; what each does, as a caller sees it; what every run keeps; the class |
| `PromiseMapLaws`, `PromiseMapExpiry`, `PromiseMapStatus`, `PromiseMapRejectAll`, `PromiseMapValues` | promises answered once, and expiry; when expiry is as documented; when the recorded status is true; whom `rejectAll` answers; where values come from |
| `List`, `PromiseQueue` | the linked list and the queue of promises |
| `ResourcePoolSpec`, `ResourcePoolRuns`, `ResourcePool` | the steps; conservation; the class |
| `ResourcePoolLaws`, `ResourcePoolDestroy` | order and waiting; when `destroyAll` destroys all |
| `ResourcePoolUse`, `ResourcePoolUseLaws` | clients that go through `use`; exclusion, one return each, termination |
| `RedisBackendSpec`, `RedisBackendSteps`, `RedisBackend` | the protocol; what its channels are and what each step does; the class |
| `RedisBackendPool`, `RedisBackendQueue` | why the pool is one line for one connection; what the line keeps |
| `RedisBackendLaws`, `RedisBackendRace`, `RedisBackendFailures` | what a `get` may return; the race of `get` and `put`; when a failure is returned |
| `RedisBackendProgress`, `RedisBackendOutcomes` | that runs become still; which gets and puts are through then |
| `RedisBackendStuck`, `RedisBackendTurns`, `RedisBackendTimeouts`, `RedisBackendOwn` | when the line is stuck, and that it can move otherwise; which gets can time out; why a backend does not answer itself |
| `RpcBackend` | correlation of replies and cancellation |
| `GetTimeouts` | the timeouts of both backends' `get` on a time line |
| `Utility`, `IntegerLiterals`, `RedisTcpUri`, `Uri`, `QueryParser` | parsing of integers and camelCase; exactly what is parsed, and as what; database numbers; renaming of query keys; query descriptors |
| `JsMap`, `Sequences`, `Wrappers` | JavaScript's insertion-ordered `Map`, sequences without repetition, options and results |

Where the code and its comments or documentation differ, the model follows the code:

- `toCamelCase` is said to convert from snake_case, but replaces only the first underscore before a lower-case letter
  (`src/utility.ts:104-111`); `CamelCaseIsCompleteIff` says when that is enough.
- `delete` on `PromiseMap` is said to remove an entry, but a resolution of the key that is still outstanding records a
  status for it afterwards (`src/containers/promise_map.ts:316-331`); `NoisyOperationsLie` exhibits it.
- Entries are said to stay for the timeout, but `clear` leaves timers running that later evict entries of the same
  keys early (`src/containers/promise_map.ts:186-202`); `ClearIsHarmlessIff` says when it does not.
- The timeout is said to run from settlement, but runs from the call of `resolve` or `reject`
  (`src/containers/promise_map.ts:48-49`, `210-233`): what a promise-like was given for can expire sooner, even while it
  is pending; `DocumentedBoundIff`, `ExpiresWhilePending`.
- `rejectAll` is said to reject all pending promises, but passes by one whose key was removed and asked for again while
  a resolution was outstanding (`src/containers/promise_map.ts:131-150`); `KeepsIsExact` says when none is passed by.
- `destroyAll` is said to wait until all resources are returned, but hears only the moment when none is in use
  (`src/containers/resource_pool.ts:153-186`). A resource that is created or in flight at the call can escape it, and
  so can one that is handed to a waiter while the last other one is returned; `DestroyAllIsCompleteIff` gives the exact
  condition on the state in which it is called.
- The timeout of `get` is said to be the time before the promise is rejected. Over RPC it has no effect: the race is
  set up after the raw message has arrived (`src/amqp/backend.ts:120-128`; `RpcTimeoutHasNoEffect`). Over Redis it has
  none if the map knows the task, and else it runs only from the moment the pool grants a connection
  (`src/redis/backend.ts:135-157`; `RedisTimeoutHasEffectIff`, `TimesOutIff`).
- A Redis `get` is said to wait for a successful result, but any result that is delivered while it listens is returned
  (`src/redis/backend.ts:104-107`, `215-225`); `FirstArrivalDecides`, `FailuresComeThroughTheMap`.
- A Redis `get` keeps the backend's only free connection while it waits, so it holds up every `put`, `delete` and `get`
  of an unknown task behind it, the `put` of its own result among them (`src/redis/backend.ts:71-92`, `139-157`).
  `PutGoesOutIff` and `GetReturnsIff` say which of them come through, `TurnCanComeIff` when the line can move at all.

## Model

| member | source | states |
|---|---|---|
| PromiseMapLaws.EveryGetterIsOwedOrAnsweredOnce | src/containers/promise_map.ts:158-382 | In every run, a promise made by `get` either sits unanswered in its key's entry or one of its settle functions was called exactly once |
| PromiseMapLaws.OutcomesAreFinal | src/containers/promise_map.ts:109-382 | In every run, no operation takes back a promise's outcome, key or calls |
| PromiseMapLaws.OwnedKeysHaveOneStatus | src/containers/promise_map.ts:61-96 | In every run, an owned key is exactly one of pending, fulfilled and rejected; a key left behind by a late completion holds neither functions nor timer |
| PromiseMapSteps.GetLaw | src/containers/promise_map.ts:158-173 | An owned key gives the promise it has, whatever became of it, and nothing changes; any other gets a new, pending one |
| PromiseMapSteps.ResolveLaw | src/containers/promise_map.ts:109-268 | The promise of a key that waits follows the new resolution, any other key's promise is replaced by it; the key is pending, its old timer is stopped, a new one is due one timeout from now, and nothing else changes |
| PromiseMapSteps.RejectLaw | src/containers/promise_map.ts:123-298 | The promise of a key that waits is rejected, any other key has a new rejected one; its timer is replaced, and nothing else changes |
| PromiseMapSteps.ResolutionArrives | src/containers/promise_map.ts:240-311 | The promise a key has after it was resolved carries the outcome of that resolution when it ends, whatever happened in between |
| PromiseMapSteps.CompleteLaw | src/containers/promise_map.ts:300-331 | All that follow a resolution have its outcome when it ends, its key's status says so, and nothing else changes |
| PromiseMapSteps.DeleteLaw | src/containers/promise_map.ts:366-382 | `delete` removes any key, settled or not: it is in neither map, its timer is stopped, whoever waited for it is rejected as deleted, all else is as it was, and the next `get` makes a new promise |
| PromiseMapSteps.FireLaw | src/containers/promise_map.ts:340-382 | A timer that fires does the same to its key, with another reason |
| PromiseMapSteps.ClearLaw | src/containers/promise_map.ts:186-202 | `clear` empties both maps and rejects exactly the promises that waited, and stops no timer |
| PromiseMapRuns.RunSound | src/containers/promise_map.ts:158-382 | Every run keeps the index of the two maps, the tracking of promises, linearity of settle functions and the timers' invariant |
| PromiseMapLaws.OwnedKeysWaitOnce | src/containers/promise_map.ts:210-233 | With a timeout, in every run, an owned key has settle functions or a timer, never both and never neither |
| PromiseMapLaws.ExpiryIsExact | src/containers/promise_map.ts:340-382 | In every run in which `clear` is called only when no timer runs, a key can be evicted if and only if it is owned, its promise does not wait, and the last call of the run that settled it was at least one timeout ago |
| PromiseMapLaws.ExpiryIsNeverEarly | src/containers/promise_map.ts:340-382 | In every such run, the live timers are exactly the recorded ones, and one that fires evicts an owned key that the run last settled at least one timeout ago |
| PromiseMapExpiry.DocumentedBoundIff | src/containers/promise_map.ts:48-49 | When a resolution completes, its key stays for one timeout from then on if and only if no time has passed since the run last called `resolve` or `reject` of it |
| PromiseMapExpiry.ExpiresWhilePending | src/containers/promise_map.ts:210-233 | A key resolved with a promise-like can expire while it is pending |
| PromiseMapLaws.NoStraysUnlessCleared | src/containers/promise_map.ts:186-202 | Timers stay the recorded ones under every operation except exactly a `clear` while a timer runs |
| PromiseMapLaws.ClearIsHarmlessIff | src/containers/promise_map.ts:186-202 | With a positive timeout, `clear` can be followed by a settlement whose entry can be evicted at once if and only if a timer was running |
| PromiseMapLaws.ClearCanExpireEarly | src/containers/promise_map.ts:186-202 | A run from the empty map that gets there |
| PromiseMapStatus.StatusIsTheTruth | src/containers/promise_map.ts:70-96 | If no operation disturbs a key with an outstanding resolution, a key is pending while one is outstanding and otherwise has its promise's outcome |
| PromiseMapStatus.NoisyOperationsLie | src/containers/promise_map.ts:300-331 | An operation that disturbs one can be followed by a completion that records a false status |
| PromiseMapStatus.QuietIsExact | src/containers/promise_map.ts:300-331 | From accurate records, an operation leaves them accurate whatever completes next if and only if it disturbs no outstanding resolution |
| PromiseMapRejectAll.RejectAllPointwise | src/containers/promise_map.ts:137-150 | `rejectAll` rejects every pending entry that holds functions with the reason, and changes no other entry or promise |
| PromiseMapRejectAll.RejectAllAnswersAllIff | src/containers/promise_map.ts:137-150 | It leaves no promise of `get` unanswered if and only if every entry that holds functions is recorded as pending |
| PromiseMapRejectAll.RejectAllAnswersEveryGetter | src/containers/promise_map.ts:131-150 | In every run that deletes, clears or expires no key with an outstanding resolution, however often keys are settled again, it answers all |
| PromiseMapRejectAll.KeepsIsExact | src/containers/promise_map.ts:131-150 | From a state with that guarantee, an operation keeps it, whatever is asked for and completes next, if and only if it removes no key with an outstanding resolution |
| PromiseMaps.PromiseMap.Get | src/containers/promise_map.ts:158-173 | The promise of the key, made and registered if there is none |
| PromiseMaps.PromiseMap.Resolve | src/containers/promise_map.ts:109-268 | The key follows a new `doResolve` promise, through its held promise if it has one; its expiry restarts; says whether it was new |
| PromiseMaps.PromiseMap.Reject | src/containers/promise_map.ts:123-298 | The held promise of the key is rejected, or a rejected one takes the key's place; its expiry restarts; says whether it was new |
| PromiseMaps.PromiseMap.ResolveExisting | src/containers/promise_map.ts:240-255 | Calls the held promise's function or replaces the promise, and drops the functions from the entry |
| PromiseMaps.PromiseMap.Finish | src/containers/promise_map.ts:300-311 | The end of a `doResolve` call: the status of its key, then its own promise |
| PromiseMaps.PromiseMap.SetTimeout | src/containers/promise_map.ts:340-359 | The recorded timer is cancelled and replaced, and nothing happens without a timeout |
| PromiseMaps.PromiseMap.RejectAll | src/containers/promise_map.ts:137-150 | One visit of each key while the entries are rewritten; returns exactly the number rejected |
| PromiseMaps.PromiseMap.DoDelete | src/containers/promise_map.ts:366-382 | A held promise is rejected, the timer cancelled, both maps lose the key |
| PromiseMaps.PromiseMap.Clear | src/containers/promise_map.ts:186-202 | The loop rejects exactly the promises whose functions are held; returns the number of owned keys |
| JsMap.OrderedMap.OrderIsKept | src/containers/promise_map.ts:137-150 | The map that is iterated keeps the place of a key that is set again, puts a new one last, and keeps the others in order when one is deleted |
| Lists.Replay | src/containers/list.ts:63-227 | Over every sequence of operations, the list contains and gives back what a mathematical sequence does |
| Lists.PushAndShiftIsFifo | src/containers/list.ts:92-148 | Pushed to and shifted from only, the list is a queue that loses nothing |
| Lists.List.From | src/containers/list.ts:63-71 | A list with the elements in order |
| Lists.List.Iterate | src/containers/list.ts:168-179 | The iterator yields the contents in order |
| Lists.List.PushOne | src/containers/list.ts:185-203 | Head, tail, links and size stay consistent; the element is last |
| Lists.List.Pop | src/containers/list.ts:106-123 | The last element, or nothing of an empty list |
| Lists.List.Shift | src/containers/list.ts:131-148 | The first element, or nothing of an empty list |
| Lists.List.Unshift | src/containers/list.ts:157-163 | The arguments in front, in their order |
| PromiseQueues.PromiseQueue.SettleOne | src/containers/promise_queue.ts:110-126 | Only the promise that waited longest is settled |
| PromiseQueues.PromiseQueue.SettleWhile | src/containers/promise_queue.ts:133-141 | Every waiter is settled, in order, and counted |
| PromiseQueues.SettleEachPointwise | src/containers/promise_queue.ts:69-81 | Settling all gives each waiter the settlement and no other promise |
| ResourcePoolLaws.ResourcesAreConserved | src/containers/resource_pool.ts:78-96 | In every run the count of `create` calls equals creating, failed, in flight, in use, unused and destroyed together, apart from each other, and never exceeds the maximum |
| ResourcePoolLaws.WaitersAreServedInOrder | src/containers/resource_pool.ts:153-167 | The waiter at index i gets exactly the resource of the (i+1)-th successful return from now, and waits until then |
| ResourcePoolLaws.UnusedAreReusedInOrder | src/containers/resource_pool.ts:191-203 | The unused resource at index i goes to the (i+1)-th `get` from now |
| ResourcePoolLaws.GrantsAreFinal | src/containers/resource_pool.ts:120-125 | A request keeps the one resource it was granted |
| ResourcePoolLaws.WaitersHaveHope | src/containers/resource_pool.ts:191-203 | Waiters imply that nothing is unused and the pool is full; without failures and destruction some resource is creating, in flight or in use |
| ResourcePoolLaws.DestroyedForGood | src/containers/resource_pool.ts:173-186 | A destroyed resource is destroyed once and is never held, unused or handed out again |
| ResourcePoolDestroy.ListenersHearIff | src/containers/resource_pool.ts:153-180 | Every `destroyAll` call that listens hears it when the last resource in use is returned and nobody waits for it, and at no other time |
| ResourcePoolDestroy.DestroyAllDestroysAll | src/containers/resource_pool.ts:153-186 | With nothing creating or in flight, and no waiter unless at most one resource is in use, and no later `get`, `destroyAll` destroys all resources ever issued exactly once, the last returned one included |
| ResourcePoolDestroy.DestroyAllMisses | src/containers/resource_pool.ts:153-186 | From any other state with no earlier `destroyAll` outstanding, a run without `get` after which all is returned and some resource is not destroyed |
| ResourcePoolDestroy.DestroyAllIsCompleteIff | src/containers/resource_pool.ts:153-186 | So every such run destroys all if and only if the state was of the first kind |
| ResourcePools.ResourcePool.Get | src/containers/resource_pool.ts:191-203 | The first unused resource, else a new one below the maximum, else a place at the end of the queue |
| ResourcePools.ResourcePool.OnResource | src/containers/resource_pool.ts:120-125 | The resource enters `inUse` only in the continuation |
| ResourcePools.ResourcePool.Return | src/containers/resource_pool.ts:153-167 | Throws and changes nothing for what is not in use; else the longest waiter gets the resource, or it becomes unused after "empty" was emitted if it was the last in use |
| ResourcePools.ResourcePool.Then | src/containers/resource_pool.ts:131-141 | A value returns the resource and is forwarded, unless `return` throws; an error passes |
| ResourcePools.ResourcePool.Catch | src/containers/resource_pool.ts:142-147 | An error returns the resource and is forwarded, unless `return` throws; a value passes |
| ResourcePoolUseLaws.OneOfThenAndCatchReturns | src/containers/resource_pool.ts:131-147 | Whatever happens between the two, a client that held its resource returns it by exactly one of them |
| ResourcePoolUseLaws.CatchTakesIff | src/containers/resource_pool.ts:131-147 | A client that did not hold it is refused by the first, and the second changes the pool if and only if somebody has it by then |
| ResourcePoolUseLaws.CatchTakesFromAnother | src/containers/resource_pool.ts:131-147 | For instance, it takes it from the one who got it between the two |
| ResourcePoolUseLaws.OthersShareTheRest | src/containers/resource_pool.ts:104-125 | In every run, a call that keeps its resource leaves one less than the maximum for all others; of the Redis backend's two connections, one |
| ResourcePools.ResourcePool.DestroyAll | src/containers/resource_pool.ts:173-186 | Listens if something is in use, else destroys what is unused and gives the replies in order |
| ResourcePools.ResourcePool.OnEmpty | src/containers/resource_pool.ts:178-186 | A call that heard "empty" destroys what is unused by then and gives the replies in order |
| ResourcePools.ResourcePool.NumInUse | src/containers/resource_pool.ts:87-89 | Counts everything owned that is not unused, creations, failures and destroyed resources among them |
| ResourcePoolUseLaws.HoldersExcludeEachOther | src/containers/resource_pool.ts:104-147 | In every run no two calls of `use` hold the same resource, and none holds a destroyed one |
| ResourcePoolUseLaws.EveryUseReturnsOnce | src/containers/resource_pool.ts:104-147 | In every run a call that is done returned its resource exactly once, any other not at all |
| ResourcePoolUseLaws.OutcomesAreForwarded | src/containers/resource_pool.ts:104-147 | A call that is done has the outcome its body settled with |
| ResourcePoolUseLaws.EveryBatchEnds | src/containers/resource_pool.ts:104-203 | Any batch of n calls takes at most 5n steps in any order, and then all are done, nothing is in use and everything owned, at most min(n, max), is unused |
| ResourcePoolUseLaws.UnlessQuiescentSomethingHappens | src/containers/resource_pool.ts:104-203 | Until then some step can always be taken |
| RedisBackendSteps.ChannelIsRecognizedIff | src/redis/backend.ts:47-49 | A channel is recognized as a task's exactly if it is "celery-task-meta-" and the identifier, which is five groups of 8, 4, 4, 4 and 12 hexadecimal digits of either case with dashes between |
| RedisBackendSteps.PutLaw | src/redis/backend.ts:102-111 | A put, of this backend or another, stores its message, sends it to its task's channel, and changes nothing else |
| RedisBackendSteps.DeleteHereLaw | src/redis/backend.ts:171-177 | A delete that has its turn removes the task from the map, tells whoever waits for it, then removes it from the server, and nothing else |
| RedisBackendSteps.GrantLaw | src/redis/backend.ts:71-80 | Whoever has its turn is the next in line when nobody had the connection, and a `get` that has its turn sends GET |
| RedisBackendSteps.AskLaw | src/redis/backend.ts:125-139 | A `get` of a known task waits for the map's promise, any other goes to the end of the line |
| RedisBackendSteps.ServeLaw | src/redis/backend.ts:140-141 | The reply to GET is what is stored for the task, or nothing |
| RedisBackendSteps.ReceiveLaw | src/redis/backend.ts:140-153 | A success is returned and the map stays as it was; for anything else the `get` waits for the map's promise |
| RedisBackendSteps.DeliverLaw | src/redis/backend.ts:215-225 | A message on the channel of a UUID resolves that task in the map, and any other changes nothing |
| RedisBackendSteps.WakeLaw | src/redis/backend.ts:129-133 | A listening `get` gives its caller what became of its promise, value or error |
| RedisBackendLaws.OnlyWhatWasPut | src/redis/backend.ts:125-158 | In every run, with timeouts, deletions and evictions, a `get` returns only a message that was put for its task |
| RedisBackendRace.EveryGetGetsThePut | src/redis/backend.ts:102-158 | Under every order of granting the connection, store-and-publish, reply, delivery and listening, and with any timeouts: if the task is only put as one result that stays, no `get` of it fails but by its timeout, and one that returns returns that result |
| RedisBackendRace.OtherIdentifiersAreLost | src/redis/backend.ts:47-49 | A run in which a task whose identifier is no UUID is put and delivered while its `get` listens, and nothing is left to wake it |
| RedisBackendFailures.FailuresComeThroughTheMap | src/redis/backend.ts:139-153 | In every run, a result that is returned and is no success was delivered to the map, not found by GET |
| RedisBackendFailures.FirstArrivalDecides | src/redis/backend.ts:215-225 | The first result delivered for a listening `get` is what it returns, success or not, whatever is put or deleted afterwards, and it has returned it when no step is left |
| RedisBackendPool.ProtocolMoves | src/redis/backend.ts:71-158 | Every event of the protocol moves its line as a line moves: one more asks, the next has its turn when nobody is at it, or whoever is at it is done |
| RedisBackendPool.PoolIsALine | src/redis/backend.ts:71-92 | In every run of a pool of two whose first client never returns its connection, the others hold one at a time, in the order in which they asked, as such a line says |
| RedisBackendPool.NextHasTurn | src/redis/backend.ts:71-92 | When nobody is at it, that pool can bring the next one to its turn |
| RedisBackendProgress.DeliveryEnds | src/redis/backend.ts:71-177 | However ordered, a run takes at most five steps for each `get`, `put` and `delete` of the backend, and two for a `put` of another client |
| RedisBackendProgress.UnlessSettledOrBlocked | src/redis/backend.ts:71-177 | Until all is delivered and the line is empty or held by a `get` that listens for what is not there, such a step can be taken |
| RedisBackendProgress.StillIff | src/redis/backend.ts:71-177 | And no step is left exactly then |
| RedisBackendOutcomes.TurnComesIff | src/redis/backend.ts:102-177 | When no step is left, a job has had its turn if and only if every `get` before it in line has finished; then a put has gone out |
| RedisBackendOutcomes.TurnCameIff | src/redis/backend.ts:102-177 | After any run, a job that joins the line has its turn in the end if and only if every `get` that was ahead at the call gave up or had its task put |
| RedisBackendOutcomes.PutGoesOutIff | src/redis/backend.ts:102-111 | So a `put` goes out exactly then, and is still in line otherwise |
| RedisBackendOutcomes.GetReturnsIff | src/redis/backend.ts:125-158 | And a `get` has returned if and only if its task was put, it did not give up, and the map knew its task at the call or every `get` ahead gave up or had its task put |
| RedisBackendOutcomes.BlockerWasNotPut | src/redis/backend.ts:135-157 | When no step is left and a listening `get` holds the connection, its task was not put |
| RedisBackendOutcomes.AllGetsReturnIff | src/redis/backend.ts:71-158 | All gets that did not give up have returned if and only if the tasks of all of them were put |
| RedisBackendStuck.StuckForGood | src/redis/backend.ts:125-177 | If a `get` without a timeout, for an identifier that is no UUID, holds the connection and was given no success by GET, the line never moves again, whatever happens |
| RedisBackendTurns.TurnCanComeIff | src/redis/backend.ts:102-177 | After any run, a job that joins the line can come to its turn in some continuation if and only if that was not so at the call |
| RedisBackendOwn.ListenerHoldsUpItsBackend | src/redis/backend.ts:139-157 | A `get` that listens with the connection never returns by what its own backend does, timeouts and evictions included, and nothing behind it has its turn before it gives up |
| RedisBackendOwn.ListenersGetHeldUp | src/redis/backend.ts:125-157 | A `get` that finds no result gets there, and is stuck there if and only if it has neither a UUID nor a timeout |
| RedisBackendOwn.OwnPutNeverArrives | src/redis/backend.ts:102-158 | In every run, a `get` of an unknown task never returns a result that is put only through its own backend and after it |
| RedisBackendQueue.TimeoutsAreNeverEarly | src/redis/backend.ts:139-157 | In every run, a `get` that gave up has a timeout and was granted the connection at least that long ago |
| RedisBackendTimeouts.TimesOutIff | src/redis/backend.ts:125-157 | Asked for after any run, a `get` times out in some continuation if and only if it has a timeout, the map does not have its task, and the line is not stuck |
| RedisBackendRace.OtherIdentifiersAreNeverAnswered | src/redis/backend.ts:215-225 | For an identifier that is no UUID, a `get` that listens never gets a value |
| RedisBackends.RedisBackend.constructor | src/redis/backend.ts:62-92 | A pool of two connections, the first requested for the subscriber, and a map with a timeout of one day |
| RedisBackends.RedisBackend.StartGet | src/redis/backend.ts:125-139 | Listens at once if the map has the task, else asks the pool for a connection |
| RedisBackends.RedisBackend.OnReply | src/redis/backend.ts:140-153 | Returns a success, and listens for anything else |
| RedisBackends.RedisBackend.OnMessage | src/redis/backend.ts:215-225 | Resolves the task of the channel, or throws exactly if there is none |
| RpcBackends.RepliesAreCorrelated | src/amqp/backend.ts:287-298 | In every run, whoever asked for a task gets only a message that arrived with that correlation identifier |
| RpcBackends.ReplyReachesItsGetters | src/amqp/backend.ts:287-298 | Once the resolution of a received message has ended, the promise that getters of its correlation were or are given carries it, whatever happened in between |
| RpcBackends.CancellationAnswersEveryGetter | src/amqp/backend.ts:287-292 | When no message is received, which is when the consumer was cancelled, in a run that removed no key with an outstanding resolution, exactly the unanswered getters are rejected, with that reason, and none is left |
| RpcBackends.EndAnswersEveryGetter | src/amqp/backend.ts:159-163 | And the same when the backend ends, with its reason |
| RpcBackends.RpcBackend.OnMessage | src/amqp/backend.ts:287-298 | A message resolves its correlation; no message rejects all |
| RpcBackends.RpcBackend.Delete | src/amqp/backend.ts:134-140 | The task is gone, with its result if it had one; the reply says whether it was there |
| PromiseMapValues.ValuesWereOffered | src/containers/promise_map.ts:240-331 | In every run, with promise-likes that settle as they please, a promise carries only a value offered to its own key |
| GetTimeouts.FollowsOrTimesOut | src/utility.ts:171-191 | With a timeout, a promise is followed if it settles in time, and else there is an error exactly when time is up |
| GetTimeouts.RpcTimeoutHasNoEffect | src/amqp/backend.ts:120-128 | An RPC `get` settles when its message arrives, not before and not later, with what it parses to, whatever the timeout |
| GetTimeouts.RpcKeepsItsBoundIff | src/amqp/backend.ts:120-128 | It settles within its timeout if and only if the message arrives in time by itself |
| GetTimeouts.RedisGetMeans | src/redis/backend.ts:125-158 | How and when a Redis `get` ends, for a known and an unknown task, every fate of the grant, every reply and every timeout |
| GetTimeouts.RedisTimeoutHasEffectIff | src/redis/backend.ts:125-158 | The timeout of a Redis `get` changes what happens if and only if the map did not know the task and the response comes later than one timeout after the grant of the connection |
| GetTimeouts.RedisKeepsItsBoundIff | src/redis/backend.ts:125-158 | It settles within its timeout if and only if a known task's result comes in time or, for an unknown one, the connection is granted at once or refused in time or the response comes in time |
| IntegerLiterals.ParsesIff | src/utility.ts:46-61 | A string is read as n exactly if it is, in either case and with white space around it, n in base 2, 8, 10 or 16 with the base's prefix and any leading zeros (in base 10 none), exactly below 2^53; all else is an error |
| IntegerLiterals.DigitIsWorthItsPlace | src/utility.ts:207-208 | The digits of a base are the first of 0123456789abcdef, each worth its place |
| Utility.ParseInvertsLiteral | src/utility.ts:46-61 | Below 2^53, parsing inverts printing in bases 2, 8, 10 and 16 with their prefixes, whatever the case and the white space around |
| Utility.EachLiteralInItsRadix | src/utility.ts:204-233 | Every string is read in the radix of the one alternative it belongs to, and is an error if it belongs to none |
| Utility.LiteralsAreUnambiguous | src/utility.ts:207-208 | The four alternatives are disjoint |
| Utility.PaddingIsIgnored | src/utility.ts:214-215 | White space around a string never changes how it is parsed |
| Utility.CaseIsIgnored | src/utility.ts:214-215 | Neither does replacing letters of ASCII by their capitals |
| Utility.CamelCaseReplacesFirst | src/utility.ts:110-111 | The first underscore before one of the letters from a to z is replaced, with that letter, by its capital, and nothing else |
| Utility.CamelCaseTakesOne | src/utility.ts:110-111 | Each conversion removes exactly one such underscore; only names without one are fixed |
| Utility.CamelCaseIsCompleteIff | src/utility.ts:104-111 | The result is camelCase throughout if and only if there was at most one |
| RedisTcpUri.DbIsDecimal | src/redis/uri/tcp.ts:191-203 | A path names a database exactly if a digit follows its slash, and then the decimal value of all digits there, leading zeros or not |
| Uri.EveryKeyIsRenamed | src/uri.ts:281-297 | If no key clashes with a later one, the reduction renames each key on its own and loses nothing |
| Uri.NothingIsLostInOrderIff | src/uri.ts:281-297 | In a given order, the reduction loses nothing, and is that renaming, if and only if no two keys share a form and no key's form is a key that comes later |
| Uri.StepMoves | src/uri.ts:281-293 | One step moves the value of its key to the key's form, over any that was there, and touches nothing else |
| Uri.LastKeyWins | src/uri.ts:281-297 | Where keys share a form, and no form is a key that comes later, the last of them decides the value |
| Uri.NothingIsLostIff | src/uri.ts:281-297 | No order of the keys loses an entry if and only if no key's form is another key's form or another key |
| QueryParser.ParseIsPointwise | src/query_parser.ts:71-85 | A target holds what the last entry with that target and a present source parses; any other field is the initial one |
| QueryParser.SomeEntryIsLast | src/query_parser.ts:71-85 | If any present entry has the target, one of them is the last |
| QueryParser.ParseFailsIff | src/query_parser.ts:71-85 | Parsing fails exactly if a present entry's parser does, with the error of the first |
| QueryParser.LastDescriptorCounts | src/query_parser.ts:50-56 | A source described several times is parsed as its last descriptor says, into its own name if that has no target, and as it is if that has no parser |
| QueryParser.FirstPositionCounts | src/query_parser.ts:50-56 | The entries stand in the order in which their sources were described first |

## Left out

- Connections, channels, drain events and publish loops of amqplib and ioredis: their meaning is not in this repository; only the steps put, serve, reply and deliver remain.
- Failing connections and `end` of the Redis backend.
- Message codecs (JSON, YAML, zlib, Base64): a message is stored, published and parsed as the same value; only success is told apart from other statuses.
- Exact order of microtasks, and the wrapper promises that async functions return: continuations run in any order. In the runs of `ResourcePoolUse`, `then` and `catch` are one step, which `OneOfThenAndCatchReturns` justifies.
- Promises that are resolved with themselves, and thenables with side effects in `then`: a promise-like argument settles from outside, at any time or never.
- `undefined` as an element or resource: `List` gives options, and `create` gives distinct, defined resources.
- A `destroy` that throws, which would stop the loop over the unused resources, or whose reply is a rejection: `destroy` is a function that gives its reply.
- The key prefix that ioredis adds: it is taken to stand before the channel of a publication as the subscription's pattern expects it.
- Subscription of the Redis backend that is not active yet when a result is published: every put in the model reaches the wire.
- Numbers from 2^53 on: `parseInteger` gives a tagged value there, since JavaScript rounds it.
- Order of the keys of a renamed query, and integer-like keys that JavaScript lists first: the reduction is shown for every order of the input, and its result is a map.
- Host, scheme, port, virtual-host and query regular expressions, option copying, `createUri`, factories, tasks, failover, `NullBackend` and the `Packer`: one-branch copying or library calls that would only add easy members.
- `parseBoolean`, `filterMapEvent`: a single switch and a library event.
- Ties between a timer and a promise that settles at the same moment: the promise wins in `GetTimeouts`, as one that is settled already does.
- RedisBackendRace.EveryGetGetsThePut: does not cover a result that is deleted, expired or evicted meanwhile, because then a `get` may fail as documented; `OnlyWhatWasPut` covers those runs.
- RedisBackendOutcomes.GetReturnsIff: speaks only of a task with a UUID that is put as one result that stays, and asks the same of the gets ahead, where their puts are mentioned; `TurnComesIff` needs neither, and results for other identifiers are lost (`OtherIdentifiersAreLost`).
- GetTimeouts.RpcTimeoutHasNoEffect: is about a time line and not about runs of `RpcBackend`, because the order of microtasks and timers that it rests on is not part of the runs.
- ResourcePoolUseLaws.EveryBatchEnds: does not cover a failing `create` or `destroyAll`, because the pool never lowers its count again and waiters may then wait for ever.
