# Verified models of three stateful components of Void

This project models, in Dafny, three parts of the Void editor that keep state over many interleaved or nested steps, and proves what they promise over whole runs.

**The AMD module manager** (`void-editor/src/vs/loader.js`). `LoaderState` is its bookkeeping as a value, with the invariant and the atomic updates; `ModuleManagers` is the class whose methods perform them on its fields; `LoaderRuns` holds the theorems. Foreign code (script loaders, factories, errorbacks, plugins) is an arbitrary finite list of actions that is consumed whenever the manager hands over control, so the theorems cover every nesting of `defineModule` and load errors inside factories and loaders. `ModuleIds` is the id normaliser, character by character, against a stack over segments. `ScriptLoaders` is the loader that loads each script once.

**The RPC layer of the command line** (`void-editor/cli/src/rpc.rs`). `Streams` is the map of stream records, one method for each critical section; `StreamRuns` interleaves these sections with single writes and shutdowns; `StreamTheorems` states ownership, conservation and the end of streams, for each write half, so that ids may be used again. `OutgoingStreams` is the sending side, judged by a receiver that follows one stream. `RpcCalls` is the matching of responses and callbacks, with the wrapping id counter that calls and streams share.

**Concatenation of source maps** (`void-editor/scripts/playground-server.ts`). `Vlq` has the 32-bit operators and the numbers of section 6 of ECMA-426; `DynamicBuffers` the growing buffer; `Mappings` a reference reader of mappings; `Remapping` the decoding loop, kept in step with a reader of its input and a reader of its output; `SourceMapBuilders` the builder; `Concatenations` any sequence of calls; `Bundles` the depth-first bundler. `Graphs` has the facts on reachability used on both sides.

Where the code does not do what one would expect of it, the model follows the code:

- A factory that throws marks its module as failed and still wakes the modules that wait for it. A module that is resolved later and depends on the failed one fails in its turn, and that wakes nobody, so modules that wait for it wait for ever although everything requested was defined (`LoaderRuns.ThrowingFactoryStrands`). The exact condition for completeness is `LoaderRuns.IncompleteIffBlocked`; without load errors and throwing factories it is that everything waited for was defined (`LoaderRuns.NoDeadlock`).
- `Streams.insert` replaces a record that is still there, and its write half is lost (`StreamTheorems.ReuseLoses`); inserting is safe exactly when the id has no record (`StreamTheorems.ReuseIsSafe`). Ids of calls and streams repeat exactly after 2^32 of them (`RpcCalls.SharedIds`).
- The normaliser never resolves the last segment: `a/..` stays. It is the full stack resolution exactly under the condition of `ModuleIds.FullyResolved`.
- The script loader can answer a later request first (`ScriptLoaders.SynchronousReentry`); `ScriptLoaders.Idle` says exactly when.
- `addVLQ` and the reader use 32-bit shifts: numbers survive exactly below 2^30 (`Vlq.VlqRoundTrip`).
- The digit table gives the padding character `=` the number 64, which the decoding loop reads as the digit 0; the reference reader rejects it, so such maps are not well-formed here, though `addSource` accepts them.
- A source map with more semicolons than its content has lines puts mappings and output out of step for good; `Concatenations.InLine` says exactly when they agree.
- `RpcCaller::call` sends before it inserts its callback; a response in between is lost (`RpcCalls.ResponseBeforeInsert`).

To verify: `dafny verify dfyconfig.toml --resource-limit 2000000 --verification-time-limit 0 --warn-contradictory-assumptions`.

## Model

| member | source | states |
|---|---|---|
| `LoaderRuns.NoDeadlock` | `void-editor/src/vs/loader.js:1658-1721` | In every consistent idle state in which no load error was reported and no factory threw, all modules are complete and unfailed if and only if everything waited for has been defined, whatever cycles the declared dependencies have. |
| `LoaderRuns.FailuresHaveCauses` | `void-editor/src/vs/loader.js:1464-1498` | A module fails only if its own load error was reported or its factory threw, or if its declared dependencies lead to such a module. |
| `LoaderRuns.UnfailedComplete` | `void-editor/src/vs/loader.js:1658-1721` | If no module has failed, all are complete if and only if everything waited for has been defined. |
| `LoaderRuns.RequestedAllComplete` | `void-editor/src/vs/loader.js:1658-1787` | When everything requested has been defined, no load error was reported, no factory threw, and no plugin that resources wait for is incomplete, every module is complete and unfailed. |
| `LoaderRuns.OrdinaryAllComplete` | `void-editor/src/vs/loader.js:1658-1721` | With ordinary dependencies only, no load error and no throwing factory, every module is complete as soon as everything requested has been defined. |
| `LoaderRuns.ResourcesReachTheirPlugins` | `void-editor/src/vs/loader.js:1699-1714` | A resource that is neither defined nor requested is kept in the list of its plugin, which has been requested and has not completed, or failed. |
| `LoaderRuns.PluginsAreAsked` | `void-editor/src/vs/loader.js:1698-1714` | Each plugin dependency of a waiting module is complete, was given up at a cycle, or has gone through its plugin: the plugin is there or requested, and the resource is there, requested, or kept for it. |
| `LoaderRuns.RequestsAreWanted` | `void-editor/src/vs/loader.js:1591-1655` | The script loader is asked only for what a module declared as an ordinary dependency or names as its plugin, and a plugin only for declared resources of its own, after it was complete. |
| `LoaderRuns.CyclesAreKnown` | `void-editor/src/vs/loader.js:1683-1694` | `_hasDependencyCycle` is set exactly when an edge has been given up. |
| `LoaderRuns.IncompleteIffBlocked` | `void-editor/src/vs/loader.js:1658-1721` | An idle module that has not failed is incomplete exactly when its waiting leads, over any number of edges, to a module that never arrived or that failed. |
| `LoaderRuns.CountIsOccurrences` | `void-editor/src/vs/loader.js:1697-1720` | The unresolved count of an incomplete module whose resolving has returned is positive and equals its occurrences, with multiplicity, in all waiting lists and in the rest of the lists being walked. |
| `LoaderRuns.FactoryAfterDependencies` | `void-editor/src/vs/loader.js:1658-1761` | No factory runs twice and no module completes twice. When a factory starts, its module becomes complete, and every dependency other than `exports`, `module` and `require`, with or without a factory, was complete before that unless its edge was given up at a cycle; the factory of that dependency had started earlier, if it ever starts, and if it has one that never starts, it failed. |
| `LoaderRuns.DroppedOnCycle` | `void-editor/src/vs/loader.js:1683-1694` | An edge is given up only if the declared dependencies lead from the module back to itself through it. |
| `LoaderRuns.NeverRunsLater` | `void-editor/src/vs/loader.js:1722-1728` | From a state in which a module is complete, no further execution, however nested, starts its factory. |
| `LoaderRuns.RequestedOnce` | `void-editor/src/vs/loader.js:1591-1596` | No id is requested twice, and whatever is waited for is defined, requested or a resource of a plugin. |
| `LoaderRuns.ThrowingFactoryStrands` | `void-editor/src/vs/loader.js:1139-1167` | A sequence of updates, each of which keeps the invariant, to an idle state in which every requested module is defined and no load error was reported, and yet a module waits for ever: the one it waits for failed when it was resolved, after the factory of a third had thrown. |
| `LoaderRuns.Session` | `void-editor/src/vs/loader.js:1232-1260` | A new manager driven by any finite behaviour of foreign code ends idle, with the invariant; what is defined, failed or thrown then is explained by the actions consumed: whatever they define is there, and whatever load error they report has failed. If they contain no load error and no throwing factory, nothing fails; if moreover all dependencies are ordinary ones and defined at some time, every module that was defined is complete and has had its factory run. |
| `LoaderState.DefineKeeps` | `void-editor/src/vs/loader.js:1352-1367` | A new module record keeps the whole invariant (counters, lists, acyclic waiting, factory order, requests). |
| `LoaderState.SkipKeeps` | `void-editor/src/vs/loader.js:1662-1682` | Counting off a special or complete dependency keeps the invariant. |
| `LoaderState.DropKeeps` | `void-editor/src/vs/loader.js:1683-1694` | Giving up an edge keeps the invariant, provided there is a way back. |
| `LoaderState.RecordKeeps` | `void-editor/src/vs/loader.js:1695-1697` | Joining a waiting list keeps the waiting graph acyclic and the counters exact, provided there is no way back. |
| `LoaderState.FailKeeps` | `void-editor/src/vs/loader.js:1172-1180` | Marking a module failed keeps the invariant. |
| `LoaderState.BeginKeeps` | `void-editor/src/vs/loader.js:1139-1146` | Marking a module complete and starting its factory keeps the invariant: each dependency was ready or its edge was given up, and the factory had not started before. |
| `LoaderState.EndKeeps` | `void-editor/src/vs/loader.js:1156-1167` | Clearing the module after its factory, thrown or not, keeps the invariant. |
| `LoaderState.TakeKeeps` | `void-editor/src/vs/loader.js:1762-1764` | Fetching and clearing a waiting list moves its waiters to the walk and keeps the invariant. |
| `LoaderState.WakeKeeps` | `void-editor/src/vs/loader.js:1765-1775` | Counting one waiter down keeps the counters exact. |
| `LoaderState.RequestKeeps` | `void-editor/src/vs/loader.js:1591-1596` | Requesting an id that was not requested before keeps the invariant. |
| `LoaderState.EnlistKeeps` | `void-editor/src/vs/loader.js:1703-1713` | Keeping a resource for its incomplete plugin keeps the invariant. |
| `LoaderState.FetchKeeps` | `void-editor/src/vs/loader.js:1776-1781` | Fetching and clearing the list of a plugin moves its resources to the walk and keeps the invariant. |
| `Graphs.AddEdgeKeepsAcyclic` | `void-editor/src/vs/loader.js:1683-1697` | A waiting graph stays acyclic with one more edge exactly when there is no way back and the edge is no loop. |
| `Graphs.Escapes` | `void-editor/src/vs/loader.js:1658-1721` | In an acyclic graph, from a finite set whose members all have an outgoing edge one gets out of the set. |
| `ModuleManagers.ModuleManager.HasDependencyPath` | `void-editor/src/vs/loader.js:1505-1541` | Terminates and answers true exactly when a path of at least one edge leads from one id to the other through defined modules with dependency lists, self-loops included. |
| `ModuleManagers.ModuleManager.DefineModule` | `void-editor/src/vs/loader.js:1352-1370` | From any state in which foreign code may call in, reaches such a state again, with the suspended callers as they were; whatever is new in it is explained by this definition and by the actions consumed on the way, so the new module fails only through a reported load error or a factory that threw; it keeps the list, callback and errorback it was given; a second definition changes nothing. |
| `ModuleManagers.ModuleManager.Resolve` | `void-editor/src/vs/loader.js:1658-1721` | Deals with the dependencies through any nested calls: afterwards the module is complete, or all its dependencies have been dealt with and its count is that of its places in waiting lists; it fails only if it depends on a module whose load error was reported or whose factory threw. |
| `ModuleManagers.ModuleManager.ResolveEach` | `void-editor/src/vs/loader.js:1660-1717` | The loop: it stops early only with the module complete, and has dealt with all dependencies otherwise. |
| `ModuleManagers.ModuleManager.ResolveOne` | `void-editor/src/vs/loader.js:1662-1715` | Which of four things happens to a dependency: a special or complete one is counted off; a failed one fails the module and stops; one that leads back is given up; any other one puts the module on its list and is asked for, an ordinary one from the script loader, one of a plugin from its plugin. |
| `ModuleManagers.ModuleManager.LoadModule` | `void-editor/src/vs/loader.js:1591-1631` | A module that is neither defined nor requested is passed to the script loader, which is entered and may act at once; otherwise nothing happens. |
| `ModuleManagers.ModuleManager.LoadPluginDependency` | `void-editor/src/vs/loader.js:1639-1655` | A resource that is neither defined nor requested is passed to its plugin, which has to be complete, is entered and may act at once; otherwise nothing happens. |
| `ModuleManagers.ModuleManager.Request` | `void-editor/src/vs/loader.js:1698-1715` | An ordinary dependency is there or requested afterwards. For a plugin dependency the plugin is there or requested, and the resource is there, requested, or kept for the plugin, whatever foreign code does meanwhile. |
| `ModuleManagers.ModuleManager.LoadResources` | `void-editor/src/vs/loader.js:1776-1785` | The list of the complete plugin is empty afterwards and each resource that was in it is defined or requested. |
| `ModuleManagers.ModuleManager.OnModuleComplete` | `void-editor/src/vs/loader.js:1722-1787` | Does nothing if the module is complete. Otherwise its factory is the next to start, and foreign code is entered for it; afterwards its dependency list is released, its waiting list and its list of resources are empty, their counters are exact, and the suspended callers are as they were. |
| `ModuleManagers.ModuleManager.Complete` | `void-editor/src/vs/loader.js:1139-1167` | The module is the next to be complete, before its factory, which is the next to start and is entered; its lists are released; it fails if the factory throws. If it has no factory, or the factory calls nothing before it returns, the whole new state is stated: it fails, and an error is reported, exactly when the factory throws. |
| `ModuleManagers.ModuleManager.WakeAll` | `void-editor/src/vs/loader.js:1765-1775` | All waiters of the fetched list are counted down, each once, in the order of the list, even if waking one defines or completes others. |
| `ModuleManagers.ModuleManager.OnDependencyError` | `void-editor/src/vs/loader.js:1172-1180` | The module is complete and failed afterwards; the answer is whether there was an errorback, and exactly then it is the next errorback to be called, and foreign code is entered for it; nothing else changes if foreign code did nothing but return. |
| `ModuleManagers.ModuleManager.OnLoadError` | `void-editor/src/vs/loader.js:1464-1498` | The id and every visited module are complete and failed afterwards. Foreign code is not entered if nobody that waits for the id, directly or not, has an errorback. If it was not entered or did nothing but return: visited are exactly the ids that wait for the failed one, directly or not, each once, in breadth-first order; precisely these are marked failed and nothing else changes; exactly those with an errorback have had it called, once each, in this order; the error is reported globally exactly when there was none. |
| `ModuleManagers.ModuleManager.SpreadError` | `void-editor/src/vs/loader.js:1470-1494` | The breadth-first walk itself, with the same statements. |
| `ModuleManagers.ModuleManager.RunForeign` | `void-editor/src/vs/loader.js:1352-1370` | Any finite sequence of definitions and load errors keeps the invariant and the suspended calls, at any depth of nesting; foreign code stops at the first action of its own that returns, and throws exactly if that one does. |
| `ModuleIds.ModuleIdResolver.ResolveModule` | `void-editor/src/vs/loader.js:1082-1091` | Relative ids become the normal form of the directory of the module followed by the id; others stay. |
| `ModuleIds.ModuleIdResolver.constructor` | `void-editor/src/vs/loader.js:1049-1057` | The path is the segments of the id but the last, each followed by a slash. |
| `ModuleIds.NormalizeModuleId` | `void-editor/src/vs/loader.js:1061-1078` | For every string, the pattern-replacement loops terminate and give the walk over its segments with a stack, the last segment untouched. |
| `ModuleIds.GroupIsPoppable` | `void-editor/src/vs/loader.js:1071-1076` | The alternatives of the pattern match exactly the non-empty segments other than "..". |
| `ModuleIds.CutUp` | `void-editor/src/vs/loader.js:1070-1074` | Replacing an inner match keeps the resolved segments. |
| `ModuleIds.CutHeadUp` | `void-editor/src/vs/loader.js:1075-1076` | Replacing a match at the start keeps them too. |
| `ModuleIds.CutDot` | `void-editor/src/vs/loader.js:1063-1067` | So does replacing "/./". |
| `ModuleIds.SplitNormalized` | `void-editor/src/vs/loader.js:1061-1078` | The segments of the normal form are the resolved segments, for every id. |
| `ModuleIds.NormalizedIsIdempotent` | `void-editor/src/vs/loader.js:1061-1078` | Normalising twice is normalising once, for every id. |
| `ModuleIds.WaysUpInFront` | `void-editor/src/vs/loader.js:1061-1078` | In a normal form without empty segments ".." occurs before the last segment only at the front. |
| `ModuleIds.FullyResolved` | `void-editor/src/vs/loader.js:1061-1078` | The result is that of the stack over all segments if and only if the last segment is not "." and is not a ".." that would take a segment back. |
| `ModuleIds.ResolvedFromDirectory` | `void-editor/src/vs/loader.js:1049-1091` | Resolving a relative id is walking on from the directory of the module. |
| `ScriptLoaders.Idle` | `void-editor/src/vs/loader.js:545-596` | When no callback is running, every request for a script has been answered once or waits for a load under way; the answers came in the order of the requests if and only if no load of the script was answered while callbacks of an earlier one were due. What requests were told is what the loads settled. |
| `ScriptLoaders.OneLoadAtATime` | `void-editor/src/vs/loader.js:576-594` | Of the loads of a script that were begun, all but the one under way, if any, have completed. |
| `ScriptLoaders.FirstCompletionAnswers` | `void-editor/src/vs/loader.js:576-596` | A request waits until the first completion of its script after it, which decides its answer for good: callback if it succeeded, errorback if it failed. |
| `ScriptLoaders.SynchronousReentry` | `void-editor/src/vs/loader.js:583-589` | A run in which a later request is answered before an earlier one: a callback asks again and that load completes at once. |
| `ScriptLoaders.TellAccounted` | `void-editor/src/vs/loader.js:583-596` | Calling the next callback keeps the account, and breaks the order exactly when callbacks of an outer list are due. |
| `ScriptLoaders.OnlyOnceScriptLoader.Load` | `void-editor/src/vs/loader.js:551-582` | The request is recorded. If a load of the script is under way, none is started and nothing else happens; otherwise one is started, and foreign code is entered. Who waits and which answers are settled, callback or errorback, is what the request and the actions taken settle one after the other, however deeply they were nested. |
| `ScriptLoaders.OnlyOnceScriptLoader.Trigger` | `void-editor/src/vs/loader.js:583-596` | All who waited have had their callback if the load succeeded, or else their errorback, once, through any re-entrant request or completion; what is settled is again what the actions say. |
| `StreamTheorems.SingleOwnership` | `void-editor/cli/src/rpc.rs:542-585` | On every interleaving a live record is idle, holding the write half inserted last under its id with an empty queue, or exactly one loop holds that write half and no other loop works on the record. |
| `StreamTheorems.RecordIsThere` | `void-editor/cli/src/rpc.rs:605-608` | The branch for a missing record is never taken, the record a loop finds is that of its own write half, and the batch is empty at every swap. |
| `StreamTheorems.BytesConserved` | `void-editor/cli/src/rpc.rs:596-631` | What the writes put out or lost, then the batch, then the queue, are the buffers passed to `write` while the record was there, in call order; what is on the wire is what was put out. Without failed writes nothing is lost. |
| `StreamTheorems.StoryFromEvents` | `void-editor/cli/src/rpc.rs:537-631` | What the model keeps of a write half is what happened: the id it was inserted under, the buffers passed to `write`, what each write put out or lost, whether it was removed. |
| `StreamTheorems.FailedWrite` | `void-editor/cli/src/rpc.rs:622-629` | A failed write loses the rest of its batch and nothing else: the loop goes on with an empty batch and what is queued. |
| `StreamTheorems.CleanEnd` | `void-editor/cli/src/rpc.rs:543-562` | At most one shutdown of a write half; ending exactly when it was removed and its record is gone; by then all accepted bytes are out, but for what failed writes lost. |
| `StreamTheorems.ShutdownIsFinal` | `void-editor/cli/src/rpc.rs:543-562` | After the shutdown nothing is accepted or written, whatever happens. |
| `StreamTheorems.Quiescent` | `void-editor/cli/src/rpc.rs:543-631` | When no task is left everything accepted is written, but for what failed writes lost, and exactly the removed write halves are shut down. |
| `StreamTheorems.TasksEnd` | `void-editor/cli/src/rpc.rs:596-631` | Each step of a task uses up work of its write half and adds none to another. |
| `StreamTheorems.TasksCanStep` | `void-editor/cli/src/rpc.rs:596-631` | A task that has work left can take a step. |
| `StreamTheorems.ReusedIdLosesStream` | `void-editor/cli/src/rpc.rs:575-584` | The input on which reuse goes wrong: after inserting under an id still being written, a write half is gone without a shutdown and a buffer is never written. |
| `StreamTheorems.ReuseIsSafe` | `void-editor/cli/src/rpc.rs:575-584` | Inserting a new write half keeps all earlier ones owned, and the whole invariant, if and only if its id has no record at that time; ids of removed streams may be used again while their write halves are still being shut down. |
| `StreamTheorems.ReuseLoses` | `void-editor/cli/src/rpc.rs:575-584` | Otherwise an idle write half of that record is held by nobody and never shut down, and beside a busy one the record takes in a second. |
| `StreamRuns.RunKeeps` | `void-editor/cli/src/rpc.rs:537-631` | Ownership and conservation hold in every reachable state. |
| `StreamRuns.SectionKeeps` | `void-editor/cli/src/rpc.rs:603-621` | The critical section of the loop keeps both. |
| `StreamRuns.SendKeeps` | `void-editor/cli/src/rpc.rs:623-627` | So does writing any part of a buffer. |
| `Streams.Streams.Remove` | `void-editor/cli/src/rpc.rs:543-556` | An idle stream is taken out and its write half handed over; a busy one is marked ended. |
| `Streams.Streams.Write` | `void-editor/cli/src/rpc.rs:564-573` | The buffer joins the queue of a live stream; an idle one gives its write half to a new loop. |
| `Streams.Streams.LoopSection` | `void-editor/cli/src/rpc.rs:602-621` | Hands out the whole queue, gives the write half back, or decides to shut down. |
| `OutgoingStreams.StreamProtocol` | `void-editor/cli/src/rpc.rs:453-524` | For any interleaving, as a receiver sees it and in terms of what happened: exactly the registrations before the channel closed are announced, in order; a stream is announced before its data, segments have 1 to 4096 bytes and are the bytes read in order, and nothing follows its one end, which is sent after the reads stopped and all that was read, and is sent or about to be once they stopped, unless the channel closed. |
| `OutgoingStreams.ReaderGoesOn` | `void-editor/cli/src/rpc.rs:485-519` | Until it has returned a reader can take a step; while the channel is open, sending delivers all that was read, after which it reads on, or the end. |
| `OutgoingStreams.StepFollowed` | `void-editor/cli/src/rpc.rs:485-519` | Every step of a registration or a reader keeps this for every stream. |
| `RpcCalls.CallMatching` | `void-editor/cli/src/rpc.rs:342-381` | Before the id counter goes around, in terms of what happened: a callback is given the first response to its id dispatched after its insertion, an answer as a success with its body and a failure as an error with its code, and no other; it waits exactly when the call was sent and inserted and there has been none. |
| `RpcCalls.PhaseFromEvents` | `void-editor/cli/src/rpc.rs:349-378` | The n-th allocation gets the n-th id; a call is dropped exactly when its send failed, goes on exactly when it succeeded, and registers its callback exactly when it was inserted, once and after a successful send. |
| `RpcCalls.NoOverwrite` | `void-editor/cli/src/rpc.rs:361-378` | Before the counter goes around, inserting a callback replaces none. |
| `RpcCalls.ResponseBeforeInsert` | `void-editor/cli/src/rpc.rs:356-378` | A response dispatched between sending and inserting is lost: the callback has not run and waits. |
| `RpcCalls.WrappedIdReplaces` | `void-editor/cli/src/rpc.rs:397-400` | Two pending calls collide exactly when their places in the order of allocations differ by a multiple of 2^32. |
| `RpcCalls.IdsCollide` | `void-editor/cli/src/rpc.rs:397-400` | Two ids of the counter are equal exactly when that many allocations lie between them. |
| `RpcCalls.SharedIds` | `void-editor/cli/src/rpc.rs:248-252` | Calls and streams share one counter: all ids given out so far, of calls and of streams, differ pairwise if and only if there are at most 2^32 of them. |
| `RpcCalls.NextIdIsNew` | `void-editor/cli/src/rpc.rs:397-400` | While fewer than 2^32 ids were given out, the next one is that of no call and of no stream. |
| `RpcCalls.MatchedKeeps` | `void-editor/cli/src/rpc.rs:420-450` | Every step of callers and dispatcher keeps the matching of callbacks and ids. |
| `RpcCalls.Calls.Dispatch` | `void-editor/cli/src/rpc.rs:439-449` | A response or an error takes out the callback with its id, if any, and runs it; a request takes none. |
| `Vlq.VlqRoundTrip` | `void-editor/scripts/playground-server.ts:766-788` | Reading what was written consumes exactly those digits, and gives the number back if and only if its magnitude is below 2^30. |
| `Vlq.ReadIsStandard` | `void-editor/scripts/playground-server.ts:766-788` | The 32-bit reader agrees with the number system of section 6 of ECMA-426 on every number below 2^31. |
| `Vlq.GatherExact` | `void-editor/scripts/playground-server.ts:772-775` | No shift overflows while the number stays below 2^31. |
| `Vlq.EncodeIsNumber` | `void-editor/scripts/playground-server.ts:849-868` | The digits written are one number of the standard, least digit first. |
| `Vlq.AlphabetRoundTrip` | `void-editor/scripts/playground-server.ts:816-824` | The two tables are inverse on the Base64 alphabet of section 4 of RFC 4648. |
| `Vlq.TablesAreAlphabet` | `void-editor/scripts/playground-server.ts:816-824` | The tables hold the 64 characters of the alphabet and the padding character at their positions, and 255 stands for every other byte. |
| `DynamicBuffers.DynamicBuffer.AddVLQ` | `void-editor/scripts/playground-server.ts:849-868` | Appends the Base64 digits of the number to the contents. |
| `DynamicBuffers.DynamicBuffer.EnsureCapacity` | `void-editor/scripts/playground-server.ts:835-842` | Contents stay; the room suffices and at least doubles when it moves. |
| `DynamicBuffers.DynamicBuffer.AddByte` | `void-editor/scripts/playground-server.ts:844-847` | Appends one byte. |
| `DynamicBuffers.DynamicBuffer.AddBuffer` | `void-editor/scripts/playground-server.ts:877-881` | Appends a buffer. |
| `Mappings.DecodeNumber` | `void-editor/scripts/playground-server.ts:849-868` | A reader of mappings takes what was written for a number as that number, as one field. |
| `Mappings.DecodeLines` | `void-editor/scripts/playground-server.ts:758-763` | The line of a reader is the number of semicolons. |
| `Remapping.CommitInStep` | `void-editor/scripts/playground-server.ts:741-757` | Committing a segment writes the same segment, moved to its output line and source, as a reader of the output sees it. |
| `Remapping.ConsumeInStep` | `void-editor/scripts/playground-server.ts:769-788` | A digit moves the loop variables as it moves a reader of the input. |
| `Remapping.FeedInStep` | `void-editor/scripts/playground-server.ts:758-789` | Every byte keeps reader of the input, loop variables and reader of the output in step. |
| `Remapping.FedLines` | `void-editor/scripts/playground-server.ts:758-768` | Semicolons are copied one for one. |
| `Remapping.PaddedReady` | `void-editor/scripts/playground-server.ts:790-794` | After the last commit and the filling up, the output can be carried on from and holds the input moved. |
| `Remapping.StaysUnderway` | `void-editor/scripts/playground-server.ts:758-789` | One round of the loop keeps its invariant, for well-formed input or not. |
| `SourceMapBuilders.SourceMapBuilder.AddSource` | `void-editor/scripts/playground-server.ts:716-795` | Content is appended; it throws exactly for a byte outside the digit table; lines of mappings grow by the greater of semicolons and source lines; for a clean source the meaning is the old one followed by that of the source, at its lines, under the names of its sources. |
| `SourceMapBuilders.SourceMapBuilder.AddMappings` | `void-editor/scripts/playground-server.ts:729-794` | The decoding loop on its own, with the same statement on indices. |
| `SourceMapBuilders.SourceMapBuilder.Feed` | `void-editor/scripts/playground-server.ts:758-789` | One round of the loop. |
| `SourceMapBuilders.SourceMapBuilder.CommitSegment` | `void-editor/scripts/playground-server.ts:741-757` | What commit appends, and the positions it carries over. |
| `SourceMapBuilders.SourceMapBuilder.ReadDigit` | `void-editor/scripts/playground-server.ts:772-788` | A digit in 32-bit arithmetic. |
| `SourceMapBuilders.SourceMapBuilder.FillLines` | `void-editor/scripts/playground-server.ts:791-794` | A semicolon for each line left. |
| `SourceMapBuilders.SourceMapBuilder.RemapSources` | `void-editor/scripts/playground-server.ts:720-728` | The names of the source join the table, each once, and the remap table leads from one to the other. |
| `SourceMapBuilders.SourceMapBuilder.AddLine` | `void-editor/scripts/playground-server.ts:710-714` | A line of text, and a line without mappings. |
| `SourceMapBuilders.NameMoved` | `void-editor/scripts/playground-server.ts:720-757` | Moving segments and naming them in the output is naming them in the input. |
| `SourceMapBuilders.NewSource` | `void-editor/scripts/playground-server.ts:680-696` | Content ends with a newline unless empty, changed by no more than that, and the line count is its newlines. |
| `SourceMapBuilders.CountNL` | `void-editor/scripts/playground-server.ts:888-894` | Counts the newlines. |
| `Concatenations.Concatenate` | `void-editor/scripts/playground-server.ts:700-804` | For any sequence of sources and lines: the output is their text; its lines and the lines of the mappings agree if and only if no map is longer than its content; the names are those of all sources; and the mappings, read back, say what the inputs say, each below the lines of text before it. |
| `Concatenations.AddPart` | `void-editor/scripts/playground-server.ts:710-795` | One more call keeps all of this. |
| `Concatenations.BuiltMore` | `void-editor/scripts/playground-server.ts:710-795` | The same, on values. |
| `Bundles.BundleWithDependencies` | `void-editor/scripts/playground-server.ts:501-525` | Terminates on every finite graph; each module the entry depends on is added once and no other; dependencies first unless on a cycle; the text is theirs and one comment line; the map says what theirs say; it throws exactly if one of them has an unreadable map. On an acyclic graph the entry is last, and for every module and every k a prefix of the order holds exactly what was there when the module was reached, which is nothing for the entry, and what its first k dependencies depend on. |
| `Bundles.Bundler.Visit` | `void-editor/scripts/playground-server.ts:505-514` | One visit adds exactly what the module depends on and was not visited, and the module last. |
| `Bundles.Topological` | `void-editor/scripts/playground-server.ts:505-514` | On an acyclic graph every dependency comes before its dependents. |
| `Bundles.AllAdded` | `void-editor/scripts/playground-server.ts:505-514` | On an acyclic graph a visit leaves behind exactly what was there and all that the module depends on. |
| `Bundles.NextTurn` | `void-editor/scripts/playground-server.ts:510-512` | Dependencies are taken in the order they are listed: for each k a prefix of the order holds exactly what was there and what the first k of them depend on. |
| `Bundles.WalkIsExact` | `void-editor/scripts/playground-server.ts:505-516` | A module is added exactly when the entry depends on it. |
| `Bundles.DescentEnds` | `void-editor/scripts/playground-server.ts:505-514` | Adding a module after its dependencies keeps the order, cycles included. |

## Left out

- LoaderRuns.RequestedAllComplete: the edge from a resource to its plugin is not part of the dependency graph of the loader, so a plugin may wait for its own resource; the lemma therefore asks that no plugin with resources waiting is incomplete. Programs without plugin dependencies need no such condition (`LoaderRuns.OrdinaryAllComplete`).
- ModuleManagers.ModuleManager.LoadPluginDependency: asking a plugin that failed throws out of the manager in the code, because its exports are empty; here it is asked like any other.
- ModuleManagers.ModuleManager.Complete: models configurations that catch errors of factories; an exception that escapes a factory or an errorback and unwinds the manager is not modelled, nor are build mode and `shouldInvokeFactory`.
- ModuleManagers.ModuleManager.LoadModule: the paths tried one after the other, the URLs and the scripts are foreign code that defines modules or reports a load error, at any time; `onError` does not call back into the loader.
- ModuleManagers.ModuleManager.OnLoadError: which modules are visited is stated exactly for errorbacks that do not call back into the loader; for others, that all visited ones are complete and failed, what `OnDependencyError` states of each of them when it is visited, and the invariant.
- ModuleManagers.ModuleManager.RunForeign: the list of actions is finite, and an action is a definition, a reported load error or a return; when the list is used up, foreign code returns.
- Export values and arguments of factories, console warnings, `_findCyclePath` and recorded events are not modelled; module ids are the integers `ModuleIdProvider` gives to strings; a module record is a value in the map of the manager, where it is never replaced, so holding on to one and looking it up again are the same.
- Anonymous definitions and `require` calls reach the manager as definitions by foreign code.
- ModuleManagers.ModuleManager.LoadResources: the order in which a plugin is asked for the resources kept for it is not stated.
- Loop bodies of the module manager and of the builder are methods of their own.
- Streams: the read side of duplex streams and the scheduler are environment; a write may be partial or fail at any byte; write halves are new at each insertion, and their ids have no record then (the condition is exact by `StreamTheorems.ReuseIsSafe`; the id counter provides it by `RpcCalls.SharedIds`).
- OutgoingStreams: a registration with its readers is a state machine over single reads and sends; the bytes read are arbitrary.
- RpcCalls: messages are their id, method and outcome, and decoding the body of an answer is left to the callback; a response without an id makes the dispatcher panic and is not modelled, nor is dispatching to methods.
- SourceMapBuilders.SourceMapBuilder.AddSource: meaning is stated for maps whose positions are below 2^30 and not negative, whose segments have 1, 4 or 5 fields on lines of their source, and tables of at most 2^30 names, since beyond that VLQ numbers do not survive; the names field is dropped, as the code does.
- Source indices outside the table of a source are undefined in the code; the builder then writes 0, which the model does too, but no meaning is claimed.
- Bundles.BundleWithDependencies: the JSON and Base64 text of the last line is a parameter; module graphs are given, not parsed.
- HTTP server, file watching, hot reload, script fetching, cached data, hashing and configuration are input and output.
