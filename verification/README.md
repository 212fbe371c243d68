# Verified models of the TEN runtime's closing, migration and list code

The project models five parts of the runtime and proves what they promise.
`dafny verify dfyconfig.toml` checks all of it.

## What is modelled

**Closing resources** (`core/src/ten_runtime/common/closeable.c`). A
`ten_closeable_t` owns underlying resources, may have dependents, and keeps three
queues of subscribers. Closing spreads from an owner down; "closed" spreads back
up through callbacks that re-enter one another while the queues they came from
are being edited.
- `Closeable.dfy`: the class `Closeable` with its fields and all its functions,
  mutually recursive as in the program. They terminate: the measure is the set of
  living resources, then the set of closing ones.
- `ClosingGraph.dfy`, `ClosingInvariant.dfy`: the registered graph (single owners,
  acyclic waiting), a `World` (the fields of all resources at one moment), the
  invariants, and the effect of each single update.
- `ClosingTree.dfy`: what one call of `close` reaches, and when nothing is stuck.
- `ClosingRuns.dfy`: any sequence of calls from outside, each with all it sets off.
- `ClosingRegistration.dfy`: adding owners and dependencies, and taking them back.
- `ClosingOrder.dfy`: the order of registration under which every deferred action is
  started once, and who announces "all done" first.
- `ClosingMachine.dfy`, `ClosingExamples.dfy`: the protocol one statement at a time,
  with its call stack, and two runs of it, see "Findings".
- `OutThreadAcks.dfy`: acknowledgements from other threads, as any interleaving of
  the announcing loop with the acknowledging threads.

Ghost fields record history: how often the own action was started (`runs`), what
was still listed at its first start (`backlog`), to whom "closed" and "all done"
were delivered, how often "all done" was announced. A close action is *immediate*
(none set, or one that reports at once) or *deferred*; a subscriber is another
resource with the default callback, or an outsider that acknowledges within its
callback or later. The ghost parameter `g` is the graph as it was registered.

**Moving a connection between threads** (`connection/migration.c`,
`app/migration.c`, `protocol/asynced/protocol_asynced.c` and the functions they
call). `Migration.dfy` is the state machine of one connection: the protocol's
thread, the loop of the app and the loop of an engine, with their task queues, and
the task that closes the app and with it the connections it still owns.
`Connection.dfy` has the objects whose fields are updated, and proves that each
function does to them what the state machine says; every assertion of the program
on the way is proved. What the app finds out about a message is a parameter
(`Route`). `EngineQueue.dfy` follows the messages of a connection that has moved
through the queue and the loop of an engine that is not ready yet, and
`EngineOrder.dfy` lets both state machines run together, from arrival to dispatch.
`MigrationHistory.dfy` and `EngineHistory.dfy` tell from the events of a run alone what
has arrived, been handed over, refused, dispatched or dropped, and prove that the two
state machines say the same.

**Shutting the app down** (`app/close.c`, `app/engine_interface.c`,
`app/endpoint.c`). `AppClosing.dfy` is the state machine, `App.dfy` the object. An
engine or a connection ends only if it was told to or has a reason of its own.
`AppHistory.dfy` tells from the events alone who is still there, and proves that the
lists and flags of the app say just that.

**The intrusive list** (`typed_list.h`, and `detach`, `remove` and `remove_ptr` of
`container/list.c` and `list_ptr.c`, which share its layout). `TypedList.dfy`
works on nodes on the heap; each method is proved against a sequence. `foreach`
loops read the next node before their body runs, as the macro does; a destroyed
node is never read.

**Aligning** (`align.h`). `Align.dfy`, on bits and on arithmetic.

## Findings

Places where the code does not do what its comments or its users expect, each with
the exact condition:
- A deferred close action is started a second time if, when it is first started, a
  blocker that is closed has not been crossed off yet
  (`closeable.c:409-413`, `607-611`): `ClosingRuns.StartedOnceExactly`, with a run
  in `ClosingExamples.ActionRunsTwice`. It is started once in every run if in each
  queue of "closed" a subscriber that waits for another one comes before it:
  `ClosingRuns.RunStartsOnce`.
- An owner acknowledges a child only after its own `do_close` (`closeable.c:409-419`),
  so its "all done" may precede the child's. "Closed" is bottom-up, "all done" is not:
  `ClosingOrder.OwnerFirst` and `ClosingOrder.OwnerAheadExactly`, with a run in
  `ClosingExamples.OwnerIsAhead`.
- After a reset the loop over the messages held back feeds its own list
  (`protocol_asynced.c:132-139`): with two messages the second is lost, with three
  or more the loop never ends. `Migration.ResumeIsLoop`, with a run in
  `Migration.ResetLosesOne`.
- A first message that the app ignores (sent to the app itself, not a command, a
  `start_graph` that fails its check, a `stop_graph` of a graph that does not exist,
  `app/msg_interface/common.c:75-78`, `241-257`) leaves the protocol waiting for a
  notice that nobody sends: `Migration.NothingLeft`. Nothing that arrives afterwards
  is ever handed over: `Migration.DeafForEver`, with a run in `Migration.IgnoredFreezes`.
- A first message that stops a graph which exists reaches the engine while the
  connection is still the app's, and an assertion of the engine fails
  (`engine/msg_interface/common.c:74-80`): a run is `Migration.StopGraphFails`.
  `Migration.UnsafeGoesWrong` shows for this and for a reset that finds more than one
  message what goes wrong, and `Migration.StepKeepsInv` that all other steps are right.
- Messages that an engine has put back because it was not ready are overtaken by those
  of the same connection that are in its loop when it becomes ready
  (`engine/on_xxx.c:88-98`): `EngineQueues.OvertakenExactly`, with a run in
  `EngineQueues.CommandOvertakes`.
- A message that is no command and comes through the remote before the engine is ready
  fails the assertion on what may be put into the queue
  (`engine/internal/remote_interface.c:485-488`, `engine/msg_interface/common.c:190`):
  `EngineQueues.FaultsExactly`, with a run in `EngineQueues.DataFails`.
- An engine created after `on_deinit` was started makes it start again when it stops
  (`AppClosing.DisorderlyDeinitsTwice`, with a run in `AppClosing.EngineAfterDeinit`).
  What is created after the close task ran is never told to close, and `on_deinit` does
  not start until it ends for a reason of its own: `AppClosing.EndsExactly`,
  `AppClosing.StrandedForEver`.
- `ten_align_forward` gives zero if the sum wraps around, and multiples only for
  powers of two: `Align.AlignsUpExactly`, `Align.AlignsExactlyToPowers`.

## Model

| member | source | states |
|---|---|---|
| `Closeables.Closeable.Close` | core/src/ten_runtime/common/closeable.c:703-720 | From a tree of living resources: the call terminates, every resource of the tree has left the state alive and nothing outside has, all invariants hold again, every resource that closed has told each of its subscribers once and in order |
| `Closeables.Closeable.MarkClosing` | core/src/ten_runtime/common/closeable.c:703-712 | The resource was alive before ("only once"), only its state changes, and the answer is whether all it lists is closed |
| `Closeables.Closeable.CloseOwned` | core/src/ten_runtime/common/closeable.c:714-718 | One round of the loop: the node read ahead is the next of those still listed, in order; its tree is alive and is told to close, and the trees after it stay untouched |
| `Closeables.Closeable.CouldStartToCloseMyself` | core/src/ten_runtime/common/closeable.c:311-338 | True exactly if every listed underlying resource and every listed dependent is closed |
| `Closeables.Closeable.DoClose` | core/src/ten_runtime/common/closeable.c:381-394 | Starts the own action; an immediate one leaves the resource closed and all invariants true, a deferred one changes nothing but the count of starts |
| `Closeables.Closeable.ActionToCloseMyselfDone` | core/src/ten_runtime/common/closeable.c:340-375 | The resource is closed; every subscriber has been called; the invariants hold though the callbacks edited the queue and closed further resources |
| `Closeables.Closeable.MarkClosed` | core/src/ten_runtime/common/closeable.c:340-349 | Only the state changes; without subscribers of "closed" the announcement of "all done" is made at once |
| `Closeables.Closeable.AnnounceOne` | core/src/ten_runtime/common/closeable.c:366-374 | One round of the announcing loop: the subscriptions not reached yet are untouched, those reached and not acknowledged are the only others left |
| `Closeables.Closeable.ServeItem` | core/src/ten_runtime/common/closeable.c:371-374 | The indirect call: a subscriber that acknowledges within its callback leaves the closed resource without that one subscription and everything else in order |
| `Closeables.Closeable.OnUnderlyingResourceClosed` | core/src/ten_runtime/common/closeable.c:396-420 | The owner crosses the child off, starts to close if nothing else blocks it, and only then acknowledges; so its own "all done" comes first exactly if it closes now and waits for no acknowledgement |
| `Closeables.Closeable.CrossOffChild` | core/src/ten_runtime/common/closeable.c:402-407 | The owner no longer lists the child; whatever else was invariant still is, except that the owner may have become ready to close |
| `Closeables.Closeable.OnDependedResourceClosed` | core/src/ten_runtime/common/closeable.c:500-518 | The same for a dependency and what depends on it |
| `Closeables.Closeable.CheckAndClose` | core/src/ten_runtime/common/closeable.c:409-413 | The action is started exactly if the resource is closing and all it still lists is closed; nothing else happens otherwise |
| `Closeables.Closeable.RemoveDependResource` | core/src/ten_runtime/common/closeable.c:593-612 | The dependent is crossed off; if the dependency was closing and waited for nothing else, it is closed or its action has started |
| `Closeables.Closeable.CrossOffDependent` | core/src/ten_runtime/common/closeable.c:601-605 | Dropping the subscriptions of the dependent changes nothing else, since it holds none at its dependency |
| `Closeables.Closeable.Acknowledge` | core/src/ten_runtime/common/closeable.c:415-419 | Acknowledging a subscription keeps all invariants and removes exactly that one |
| `Closeables.Closeable.OnClosedDone` | core/src/ten_runtime/common/closeable.c:179-208 | Removes the first subscription with this subscriber and data; the last acknowledgement announces "all done" |
| `Closeables.Closeable.AnnounceAllDone` | core/src/ten_runtime/common/closeable.c:141-177 | The queue is swapped out: every subscriber of "all done" is called once, in order, and none is left |
| `Closeables.Closeable.AddBeNotified` | core/src/ten_runtime/common/closeable.c:443-498 | Appends to the three queues exactly what is given |
| `Closeables.Closeable.RemoveBeNotified` | core/src/ten_runtime/common/closeable.c:553-591 | Removes every subscription of one subscriber from the three queues and keeps the order of the others |
| `Closeables.RemoveWho` | core/src/ten_runtime/common/closeable.c:558-590 | One of these loops computes the queue without that subscriber |
| `Closeables.Closeable.AddUnderlyingResource` | core/src/ten_runtime/common/closeable.c:673-701 | The owner lists the child last, and its subscriptions come last in the queues of the child, behind all that were there; the invariants hold for the larger graph |
| `Closeables.Closeable.AddDependResource` | core/src/ten_runtime/common/closeable.c:520-551 | The dependency lists the dependent last and is subscribed last with the data it was given; the invariants hold for the larger graph |
| `Closeables.Closeable.RemoveDependResourceBidirectional` | core/src/ten_runtime/common/closeable.c:614-624 | Taking a dependency back keeps the invariants for the smaller graph; if it was the last blocker of a closing resource, that resource closes |
| `Closeables.Closeable.constructor` | core/src/ten_runtime/common/closeable.c:62-81 | A new resource is alive and lists nothing |
| `ClosingGraph.RemovePtrElements` | core/src/ten_utils/container/list_ptr.c:70-81 | Removing a pointer from a list without repetitions removes that one element |
| `ClosingGraph.SiblingTreesDisjoint` | core/src/ten_runtime/common/closeable.c:714-718 | With single owners the trees of two children of one owner share nothing |
| `ClosingInvariant.StartKeepsInv` | core/src/ten_runtime/common/closeable.c:381-394 | Starting the action of a ready resource keeps every invariant or leaves only that resource to be closed |
| `ClosingInvariant.CloseKeepsInv` | core/src/ten_runtime/common/closeable.c:340-349 | Marking a resource closed keeps every invariant: whoever lists it still holds its undelivered subscription |
| `ClosingInvariant.UnlinkKid` | core/src/ten_runtime/common/closeable.c:407-413 | Crossing a closed child off leaves the owner settled or ready to start |
| `ClosingInvariant.UnlinkDependent` | core/src/ten_runtime/common/closeable.c:601-611 | The same for a dependent |
| `ClosingInvariant.AckKeepsInv` | core/src/ten_runtime/common/closeable.c:186-207 | An acknowledgement keeps every invariant if the subscriber has crossed the closed resource off |
| `ClosingInvariant.AnnounceNext` | core/src/ten_runtime/common/closeable.c:366-374 | The next subscription of the loop was not removed or moved by the callbacks before it, and its subscriber still lists the closed resource |
| `ClosingInvariant.UnlinkServes` | core/src/ten_runtime/common/closeable.c:396-420 | Crossing off, closing whatever that starts and acknowledging come to serving one subscription |
| `ClosingTree.StepTodo` | core/src/ten_runtime/common/closeable.c:703-720 | Whatever closing one child starts, its siblings that are still to be closed stay alive and listed: the close-only-once assertion holds in nested calls |
| `ClosingTree.DescendStep` | core/src/ten_runtime/common/closeable.c:714-718 | The loop over the owned resources visits each of them in order though callbacks shrink the list: what is ahead is always the end of the list |
| `ClosingTree.EndStays` | core/src/ten_runtime/common/closeable.c:714-718 | Whatever callbacks take out of the list of owned resources, the nodes not visited yet remain its end, in order |
| `ClosingTree.NoLostWakeUp` | core/src/ten_runtime/common/closeable.c:396-420 | If all that a closing resource still lists is closed, its action has started or somebody it lists still holds an undelivered "closed" for it |
| `ClosingTree.QuietBlockers` | core/src/ten_runtime/common/closeable.c:340-375 | Between calls whatever is still listed is not closed |
| `ClosingTree.OpenForAReason` | core/src/ten_runtime/common/closeable.c:311-338 | A resource that is not closed waits, directly or not, for a pending action or for something nobody told to close |
| `ClosingTree.ClosedAwaitsClosed` | core/src/ten_runtime/common/closeable.c:311-345 | Bottom-up: all that a closed resource was ever registered to wait for is closed, although the lists have shrunk |
| `ClosingTree.ClosedExactly` | core/src/ten_runtime/common/closeable.c:311-345 | Between calls a resource is closed if and only if everything it waits for was told to close and none of it has a pending action |
| `ClosingTree.TreeClosesWhole` | core/src/ten_runtime/common/closeable.c:703-720 | A tree told to close, with all its dependents inside, is wholly closed if and only if no action in it is pending |
| `ClosingRuns.CloseClosesTree` | core/src/ten_runtime/common/closeable.c:703-720 | With immediate actions and all dependents inside, one call closes the whole tree, and every action in it has run exactly once |
| `ClosingRuns.RunKeepsAll` | core/src/ten_runtime/common/closeable.c:340-375 | In every run: "closed" reaches each subscriber exactly once and in order, "all done" each exactly once after the last acknowledgement, for immediate and late acknowledgements in any order |
| `ClosingRuns.KidTellsAll` | core/src/ten_runtime/common/closeable.c:673-701 | In every run after a registration, the child tells all who had subscribed before, in order, and then the new owner; none of them is forgotten |
| `ClosingRuns.DependentTellsAll` | core/src/ten_runtime/common/closeable.c:520-551 | The same for a dependency, which is told last, with the data that was given |
| `ClosingRuns.RunMovesForward` | core/src/ten_runtime/common/closeable.c:381-394 | In every run states only move from alive over closing to closed, and an immediate action has run once if and only if its resource is closed |
| `ClosingRuns.PendingMayComplete` | core/src/ten_runtime/common/closeable.c:340-345 | A pending action may complete at any later time: nothing its resource waited for is left |
| `ClosingRuns.StartedOnceExactly` | core/src/ten_runtime/common/closeable.c:409-413 | A deferred action is started once if and only if nothing was still listed at its first start; otherwise once more for each blocker still listed then |
| `ClosingRuns.RunStartsOnce` | core/src/ten_runtime/common/closeable.c:409-413 | If every queue of "closed" was filled so that a subscriber that waits for another one comes before it, every deferred action is started at most once in every run, and exactly once where its resource closes |
| `ClosingOrder.NextCalm` | core/src/ten_runtime/common/closeable.c:366-374 | When the next subscriber of an ordered queue is called, of all that waits for it only it still lists anything closed, namely the resource that calls it |
| `ClosingOrder.AnnounceCalm` | core/src/ten_runtime/common/closeable.c:366-374 | The same for the whole announcing loop, whatever its callbacks edit |
| `ClosingOrder.Acknowledged` | core/src/ten_runtime/common/closeable.c:179-208 | An acknowledgement removes exactly that subscription, keeps every invariant and makes no action start late |
| `ClosingOrder.OwnerFirst` | core/src/ten_runtime/common/closeable.c:396-420 | While an owner handles the closing of a child, its own "all done" is announced before the child is acknowledged if and only if it closes with this child and all its own subscribers have acknowledged |
| `ClosingOrder.OwnerAheadExactly` | core/src/ten_runtime/common/closeable.c:141-208 | At any moment an owner is ahead of a child with "all done" if and only if the owner is closed with an empty queue and the queue of the child is not empty |
| `ClosingExamples.BeginningIsSound` | core/src/ten_runtime/common/closeable.c:673-701 | An owner and two children, one depending on the other, built by the registration functions in an order that goes wrong, meet all invariants |
| `ClosingExamples.ActionRunsTwice` | core/src/ten_runtime/common/closeable.c:396-420 | From there one call of close, run statement by statement with its call stack, starts the deferred action of the owner twice |
| `ClosingExamples.CountApplies` | core/src/ten_runtime/common/closeable.c:409-413 | That run meets the hypotheses of the count of starts, with one blocker listed at the first start and two starts |
| `ClosingExamples.NotInOrder` | core/src/ten_runtime/common/closeable.c:520-551 | Its registration is not in the order that rules this out |
| `ClosingExamples.OwnerIsAhead` | core/src/ten_runtime/common/closeable.c:415-419 | A run of one owner with one child in which the owner announces "all done" first |
| `ClosingRegistration.NothingRegistered` | core/src/ten_runtime/common/closeable.c:62-81 | The empty graph meets the invariants |
| `ClosingRegistration.JoinKeepsInv` | core/src/ten_runtime/common/closeable.c:62-81 | A new resource joins without disturbing them |
| `ClosingRegistration.KidRegisteredKeepsInv` | core/src/ten_runtime/common/closeable.c:673-701 | Registering an ownership keeps: each listed resource holds a "closed" subscription addressed to whoever lists it |
| `ClosingRegistration.DependentRegisteredKeepsInv` | core/src/ten_runtime/common/closeable.c:520-551 | Registering a dependency keeps it |
| `ClosingRegistration.DropKeepsInv` | core/src/ten_runtime/common/closeable.c:614-624 | Dropping a dependency keeps it and leaves the dependency settled or ready to close |
| `ClosingRegistration.DropsWellFormed` | core/src/ten_runtime/common/closeable.c:614-624 | The graph without the dependency still has single owners and acyclic waiting |
| `OutThreadAcks.RunInv` | core/src/ten_runtime/common/closeable.c:354-374 | In every interleaving the count is the number of subscribers that have not acknowledged, and never wraps |
| `OutThreadAcks.OneSeesZero` | core/src/ten_runtime/common/closeable.c:210-231 | In every run at most one decrement sees zero, and then every subscriber has been called and every other one has acknowledged |
| `OutThreadAcks.AllDoneExactlyOnce` | core/src/ten_runtime/common/closeable.c:354-374 | "All done" is announced at most once, to each subscriber once and in order; it has been announced if and only if no thread has a step left |
| `OutThreadAcks.RunsEnd` | core/src/ten_runtime/common/closeable.c:354-374 | No run has more than twice as many steps as subscribers, and two |
| `TypedLists.Node.constructor` | core/include/ten_utils/lib/typed_list_node.h:109-122 | A new node has no neighbours and is not destroyed |
| `TypedLists.Node.Destroy` | core/include/ten_utils/lib/typed_list_node.h:168-180 | A node may be destroyed once |
| `TypedLists.Clone` | core/include/ten_utils/lib/typed_list_node.h:140-154 | A clone is a fresh node holding the copy that the copy function of its source makes |
| `TypedLists.TypedList.CheckIntegrity` | core/include/ten_utils/lib/typed_list.h:54-95 | Every proper list passes; of all others exactly those whose two ends are proper ends |
| `TypedLists.TypedList.PushFront` | core/include/ten_utils/lib/typed_list.h:225-243 | Prepends the node; the list stays properly linked |
| `TypedLists.TypedList.PushListNodeBack` | core/include/ten_utils/lib/typed_list.h:245-263 | Appends the node; the list stays properly linked |
| `TypedLists.TypedList.PushBack` | core/include/ten_utils/lib/typed_list.h:265-274 | Appends a new node with the item and its copy function |
| `TypedLists.TypedList.PopFront` | core/include/ten_utils/lib/typed_list.h:288-310 | Gives null for the empty list, else the first node, unlinked; what is left in front of it was the list |
| `TypedLists.TypedList.TakeFront` | core/include/ten_utils/lib/typed_list.h:295-309 | The case of a list that is not empty |
| `TypedLists.TypedList.PopBack` | core/include/ten_utils/lib/typed_list.h:312-334 | The same at the other end |
| `TypedLists.TypedList.TakeBack` | core/include/ten_utils/lib/typed_list.h:319-333 | The case of a list that is not empty |
| `TypedLists.TypedList.Swap` | core/include/ten_utils/lib/typed_list.h:175-195 | The two lists exchange their nodes |
| `TypedLists.TypedList.Concat` | core/include/ten_utils/lib/typed_list.h:197-223 | For distinct lists: self has its nodes and then those of target, target is empty, also by the shortcut that swaps |
| `TypedLists.TypedList.Join` | core/include/ten_utils/lib/typed_list.h:215-222 | The case without a shortcut |
| `TypedLists.TypedList.Copy` | core/include/ten_utils/lib/typed_list.h:336-352 | Appends clones of all nodes of target in order, each with the copy function of its source; they are fresh, and target is unchanged |
| `TypedLists.TypedList.PushClone` | core/include/ten_utils/lib/typed_list.h:345-351 | One round of the loop |
| `TypedLists.TypedList.Find` | core/include/ten_utils/lib/typed_list.h:370-382 | The first node that compares equal, or null if there is none |
| `TypedLists.TypedList.Begin` | core/include/ten_utils/lib/typed_list.h:16-24 | A loop starts at the first node and has read the second |
| `TypedLists.TypedList.Advance` | core/include/ten_utils/lib/typed_list.h:25-30 | A loop moves to the node it has read before and reads the next one, never a destroyed one |
| `TypedLists.TypedList.Clear` | core/include/ten_utils/lib/typed_list.h:124-135 | Every node is destroyed exactly once, none is read after that, and the list is empty |
| `TypedLists.TypedList.ClearOne` | core/include/ten_utils/lib/typed_list.h:129-131 | One round of the loop |
| `TypedLists.TypedList.DetachNode` | core/src/ten_utils/container/list.c:150-195 | Unlinks exactly this node, wherever it stands, and leaves its own links alone |
| `TypedLists.TypedList.RemoveNode` | core/src/ten_utils/container/list.c:197-204 | Unlinks and destroys exactly this node |
| `TypedLists.TypedList.RemoveIf` | core/src/ten_runtime/common/closeable.c:558-590 | A loop that removes the node it stands on visits every original node: what is left are the nodes that do not meet the test, in order, and exactly the others are destroyed, once each |
| `TypedLists.KeptExactly` | core/src/ten_runtime/common/closeable.c:558-590 | What such a loop leaves are exactly the nodes that do not meet the test, in their order |
| `TypedLists.TypedList.RemoveOrKeep` | core/src/ten_runtime/common/closeable.c:558-590 | One round of that loop |
| `TypedLists.TypedList.RemovePtr` | core/src/ten_utils/container/list_ptr.c:70-81 | Removes and destroys the first node with this pointer, leaves the others in their order, and says whether there was one |
| `TypedLists.RemovePtrAt` | core/src/ten_utils/container/list_ptr.c:70-81 | Of several elements with the pointer the first is removed |
| `TypedLists.WithoutWhoIsFilter` | core/src/ten_runtime/common/closeable.c:558-590 | The queues of the closing protocol are edited by exactly this list operation |
| `Align.AndBits` | core/include/ten_utils/lib/align.h:19-21 | The conjunction used here is the bitwise one |
| `Align.NotBits` | core/include/ten_utils/lib/align.h:19-21 | The complement used here is the bitwise one |
| `Align.MaskLowBits` | core/include/ten_utils/lib/align.h:19-21 | Masking the low bits off subtracts the remainder modulo the power of two |
| `Align.AlignsUp` | core/include/ten_utils/lib/align.h:19-21 | For every power of two and every address: a multiple, namely the least one not below the address, or zero if the sum wraps |
| `Align.AlignsUpExactly` | core/include/ten_utils/lib/align.h:19-21 | The result is not below the address if and only if the sum does not wrap |
| `Align.AlignIdempotent` | core/include/ten_utils/lib/align.h:19-21 | Aligning twice is aligning once |
| `Align.AlignMonotone` | core/include/ten_utils/lib/align.h:19-21 | Greater addresses are not aligned to smaller ones |
| `Align.AlignsExactlyToPowers` | core/include/ten_utils/lib/align.h:19-21 | The results are multiples of the alignment for all addresses if and only if it is a power of two |
| `Migration.StepKeepsInv` | core/src/ten_runtime/connection/migration.c:82-155 | Every safe step of each of the threads keeps: order, one owner, references, every message counted once, and no assertion fails |
| `Migration.RunsInOrder` | core/include_internal/ten_runtime/connection/migration.h:28-39 | In every run of safe steps what was handed over is a prefix of what arrived, what the engine dispatched is a prefix of what is for it, the connection moves at most once, every reference belongs to a waiting task, and a message is dropped only by a connection that is closing |
| `Migration.NothingLeft` | core/src/ten_runtime/protocol/asynced/protocol_asynced.c:225-241 | With no task left everything that arrived has been handled, unless the first message was ignored; exactly then the protocol still waits for a notice |
| `Migration.DeafForEver` | core/src/ten_runtime/protocol/asynced/protocol_asynced.c:225-241 | That wait never ends: in every run after an ignored first message nothing more is handed over, whatever arrives, until the app closes the connection and ever after |
| `Migration.FrozenStays` | core/src/ten_runtime/app/msg_interface/common.c:75-78 | Each step leaves such a connection frozen or closing, and hands nothing over |
| `Migration.DroppingKeepsInv` | core/src/ten_runtime/protocol/asynced/protocol_asynced.c:67-84 | A closing connection hands nothing over, drops what reaches it, and forgets nothing |
| `Migration.CloseTaskKeepsInv` | core/src/ten_runtime/app/close.c:63-90 | The close task makes exactly the connections that are still orphans drop their messages; nothing that was handed over is out of order |
| `Migration.StepAdvances` | core/include_internal/ten_runtime/connection/connection.h:60-66 | The state goes from initial to first message and on to done or back; done stays done; the move to the engine happens once, out of the orphans |
| `Migration.UnsafeGoesWrong` | core/src/ten_runtime/protocol/asynced/protocol_asynced.c:132-139 | The condition for safe steps is exact: after any other step an assertion fails, a message is lost or a loop never ends |
| `Migration.ResumeIsLoop` | core/src/ten_runtime/protocol/asynced/protocol_asynced.c:132-139 | The loop over the messages held back, run while it feeds its own list: after a reset it loses the second of two and never ends with three or more, unless the connection is closing |
| `Migration.ResetLosesOne` | core/src/ten_runtime/protocol/asynced/protocol_asynced.c:132-139 | A run from an accepted connection in which the notice of a reset finds two messages held back and the second is lost |
| `Migration.StopGraphFails` | core/src/ten_runtime/engine/msg_interface/common.c:74-80 | A run from an accepted connection in which a first message that stops a graph makes an assertion fail |
| `Migration.IgnoredFreezes` | core/src/ten_runtime/app/msg_interface/common.c:75-78 | A run from an accepted connection whose first message is ignored, after which the protocol waits |
| `Migration.ImplKeepsInv` | core/src/ten_runtime/protocol/asynced/protocol_asynced.c:108-142 | A notice in the thread of the protocol releases the messages held back, in order |
| `Migration.ArriveKeepsInv` | core/src/ten_runtime/protocol/asynced/protocol_asynced.c:295-340 | A message that arrives joins the end of the stream, whichever thread it is posted to |
| `Migration.SentKeepsInv` | core/src/ten_runtime/app/msg_interface/common.c:38-61 | The first message: whatever the app finds out about it, it is in one place afterwards, and so is the connection |
| `Migration.AppHandlesKeeps` | core/src/ten_runtime/app/msg_interface/common.c:303-337 | Whatever the app finds out about a message, it is counted once, goes to an engine exactly if it is for one, and leaves owner, references and waiting messages as they were |
| `Migration.MigrateOrPushKeeps` | core/src/ten_runtime/app/msg_interface/common.c:38-61 | A message for an engine is in one place afterwards, moved with its connection or pushed, and the connection has one owner |
| `Migration.ConnCleanedKeepsInv` | core/src/ten_runtime/engine/internal/migration.c:48-83 | The first message enters the queue of the engine before the notice that lets later ones follow |
| `Migration.CleanedKeepsInv` | core/src/ten_runtime/connection/migration.c:70-80 | A cleaned task hands its reference on to the notice |
| `Migration.HandleKeepsInv` | core/src/ten_runtime/engine/msg_interface/common.c:55-158 | A ready engine dispatches its queue in order and gives the connection its remote |
| `Migration.AcceptedInv` | core/src/ten_runtime/connection/connection.c:427-440 | A connection that was just accepted meets the invariants if and only if the close task has not run |
| `Migration.ClosedExactly` | core/src/ten_runtime/protocol/asynced/protocol_asynced.c:406-408 | In every run a connection that is an orphan once the close task has run is told to close if and only if it was accepted before; one accepted later, which the listener of this protocol therefore refuses, is told nothing for good |
| `MigrationHistory.ArrivalsExactly` | core/src/ten_runtime/protocol/asynced/protocol_asynced.c:295-340 | In every run what is on record as arrived is what the client has sent, in order |
| `MigrationHistory.HandedExactly` | core/src/ten_runtime/protocol/protocol.c:271-309 | In every safe run what was handed over is what the loops took out for a connection that was not closing, in order, each rightly marked as for an engine or not |
| `MigrationHistory.DropsAtOnce` | core/src/ten_runtime/protocol/asynced/protocol_asynced.c:67-84 | A closing connection drops what arrives, what it held back and what it finds in the loop, each when it comes to it, and nothing else |
| `MigrationHistory.ToldExactly` | core/src/ten_runtime/app/close.c:92-116 | In every run the close task has been posted if and only if somebody has told the app to close |
| `MigrationHistory.CloseTaskInTurn` | core/src/ten_runtime/app/close.c:92-116 | The close task runs after exactly the tasks that were in the loop of the app when it was first told, whatever is posted later and however often it is told again |
| `Connections.Link.constructor` | core/src/ten_runtime/connection/connection.c:427-440 | The app appends the connection of a new client to its orphans, whether it was told to close or not |
| `Connections.Link.OnInputAsync` | core/src/ten_runtime/protocol/asynced/protocol_asynced.c:295-340 | The message joins the end of those that wait, with a reference for it if it is posted; a closing protocol drops it and does nothing else |
| `Connections.Link.Receive` | core/src/ten_runtime/protocol/asynced/protocol_asynced.c:538-576 | An arriving message keeps all invariants |
| `Connections.Link.OnMigrationIsDoneOrReset` | core/src/ten_runtime/connection/migration.c:82-124 | The notice brings its own reference, and moves no message and no owner |
| `Connections.Link.UpgradeToDone` | core/src/ten_runtime/connection/migration.c:126-155 | The engine becomes the one owner, if there is one; references are balanced and no message moves |
| `Connections.Link.ResetWhenEngineNotFound` | core/src/ten_runtime/connection/migration.c:157-170 | Owner, references and waiting messages stay as they were |
| `Connections.Link.DelOrphanConnection` | core/src/ten_runtime/app/internal.c:86-108 | Takes exactly this connection out of the orphans and leaves the others in their order; the assertion that it was there is met |
| `Connections.Link.NeedsToMigrate` | core/src/ten_runtime/connection/migration.c:29-68 | Unless the connection has to move it is not waiting for its first message any more; the one owner and the references are kept |
| `Connections.Link.Migrate` | core/src/ten_runtime/protocol/asynced/protocol_asynced.c:38-65 | The message is now the engine's alone; the connection has left the orphans and belongs to nobody twice |
| `Connections.Link.DoMigrationOrPush` | core/src/ten_runtime/app/msg_interface/common.c:38-61 | Either way the message ends up once among those of the engine |
| `Connections.Link.HandleCloseApp` | core/src/ten_runtime/app/msg_interface/common.c:200-218 | The notice is posted ahead of the close task, so that the protocol can be released before its connection is closed |
| `Connections.Link.CloseApp` | core/src/ten_runtime/app/close.c:92-116 | The first time, the close task is posted behind exactly the tasks in the loop; later calls change nothing; the invariants are kept |
| `Connections.Link.HandleInMsg` | core/src/ten_runtime/app/msg_interface/common.c:303-337 | The message is counted once and given to an engine exactly if it is for one; owner, references and waiting messages are kept |
| `Connections.Link.OnInput` | core/src/ten_runtime/protocol/protocol.c:271-309 | The message taken out of the loop is handed over or, by a closing protocol, dropped, once; the assertions on the way hold |
| `Connections.Link.OnConnectionCleaned` | core/src/ten_runtime/engine/internal/migration.c:48-83 | The message is in the queue, and the task that handles it in the loop, before the notice that lets later messages follow |
| `Connections.Link.HandleInMsgs` | core/src/ten_runtime/engine/msg_interface/common.c:55-158 | Dispatches the swapped-out queue in order; the connection has a remote from the first one on |
| `Connections.Link.OnBaseProtocolCleaned` | core/src/ten_runtime/protocol/asynced/protocol_asynced.c:108-142 | The loop over the held-back messages, with the next node read first: all are released in order, or dropped if closing; after a reset the second of two is lost |
| `Connections.Link.ReleaseOne` | core/src/ten_runtime/protocol/asynced/protocol_asynced.c:132-137 | One round of the loop over the held-back messages, with the node read ahead, keeps the relation to the list it feeds |
| `Connections.Link.RunAppTask` | core/src/ten_runtime/app/msg_interface/common.c:303-337 | In a state that meets the invariants no assertion of the task fails, and they hold afterwards |
| `Connections.Link.RunCloseTask` | core/src/ten_runtime/app/close.c:63-90 | The close task of the app: the connection is closing afterwards if and only if it is an orphan, and all invariants are kept |
| `Connections.Link.RunEngineTask` | core/src/ten_runtime/engine/internal/migration.c:85-103 | The same for the loop of the engine |
| `Connections.Link.RunImplTask` | core/src/ten_runtime/protocol/asynced/protocol_asynced.c:108-142 | The same for the thread of the protocol |
| `EngineQueues.RunsKeepOrder` | core/src/ten_runtime/engine/msg_interface/common.c:55-158 | In every run each message is in one place; and what has to wait for the engine to be ready is dispatched in the order of arrival, unless the engine became ready at an unsafe moment |
| `EngineQueues.OvertakenExactly` | core/src/ten_runtime/engine/on_xxx.c:88-98 | When the engine becomes ready, its loop dispatches messages of a connection out of order if and only if one is in the queue and another is in the loop ahead of the next handling |
| `EngineQueues.CommandOvertakes` | core/src/ten_runtime/engine/on_xxx.c:88-98 | A run in which a command that was put back is overtaken by the next one |
| `EngineQueues.FaultsExactly` | core/src/ten_runtime/engine/msg_interface/common.c:181-197 | The assertion on what is put into the queue fails if and only if the loop comes to a message that is no command before the engine is ready |
| `EngineQueues.DataFails` | core/src/ten_runtime/engine/internal/remote_interface.c:485-488 | A run that reaches that assertion |
| `EngineQueues.StepKeepsInv` | core/src/ten_runtime/engine/internal/remote_interface.c:434-492 | Every safe step keeps the order of what has to wait and meets the assertions: no message comes between those that wait in a ready engine and their handling |
| `EngineQueues.Engine.HandleInMsgsSync` | core/src/ten_runtime/engine/msg_interface/common.c:55-158 | The loop that puts messages back: their order is kept, a ready engine keeps none back, and one that is not ready dispatches none that has to wait |
| `EngineQueues.Engine.ReceiveFromRemote` | core/src/ten_runtime/engine/internal/remote_interface.c:434-492 | A ready engine dispatches the message; one that is not ready refuses a command to start a graph, dispatches a result, and puts anything else last into its queue with a handling for it |
| `EngineQueues.Engine.OnAllReady` | core/src/ten_runtime/engine/on_xxx.c:88-98 | Becoming ready posts the handling at the end of the loop, and keeps the order if the moment is safe |
| `EngineQueues.Engine.RunFirstTask` | core/src/ten_runtime/engine/msg_interface/common.c:160-167 | Each task of the loop loses and doubles nothing, keeps the order if it is safe, and does to a message what its kind asks for |
| `EngineHistory.PlacesExactly` | core/src/ten_runtime/engine/internal/remote_interface.c:457-488 | In every run, told from the events and the kinds alone: the engine has refused exactly the commands to start a graph that its loop came to before it was ready, dispatched exactly what came to a ready engine or may pass one that is not, and the rest waits in its queue |
| `EngineHistory.ByKind` | core/src/ten_runtime/engine/internal/remote_interface.c:460-488 | A result is dispatched as soon as the loop has come to it, ready or not; a command to start a graph is dispatched or refused then; no other message is refused |
| `EngineHistory.RunKeepsKinds` | core/src/ten_runtime/engine/msg_interface/common.c:130-149 | Before the engine is ready nothing is dispatched but results and a first command to start the graph, and no result waits in the queue behind the first message |
| `EngineHistory.ReadyRefusesNone` | core/src/ten_runtime/engine/internal/remote_interface.c:457-458 | A ready engine stays ready, refuses nothing, and dispatches at once what comes through the remote |
| `EngineHistory.TasksInTurn` | core/src/ten_runtime/engine/msg_interface/common.c:169-179 | The loop runs its tasks in the order in which they were posted, one handling for each message that is put into the queue |
| `EngineOrder.RunsInOrder` | core/include_internal/ten_runtime/connection/migration.h:28-39 | From arrival to dispatch, in every run of safe steps of both systems: the messages that wait for the engine are dispatched in the order of their arrival, whenever it becomes ready, and none is lost or doubled |
| `EngineOrder.StepKeepsInv` | core/src/ten_runtime/engine/msg_interface/common.c:55-158 | Every safe step keeps the invariants of the connection and of the queue, and that the loops of both hold the same messages |
| `EngineOrder.ComesAlone` | core/src/ten_runtime/engine/internal/migration.c:48-83 | A connection brings its first message to the engine and no other |
| `EngineOrder.InputIsFirst` | core/src/ten_runtime/protocol/protocol.c:271-309 | A message that a loop runs for a connection at the engine is the oldest one that waits |
| `EngineOrder.OthersWait` | core/src/ten_runtime/protocol/asynced/protocol_asynced.c:108-142 | Every other step leaves the messages in the loops where they are and adds only behind them |
| `EngineOrder.FirstIsDispatched` | core/src/ten_runtime/engine/msg_interface/common.c:130-149 | A run in which the first message is put back and dispatched when the engine has become ready |
| `AppClosing.StepKeepsInv` | core/src/ten_runtime/app/close.c:134-269 | Every event that creates nothing after on_deinit was started keeps the invariants |
| `AppClosing.ClosesOnce` | core/src/ten_runtime/app/close.c:92-116 | In every interleaving, with any number of closing threads: one close task, and on_deinit started once if all is closed and otherwise not at all |
| `AppClosing.DeinitAtTheLast` | core/src/ten_runtime/app/close.c:51-61 | on_deinit starts in the step that closes the last thing open, and only then, for engines with and without their own loop |
| `AppClosing.DisorderlyDeinitsTwice` | core/src/ten_runtime/app/engine_interface.c:80-93 | An engine created after on_deinit was started makes it start a second time when it stops |
| `AppClosing.EngineAfterDeinit` | core/src/ten_runtime/app/engine_interface.c:80-93 | A run from a configured app in which on_deinit starts twice |
| `AppClosing.EndsExactly` | core/src/ten_runtime/app/close.c:63-83 | A closing app comes to rest after finitely many events, in whatever order what was told to close does so; on_deinit has then started if and only if nothing created after the close task ran is still listed without a reason of its own to end |
| `AppClosing.StrandedForEver` | core/src/ten_runtime/app/close.c:63-83 | In every run, whatever else happens, something created after the close task ran keeps on_deinit from starting until it ends for a reason of its own |
| `AppClosing.CanComeToRest` | core/src/ten_runtime/app/close.c:63-83 | From every closing state such an order of events exists |
| `AppClosing.CompletionStep` | core/src/ten_runtime/app/close.c:134-269 | Each completion leaves less to do, and neither strands nor frees anything else |
| `AppClosing.CloseSyncKeepsInv` | core/src/ten_runtime/app/close.c:63-83 | The close task tells everything to close, whatever of it closes at once |
| `AppHistory.OpenExactly` | core/src/ten_runtime/app/internal.c:67-108 | In every run, told from the events alone: the app lists exactly the clients that were accepted and have neither left nor moved to an engine, and the engines that were created and whose end it has not dealt with; its parts are open until they close; it is closing exactly if it was asked to |
| `AppHistory.DeinitExactly` | core/src/ten_runtime/app/close.c:40-61 | In every run that creates nothing too late on_deinit has been started once if all that was ever opened is closed, by the events, and not at all before |
| `AppHistory.DeinitWaits` | core/src/ten_runtime/app/endpoint.c:60-69 | In every run whatsoever on_deinit is not started while the endpoint or the store is open or nobody has asked the app to close |
| `AppHistory.LongRunningStays` | core/src/ten_runtime/app/close.c:175-191 | A long-running app that nobody closes stays open in every run, whichever engines end |
| `AppHistory.TasksInTurn` | core/src/ten_runtime/app/engine_interface.c:31-45 | The loop of the app runs its tasks in the order in which they were posted: one for each engine that ended in its own loop, and the close task when the app is first asked to close |
| `AppHistory.OwnLoopWaits` | core/src/ten_runtime/app/engine_interface.c:47-70 | An engine that ended in its own loop is listed until the loop of the app runs the task for it |
| `AppHistory.OwnLoopPosts` | core/src/ten_runtime/app/engine_interface.c:56-62 | Its end changes nothing of the app but the tasks that wait |
| `AppHistory.ToldExactly` | core/src/ten_runtime/app/close.c:63-83 | In every run exactly what was open when the close task ran has been told to close |
| `AppHistory.WholeLife` | core/src/ten_runtime/app/close.c:134-269 | A run with every kind of event, in which on_deinit is started by the last one |
| `AppClosing.EngineReclaimedKeepsInv` | core/src/ten_runtime/app/close.c:134-196 | Exactly this engine leaves the list; the app is closing afterwards if and only if it was or is not long running, and posts the close task if and only if that changed |
| `Apps.App.constructor` | core/src/ten_runtime/app/endpoint.c:71-85 | A configured app: the context store is open, the endpoint exactly if it has an address, nothing is listed and nothing is closing |
| `Apps.App.CouldBeClose` | core/src/ten_runtime/app/close.c:40-49 | Between two steps the answer is yes if and only if on_deinit was started |
| `Apps.App.Close` | core/src/ten_runtime/app/close.c:92-116 | The app is closing, with one close task posted at the end of its loop the first time and none later |
| `Apps.App.CheckTerminationWhenEngineClosed` | core/src/ten_runtime/app/close.c:134-196 | Exactly this engine leaves the list; the app is closing afterwards if and only if it was or is not long running, with one close task posted at the end if that changed; on_deinit starts exactly if nothing is open |
| `Apps.App.OnEngineClosed` | core/src/ten_runtime/app/engine_interface.c:47-70 | From the loop of the engine one task is posted and nothing else changes; in the app loop the engine leaves the list at once and no task is posted for it |
| `Apps.App.DelOrphanConnection` | core/src/ten_runtime/app/internal.c:86-108 | Exactly this connection leaves the orphans; when it moves to an engine the invariants are kept and on_deinit is not started |
| `Apps.App.OnOrphanConnectionClosed` | core/src/ten_runtime/app/close.c:198-224 | Exactly this connection leaves the orphans, the app neither starts nor stops to close, and on_deinit starts exactly if it is closing and nothing is open |
| `Apps.App.OnProtocolClosed` | core/src/ten_runtime/app/close.c:226-234 | The endpoint is closed, nothing else leaves, and on_deinit starts exactly if the app is closing and nothing is open |
| `Apps.App.OnProtocolContextStoreClosed` | core/src/ten_runtime/app/close.c:236-269 | The same for the store |
| `Apps.App.CloseSync` | core/src/ten_runtime/app/close.c:63-83 | Everything listed is told to close; exactly the orphans that close at once leave the list while the loop walks it, and exactly the parts that close at once are closed; on_deinit starts if that was all |
| `Apps.App.RunFirstTask` | core/src/ten_runtime/app/close.c:85-90 | The step of the loop, with all invariants kept |
| `Apps.App.AddEngine` | core/src/ten_runtime/app/engine_interface.c:72-78 | The new engine is appended to the list, whenever it is created; the invariants are kept if on_deinit was not started |
| `Apps.App.AddOrphanConnection` | core/src/ten_runtime/app/internal.c:67-84 | The new connection is appended to the orphans; the invariants are kept |

## Left out

- Closing-root election (`intend_to_close`, `is_closing_root`, the `belong_to` list): runs start from `ten_closeable_close`, and the intend-to-close queue is kept but not announced; which of its entries a whole call drops is said only by the functions that edit it. By reading only: `closeable.h:320-330` calls the default search for a closing root recursive, while `closeable.c:254-289` and `633-645` ask the direct owners.
- Callbacks other than the default ones for a resource that depends on another; setting or changing the close action after creation.
- Registrations after a resource has started its action, and unregistering a resource from a closed one.
- Memory release, signatures, thread-check sanitizers, logging and the limit on loop lengths. Destruction is a ghost mark on list nodes.
- `Closeables.Closeable.Close`: the tree is required to be alive and the graph to have single owners and acyclic waiting; the program does not check either.
- `OutThreadAcks.RunInv`: the mutex is taken as given; each critical section is one step.
- The messages' contents and routing. A message is its number, and one connection with one engine is followed.
- The integrated protocol, whose callbacks run in the same thread; clean functions other than the one of the asynced protocol.
- Closing a connection for another reason than the close task of the app (its client leaves, its engine closes), and what a protocol does once it is closing except that it drops messages; `connection.h:206-208` asks the environment not to close a connection that migrates.
- Duplicate connections and engines that are closing.
- `Migration.HandleKeepsInv`: what the engine takes out of its queue counts as dispatched, and the connection is not a duplicate; putting messages back is in `EngineQueues`, and both together in `EngineOrder`.
- `Connections.Link.HandleInMsgs`: the same, for the messages of this connection.
- `Migration.RunsInOrder`: a connection accepted after the close task ran, which the listener of the asynced protocol refuses (`protocol_asynced.c:406-408`).
- Messages of other connections: in `EngineQueues` they appear only as further handlings of the queue.
- `Connections.Link.OnBaseProtocolCleaned`: a reset that finds three or more messages held back, for which the loop does not end (`Migration.ResumeIsLoop`).
- The place of the close task in the app's loop is kept as the number of tasks for this connection that are ahead of it.
- `Migration.StepKeepsInv`: the references counted are those beyond the connection's own, and a run may interleave tasks of other connections only where they make the engine handle its queue.
- Closing an app before it is configured, and `on_deinit_done`.
- In `AppClosing` clients may be accepted as long as the endpoint is open, as the integrated listener does (`protocol_integrated.c:272-327`); that the asynced one stops when it is told to close is not used there.
- `Apps.App.CloseSync`: what closes before the call that tells it to returns is a parameter; telling engines to close is only a posted task of theirs.
- `ten_typed_list_iterator_next`, `push_back_in_order`, reversal, in-place construction and the move and destruct functions of nodes; concatenating or copying a list with itself.
- Path tables, message conversion, schemas, metadata, addons, bindings, the command-line tools: calls, I/O or code of other components.
