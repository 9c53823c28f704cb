# Verified models of the task scheduler and of the file transfer

The repository is `enu`, a tool that sends a directory tree to a daemon over several connections, together
with the oneTBB task scheduler it runs on. This project models the parts of both in which correctness depends
on interleavings, on arithmetic or on incremental parsing, and proves what they are there for. Run
`dafny verify dfyconfig.toml` to check everything.

Concurrent code is modelled as a state machine: a state, the atomic accesses of every thread as steps (atomics
are sequentially consistent; stores that nobody can observe before a later one are merged with it), and theorems
about every state of every run with any number of threads and calls (`Behaviors`). Code that works in place on
its own data is a class with loops, proved against functions of the old state.

| file | what it models |
|---|---|
| `TaskPool` | the array under a task deque, compaction and growth |
| `TaskDeque`, `DequeRuns` | one owner and any number of thieves on a deque, with isolation, holes and roll-back |
| `DequeCalls` | what one whole call of get_task or steal_task does on that deque: which entry it takes, and when it may come back with nothing |
| `Mailbox`, `TaskProxy` | the linked queue of mailed proxies; the tagged word that decides who gets a proxied task |
| `ProxiedTasks` | pools, mailboxes and tagged words of an arena running together |
| `EventCount`, `WaitList` | the eventcount of `concurrent_monitor`; its intrusive list |
| `WorkerSlack`, `WorkerLifecycle` | the accounting of requested jobs and sleeping workers; launch, shutdown and reference counting |
| `AtomicFlag`, `FlaggedLanes`, `ArenaDemand` | the three-state flag; no lost work; the demand that flags announce |
| `Market` | the division of workers among priority levels and clients, and its books |
| `SerialStage`, `InputBuffer`, `PipelineTokens` | serial filters of a pipeline, their ring buffer, and the bound on live items |
| `Pipeline` | a whole pipeline: tasks, tokens and any sequence of filters together |
| `SmallObjectPool` | free lists and counters that decide who frees a pool |
| `DirectoryScan`, `TreeSync` | building the tree, and sending it in parallel with bubble-up removal |
| `Wire`, `NetIO`, `Daemon`, `Sender` | the message format, the read/write loops, the decoder of a connection, the sender, both together |
| `Behaviors`, `Sums` | runs and their induction principle; sums over sequences |

## Model

| member | source | states |
|---|---|---|
| TaskPool.RoundedCapacity | third-party/tbb/src/tbb/arena_slot.h:109-116 | an allocation for n entries provides at least n, fewer than 16 more, in whole cache lines |
| TaskPool.GrownCapacity | third-party/tbb/src/tbb/arena_slot.h:231-244 | room for the live entries and n more; the array grows exactly when fewer than 16 entries would stay free, and then it at least doubles and takes no more than rounding adds to that |
| TaskPool.PresentOfPresent | third-party/tbb/src/tbb/arena_slot.h:245-251 | compacting twice is compacting once |
| TaskPool.ArenaSlot.constructor | third-party/tbb/src/tbb/arena_slot.h:213-226 | a new slot is empty and has no array |
| TaskPool.ArenaSlot.PrepareTaskPool | third-party/tbb/src/tbb/arena_slot.h:213-261 | the tasks between the bounds are kept in order, the returned index is the new tail and has room for n; the fast path changes nothing, relocation resets head to 0 |
| TaskPool.ArenaSlot.Relocate | third-party/tbb/src/tbb/arena_slot.h:227-260 | the front of the array is exactly the non-null entries of [head, tail), in place or in the grown array, whose size is exact |
| TaskPool.ArenaSlot.CountPresent | third-party/tbb/src/tbb/arena_slot.h:231-233 | counts the non-null entries |
| TaskPool.ArenaSlot.AllocateTaskPool | third-party/tbb/src/tbb/arena_slot.h:109-116 | a fresh array of the rounded capacity |
| TaskPool.ArenaSlot.MovePresent | third-party/tbb/src/tbb/arena_slot.h:245-251 | copying to the front loses and reorders nothing although source and target may be the same array |
| DequeRuns.EveryTaskExactlyOnce | third-party/tbb/src/tbb/arena_slot.cpp:61-214 | in every interleaving of one owner and any thieves, the tasks returned, the empty proxies freed and the tasks between the logical bounds are together the tasks spawned, as bags |
| DequeRuns.AssertionsAndProgress | third-party/tbb/src/tbb/arena_slot.cpp:61-214 | the assertions on H0, T and T0 hold in every reachable state, no dead cell or cell outside the array is read, a call can begin whenever its caller is idle and the pool is there, and who waits for the lock waits for a thief that can move |
| DequeRuns.GetTaskReturns | third-party/tbb/src/tbb/arena_slot.cpp:143-145 | when get_task returns, tail is not negative, and without a result and without a skipped task the pool is reset and everything spawned has left it |
| DequeRuns.ArbitrateKeepsInv | third-party/tbb/src/tbb/arena_slot.cpp:77-98 | under the lock a thief that has not backed off is exactly one ahead, and the contents survive the decision |
| TaskDeque.TasksOfPresent | third-party/tbb/src/tbb/arena_slot.h:245-251 | compaction keeps the bag of tasks |
| DequeRuns.RelocationKeepsInv | third-party/tbb/src/tbb/arena_slot.h:213-261 | relocation inside spawn keeps the accounts of the deque |
| DequeRuns.CommitKeepsInv | third-party/tbb/src/tbb/arena_slot.h:158-166 | committing the new tail adds exactly the spawned task |
| DequeCalls.HowCallsEnd | third-party/tbb/src/tbb/arena_slot.cpp:61-214 | a call that is over, whatever other threads did meanwhile, has taken a task of its isolation after refusing every entry before it, or has refused everything up to the bound it read: head under the lock for the owner, tail for a thief |
| DequeCalls.HandedOutInIsolation | third-party/tbb/src/tbb/arena_slot.cpp:28-59 | a task is handed out only to a call in progress with no isolation or with the isolation of the task |
| DequeCalls.TakesTheNearest | third-party/tbb/src/tbb/arena_slot.cpp:61-214 | without interference a call takes a task if there is one it may take: the youngest such task for the owner, the oldest for a thief |
| DequeCalls.ExamineDecides | third-party/tbb/src/tbb/arena_slot.cpp:28-59 | at a position the owner takes a task of its isolation and stops, or refuses a hole, a foreign task or an empty proxy, which it frees, and goes on below |
| DequeCalls.LookDecides | third-party/tbb/src/tbb/arena_slot.cpp:153-186 | at a position a thief takes a task of its isolation and stops, or refuses a hole, a foreign task or a proxy left to its addressee, and goes on above |
| DequeCalls.CallsEnd | third-party/tbb/src/tbb/arena_slot.cpp:61-214 | every step of a call brings it nearer to its end while tail stays |
| DequeCalls.PopsWithoutLock | third-party/tbb/src/tbb/arena_slot.cpp:66-77 | a call of the owner in which no thief gets past its position neither waits for the lock word nor takes it |
| DequeCalls.LeavesDrainedPool | third-party/tbb/src/tbb/arena_slot.cpp:77-98 | under the lock the pool is left if and only if nothing remains below the position; a call that found nothing and skipped nothing has left it, with both bounds 0 |
| DequeCalls.SpawnPublishes | third-party/tbb/src/tbb/arena_slot.h:156-165 | a spawn is never held up: after three steps the owner is idle, the task is the youngest entry and the pool is published |
| TaskProxy.ExactlyOneTaker | third-party/tbb/src/tbb/mailbox.h:64-83 | never both places get the task; who fails finds the other served; the assertions on the tag hold; nobody frees a proxy the other may touch, and it is freed at most once |
| TaskProxy.AtTheEnd | third-party/tbb/src/tbb/mailbox.h:64-83 | when both places are done one has the task and the other has freed the proxy, once |
| ProxiedTasks.HandedOutOnce | third-party/tbb/src/tbb/task_dispatcher.cpp:54-71 | for any number of slots, mailboxes and proxies: pool and mailbox each give a proxy away at most once, never two takers hold the task, and at the end exactly one has got it and the other one has freed the proxy |
| ProxiedTasks.RacesAreRuns | third-party/tbb/src/tbb/arena.h:552-560 | in every step of the whole arena each proxy and its takers stand still or make a step of the race of `TaskProxy`, whose runs are therefore all there are |
| ProxiedTasks.NotFreedInPlace | third-party/tbb/src/tbb/arena_slot.cpp:32-50 | a freed proxy is never the entry a thief or an owner reads, be it only to compare its isolation, except by the owner extracting from it; it is not queued in its mailbox, and neither the tail nor a pusher that owes a store leads to its link |
| ProxiedTasks.ThiefsEntryIsAway | third-party/tbb/src/tbb/arena_slot.cpp:168-182 | a proxy a thief reads, whether it may take it or not, was sent from this slot and has not been given away by its pool |
| ProxiedTasks.OwnersEntryIsAway | third-party/tbb/src/tbb/arena_slot.cpp:32-50 | the same for a proxy the owner reads and is not extracting from |
| ProxiedTasks.BoxPops | third-party/tbb/src/tbb/task_dispatcher.h:452-462 | a proxy popped from a mailbox is the one mailed under that number, and its mailbox had not given it away |
| ProxiedTasks.ThrownAwayEmpty | third-party/tbb/src/tbb/arena_slot.cpp:38-50 | the owner of a pool throws a proxy away only when it is empty: it has freed it and the taker from the mailbox has the task |
| ProxiedTasks.NobodyStuck | third-party/tbb/src/tbb/arena_slot.cpp:61-214 | thieves, owners and owners inside extract_task can always go on, except for an owner that waits for a thief holding the lock word |
| ProxiedTasks.PlacesAreOpen | third-party/tbb/src/tbb/task_dispatcher.cpp:54-71 | running together holds nobody up: a send always begins, a proxy is spawned whenever the pool takes a task, a mailbox moves whenever it would by itself |
| Mailbox.PoppedOnceInOrder | third-party/tbb/src/tbb/mailbox.h:115-168 | under interleaved two-step pushes no proxy is popped twice, and proxies of one isolation are popped in push order |
| Mailbox.NothingLost | third-party/tbb/src/tbb/mailbox.h:115-168 | every pushed proxy is queued or popped, never both, never neither |
| Mailbox.PoppedIsUnreferenced | third-party/tbb/src/tbb/mailbox.h:129-153 | once popped, no pusher owes a store into a proxy and no link leads to it: it may be freed |
| Mailbox.TakesFirstMatch | third-party/tbb/src/tbb/mailbox.h:115-153 | pop takes the first queued proxy that matches the isolation and leaves the order of the rest |
| Mailbox.GivesUpOnlyIfNothingReady | third-party/tbb/src/tbb/mailbox.h:115-128 | pop returns nothing past a match only in front of a push still in progress |
| Mailbox.SpinWaitsForPusher | third-party/tbb/src/tbb/mailbox.h:142-148 | a consumer spinning for a successor waits for a pusher that has swung the tail and can store its link, after which the consumer moves on |
| Mailbox.HowPopsEnd | third-party/tbb/src/tbb/mailbox.h:115-153 | a whole call of pop with an isolation takes the first queued proxy it may take; it returns nothing only if all of those stand behind a push in progress |
| Mailbox.NobodyStuck | third-party/tbb/src/tbb/mailbox.h:115-168 | pushers can always link, an idle consumer can start, and one inside pop can go on unless it spins, nearer to its end with every step |
| EventCount.NoLostWakeup | third-party/tbb/src/tbb/concurrent_monitor.h:203-271 | a thread asleep although its condition is true is about to be woken by a notifier that has not returned |
| EventCount.BlocksUnlessNotified | third-party/tbb/src/tbb/concurrent_monitor.h:227-236 | a node that entered the waitset and found its condition false sleeps at its commit if and only if no notifier was in its critical section since it entered |
| EventCount.CancelledForAReason | third-party/tbb/src/tbb/concurrent_monitor.h:227-254 | a wait is cancelled only because the condition was true at the look or because of a critical section since entry; a caller that finds its condition true cancels |
| EventCount.SleepsUntilPosted | third-party/tbb/src/tbb/concurrent_monitor.h:167-174 | a sleeper comes back only after a notifier took its node in this session and then posted it |
| EventCount.SignalStays | third-party/tbb/src/tbb/concurrent_monitor.h:203-271 | what a notifier made true stays true until withdrawn, and a caller that looks in between cancels its wait |
| EventCount.LocksOnlyIfNeeded | third-party/tbb/src/tbb/concurrent_monitor.h:239-254 | a notifier that finds the waitset empty is done and has changed nothing; a cancelled wait goes to the mutex exactly if its node has not been taken |
| EventCount.NobodyElseWaits | third-party/tbb/src/tbb/concurrent_monitor.h:203-387 | notifiers never wait and come to an end; waiters wait for a permit only and every step brings them nearer to the end of the wait |
| EventCount.CallsBegin | third-party/tbb/src/tbb/concurrent_monitor.h:203-225 | an unused node is in no list and may prepare to wait, first pumping a wakeup it skipped, or be destroyed; anybody may notify |
| EventCount.ReleasedOnReturn | third-party/tbb/src/tbb/concurrent_monitor.h:319-387 | a node in the waitset before a matching notification began is not there, in that session, after it returned; a thread still asleep is held by another notifier about to post it |
| EventCount.WakeupsAreExact | third-party/tbb/src/tbb/concurrent_monitor.h:151-183 | over every run, for every node: removals by notifiers = posts + the one still owed, posts = passed P() + the permit that is there, owed and permit together at most 1, entries = removals + cancellations + being queued; for a destroyed node removals, posts and passes are equal |
| EventCount.StepBalances | third-party/tbb/src/tbb/concurrent_monitor.h:203-271 | every step of every thread keeps those accounts |
| EventCount.OwedByOneNotifier | third-party/tbb/src/tbb/concurrent_monitor.h:319-387 | a node still to be posted is out of the waitset, alive, not entering again, without a permit and in one private list only |
| EventCount.NothingLeftBehind | third-party/tbb/src/tbb/concurrent_monitor.h:151-174 | a returning wait and a destroyed node are in no list and owed no wakeup |
| EventCount.PumpTerminates | third-party/tbb/src/tbb/concurrent_monitor.h:176-179 | pumping a skipped wakeup never waits for a post that nobody owes |
| EventCount.WhoIsTaken | third-party/tbb/src/tbb/concurrent_monitor.h:280-417 | notify_one cuts off the oldest node, notify_all takes the list as it is, notify(predicate) takes exactly the matching nodes in reverse and leaves the others in order, notify_one(predicate) takes the youngest matching node only |
| EventCount.Taken | third-party/tbb/src/tbb/concurrent_monitor.h:280-417 | a critical section splits the waitset without loss or duplication |
| WaitList.List.constructor | third-party/tbb/src/tbb/concurrent_monitor.h:45-45 | the empty ring |
| WaitList.List.Add | third-party/tbb/src/tbb/concurrent_monitor.h:57-63 | the ring represents the old list with the node appended |
| WaitList.List.Remove | third-party/tbb/src/tbb/concurrent_monitor.h:66-71 | the ring represents the list without that node, whose own links stay readable |
| WaitList.List.FlushTo | third-party/tbb/src/tbb/concurrent_monitor.h:74-85 | all nodes move to the other ring in order and this one is empty |
| WaitList.TakeMatching | third-party/tbb/src/tbb/concurrent_monitor.h:362-377 | the backward traversal over changing links leaves exactly the non-matching nodes and collects the matching ones in reverse, with their flags cleared |
| WaitList.Visit | third-party/tbb/src/tbb/concurrent_monitor.h:368-376 | one round of that traversal |
| WaitList.Move | third-party/tbb/src/tbb/concurrent_monitor.h:372-374 | a node leaves one ring for the other; both stay well formed and apart |
| WaitList.TakeAll | third-party/tbb/src/tbb/concurrent_monitor.h:326-335 | the critical section of notify_all and abort_all: all nodes move in order and their flags are cleared |
| WaitList.PostAll | third-party/tbb/src/tbb/concurrent_monitor.h:337-341 | every node of the private list is posted once and in order although nothing is known of a node, its links included, once it has been posted; when posted, a node is marked as aborted exactly if it was before or the list is being aborted |
| WorkerSlack.SlackIsConserved | third-party/tbb/src/tbb/private_server.cpp:355-425 | jobs requested = slack + units in calls + active workers, always; positive slack beside a sleeping worker is owed a wake by somebody |
| WorkerSlack.ExactlyEnoughAwake | third-party/tbb/src/tbb/private_server.cpp:156-160 | when nothing moves any more exactly min(requested, all) workers are active, none if less than nothing is requested |
| WorkerSlack.EnoughWorkersAwake | third-party/tbb/src/tbb/private_server.cpp:386-414 | already when calls and chain reaction are over, at least that many are |
| WorkerSlack.SurplusWorkerSleeps | third-party/tbb/src/tbb/private_server.cpp:267-276 | with negative slack and a free mutex an active worker gets onto the list by its own steps and gives back one unit |
| WorkerSlack.SurplusSleeps | third-party/tbb/src/tbb/private_server.cpp:355-371 | from every settled state the workers alone come to rest, with exactly as many active as requested |
| WorkerSlack.CallsEnd | third-party/tbb/src/tbb/private_server.cpp:373-414 | a call is over after nine steps of its own; it claims only while there is slack, stops only with two units or without slack, and every unit pops a worker or is given back, the latter only when the list is empty |
| WorkerSlack.NobodyStuck | third-party/tbb/src/tbb/private_server.cpp:355-414 | a call waits only for a mutex whose holder can move; a worker that is not running is on the list, owed a notification, or can move |
| WorkerSlack.SumOfPopped | third-party/tbb/src/tbb/private_server.cpp:394-408 | popping distinct sleepers activates exactly as many workers |
| WorkerSlack.PopOwesWake | third-party/tbb/src/tbb/private_server.cpp:394-414 | after a pop the list is empty or somebody popped will look at it again |
| WorkerLifecycle.DestroyedOnceByTheLast | third-party/tbb/src/tbb/private_server.cpp:170-190 | references = one per worker that has not dropped its own + the client's; destroyed exactly when they are gone, once; no worker drops two |
| WorkerLifecycle.NobodyLeftAtDestruction | third-party/tbb/src/tbb/private_server.cpp:236-322 | at destruction shutdown is over, no call or thread is inside, every worker dropped one reference and every launched handle is released |
| WorkerLifecycle.HandleReleasedOnce | third-party/tbb/src/tbb/private_server.cpp:255-257 | every release finds the handle stored and not released |
| WorkerLifecycle.NothingStartsAfterQuit | third-party/tbb/src/tbb/private_server.cpp:284-322 | quit is final and no new launcher appears afterwards |
| WorkerLifecycle.LaunchAfterQuit | third-party/tbb/src/tbb/private_server.cpp:295-317 | a launch is still to come after quit if and only if shutdown found the worker starting and there is no handle yet |
| WorkerLifecycle.LaunchAfterQuitHappens | third-party/tbb/src/tbb/private_server.cpp:295-317 | a run in which a thread is launched after quit |
| WorkerLifecycle.NobodySleepsThroughShutdown | third-party/tbb/src/tbb/rml_thread_monitor.h:227-239 | once shutdown is past a worker, a sleeping thread has its permit or the one that set the notified flag, a waker or shutdown, owes the post and can make it |
| WorkerLifecycle.PostsAreSingle | third-party/tbb/src/tbb/rml_thread_monitor.h:227-233 | no two posts are owed to a worker at once and a post never finds a permit: the semaphore is binary |
| WorkerLifecycle.DestroyedInTheEnd | third-party/tbb/src/tbb/private_server.cpp:170-190 | once shutdown has begun, when no step is possible any more the server has been destroyed |
| WorkerLifecycle.WakingHasEffect | third-party/tbb/src/tbb/private_server.cpp:284-322 | a wake_or_launch that has returned has notified the thread, launched it or found it quitting |
| FlaggedLanes.SetsAndClearsAlternate | third-party/tbb/src/tbb/arena.h:139-180 | successful sets and successful clears strictly alternate over any number of threads |
| FlaggedLanes.ClearIsLaterThanEverySet | third-party/tbb/src/tbb/arena.h:144-176 | a clear that succeeds evaluated its predicate after the invocation of every test_and_set that has returned |
| FlaggedLanes.NoLostWork | third-party/tbb/src/tbb/arena.cpp:370-388 | while the flag is unset, work in a lane is being announced; with no announcement in flight every lane is empty |
| FlaggedLanes.BusyFlagHasOwner | third-party/tbb/src/tbb/arena.h:165-176 | a busy flag belongs to a clear that can move |
| FlaggedLanes.HowClearsEnd | third-party/tbb/src/tbb/arena.h:165-176 | try_clear_if succeeds only having found every lane empty, and fails only having found the flag not set, work in a lane, or its transaction interrupted |
| FlaggedLanes.CallsGoOn | third-party/tbb/src/tbb/arena.h:139-176 | every call can go on, and each step brings it nearer to its end |
| FlaggedLanes.WorkComesAndGoes | third-party/tbb/src/tbb/arena.cpp:370-388 | work put into a lane is there and being announced, and can be taken one by one; a clear can begin |
| ArenaDemand.Clamp | third-party/tbb/src/tbb/arena.cpp:445-446 | the point of the interval nearest to the argument |
| ArenaDemand.MinRequest | third-party/tbb/src/tbb/arena.cpp:439-440 | the lower bound asked for is 1 exactly when there is a mandatory request, otherwise 0 |
| ArenaDemand.MaxRequest | third-party/tbb/src/tbb/arena.cpp:442-446 | the upper bound asked for is the point nearest to the requested total in the arena's range, which is 0 or 1 for an arena without workers |
| ArenaDemand.SetMovesFlag | third-party/tbb/src/tbb/arena.h:144-163 | test_and_set reports success exactly when it moves the flag out of unset |
| ArenaDemand.ClearMovesFlag | third-party/tbb/src/tbb/arena.h:165-176 | try_clear_if reports success exactly when it moves the flag into unset |
| ArenaDemand.MoveIsBalanced | third-party/tbb/src/tbb/arena.h:491-528 | each step changes counters, pending deltas and flags by the same amount |
| ArenaDemand.DemandFollowsFlags | third-party/tbb/src/tbb/arena.h:491-528 | delivered plus pending demand is one mandatory request while the mandatory flag is raised and the arena's workers while the pool flag is (one by the mandatory flag when workerless) |
| ArenaDemand.SettledDemand | third-party/tbb/src/tbb/arena.cpp:384-449 | with no call under way counters equal flags and the clamp changes nothing |
| ArenaDemand.MandatoryWithoutWorkers | third-party/tbb/src/tbb/arena.cpp:384-400 | a run into the state the comment calls broken: mandatory flag set, pool flag unset, minimum 1 and maximum 0 |
| ArenaDemand.BrokenExactly | third-party/tbb/src/tbb/arena.cpp:384-400 | the flags are broken in a settled state if and only if the last change of a flag was a pool flag cleared while the mandatory flag was raised; in any state, or the call that raised the mandatory flag has yet to raise the pool flag |
| ArenaDemand.BrokenRequest | third-party/tbb/src/tbb/arena.cpp:431-449 | a settled arena with workers asks for a minimum of 1 and a maximum of 0 exactly then |
| ArenaDemand.AdvertiseRaises | third-party/tbb/src/tbb/arena.h:491-528 | an advertise_new_work that has returned has seen the pool flag raised or raised it, and for enqueued work the mandatory flag too |
| ArenaDemand.OutOfWorkDecides | third-party/tbb/src/tbb/arena.cpp:384-400 | an out_of_work that has returned has come to a decision about the mandatory flag and about the pool flag |
| Market.ServeOneMore | third-party/tbb/src/tbb/market.cpp:98-102 | carrying the remainder makes the running total the floor of the exact share, and no client gets more than its maximum |
| Market.ProportionalTotal | third-party/tbb/src/tbb/market.cpp:82-110 | a level hands out exactly its workers |
| Market.ProportionalFull | third-party/tbb/src/tbb/market.cpp:82-110 | a level with enough workers gives every client its maximum |
| Market.Client.constructor | third-party/tbb/src/tbb/market.cpp:48-50 | a new client asks for nothing |
| Market.Client.SetAllotment | third-party/tbb/src/tbb/market.cpp:86-106 | a client without demand gets 0 and keeps its mark; the first level with demand becomes the top one |
| Market.Client.UpdateRequest | third-party/tbb/src/tbb/pm_client.h:47-52 | the counters move by the deltas, the bounds stay in their clamp range, and the result is the change of the maximum |
| Market.ServeClient | third-party/tbb/src/tbb/market.cpp:86-107 | one more client served keeps all prefix totals exact (or the mandatory rule, for soft limit 0) |
| Market.ServeLevel | third-party/tbb/src/tbb/market.cpp:84-108 | every prefix of clients, last added first, has exactly the floor of its share; the carry ends at 0; top-priority marks are right |
| Market.Market.constructor | third-party/tbb/src/tbb/market.cpp:44-46 | an empty market with nothing requested is balanced and allotted |
| Market.Market.UpdateAllotment | third-party/tbb/src/tbb/market.cpp:71-111 | all levels are allotted in order of priority for the target min(demand, limit), a client with demand is marked top priority exactly when no level above has demand, the requests are untouched and the books stay balanced |
| Market.Market.ServeLevelOf | third-party/tbb/src/tbb/market.cpp:81-109 | the clients of one level get their shares and marks, no client of another level is touched |
| Market.Market.ServeNext | third-party/tbb/src/tbb/market.cpp:80-109 | one round of the outer loop: what is left, what was given, the first level with demand and the levels done so far are right again |
| Market.Market.RegisterClient | third-party/tbb/src/tbb/market.cpp:52-55 | a client without a request joins its level and disturbs neither books nor allotment |
| Market.Market.Find | third-party/tbb/src/tbb/market.cpp:61-61 | finds the client |
| Market.Market.UnregisterClient | third-party/tbb/src/tbb/market.cpp:57-65 | the client leaves its level; the books, mandatory requests included, stay balanced if and only if its maximum and its mandatory requests are 0 |
| Market.Market.RemoveAt | third-party/tbb/src/tbb/market.cpp:63-63 | erasing keeps the other clients, in order |
| Market.Market.SetActiveNumWorkers | third-party/tbb/src/tbb/market.cpp:113-119 | after a change of the limit everything is allotted for the new one |
| Market.Market.UpdateClient | third-party/tbb/src/tbb/market.cpp:127-127 | one client changes, the others do not |
| Market.Market.RecordRequest | third-party/tbb/src/tbb/market.cpp:126-133 | total demand = sum of levels = sum of maxima = sum of issued deltas, and the mandatory counter = sum of mandatory requests, before and after |
| Market.Market.AdjustDemand | third-party/tbb/src/tbb/market.cpp:121-139 | the change of the client's maximum is what is announced, and everything is allotted anew |
| Market.WorkersUsed | third-party/tbb/src/tbb/market.cpp:71-111 | with a positive limit the first n levels use min(their demand, target) |
| Market.AllWorkersAssigned | third-party/tbb/src/tbb/market.cpp:71-111 | with a positive limit the grand total is min(demand, limit) |
| Market.HigherLevelsFirst | third-party/tbb/src/tbb/market.cpp:80-109 | a level has workers only when every client above has its maximum |
| Market.MandatoryWorkers | third-party/tbb/src/tbb/market.cpp:93-97 | with limit 0 at most the target, 0 or 1, is assigned, and only to clients with a mandatory request |
| Market.MandatoryWorkerAssigned | third-party/tbb/src/tbb/market.cpp:93-110 | with limit 0 the closing assertion holds if and only if the target is 0 or some client has a mandatory request and a maximum above 0 |
| Market.AssertionCanFail | third-party/tbb/src/tbb/market.cpp:110-110 | calls of the market operations, with the requests of an arena whose flags are broken, after which the target is 1 and nobody has a worker |
| SerialStage.SerialOrder | third-party/tbb/src/tbb/parallel_pipeline.cpp:187-228 | for every order of arrival tokens run 0, 1, 2, ... with their own items, one at a time, the running one being low; low is never parked; what arrived has run or is parked |
| SerialStage.ArrivalsAreNew | third-party/tbb/src/tbb/parallel_pipeline.cpp:187-211 | no arrival finds its token passed, parked or running |
| SerialStage.EverythingRuns | third-party/tbb/src/tbb/parallel_pipeline.cpp:187-228 | when all tokens have arrived and nothing runs, all have run and nothing is parked |
| InputBuffer.MaskIsRemainder | third-party/tbb/src/tbb/parallel_pipeline.cpp:207-207 | masking with a power of two minus one is taking the remainder |
| InputBuffer.Ring.constructor | third-party/tbb/src/tbb/parallel_pipeline.cpp:156-166 | an empty buffer of four slots |
| InputBuffer.Ring.TryPutToken | third-party/tbb/src/tbb/parallel_pipeline.cpp:187-211 | the ring stores every token but low, overwriting none, growing only if it does not fit, and says whether it did |
| InputBuffer.Ring.NextToken | third-party/tbb/src/tbb/parallel_pipeline.cpp:216-228 | low advances; the item parked for it, if any, is handed out and no other is touched |
| InputBuffer.Ring.Grow | third-party/tbb/src/tbb/parallel_pipeline.cpp:250-268 | the new array is a power of two, at least twice as large and large enough, and holds the same tokens |
| PipelineTokens.LiveItemBound | third-party/tbb/src/tbb/parallel_pipeline.cpp:349-411 | items in flight never exceed the maximum, the token counter never underflows and accounts for all of them until input ends |
| PipelineTokens.OneReader | third-party/tbb/src/tbb/parallel_pipeline.cpp:281-287 | at most one task is to read input, and it finds a token |
| PipelineTokens.SomebodyReads | third-party/tbb/src/tbb/parallel_pipeline.cpp:398-409 | while tokens remain and input has not ended some task is to read |
| PipelineTokens.NeverStalls | third-party/tbb/src/tbb/parallel_pipeline.cpp:349-411 | all tasks are finished only after input has ended, with every token accounted for |
| PipelineTokens.EndsForAReason | third-party/tbb/src/tbb/parallel_pipeline.cpp:349-387 | the input is known to be over if and only if the first filter has returned nothing or declared the end |
| PipelineTokens.DrainsAfterTheEnd | third-party/tbb/src/tbb/parallel_pipeline.cpp:349-411 | after the end, unless a serial filter goes on returning items, no task reads again, unfinished tasks can move, and the number of steps left is bounded in advance |
| Pipeline.StagesAreRuns | third-party/tbb/src/tbb/parallel_pipeline.cpp:349-411 | in every step of a whole pipeline each buffer stands still or makes a step of `SerialStage`; that a token comes to a buffer once is derived |
| Pipeline.ArrivalIsAdmissible | third-party/tbb/src/tbb/parallel_pipeline.cpp:388-396 | an item that comes to a serial filter has a token that has not come there before, or gets a new one there |
| Pipeline.TokensDiffer | third-party/tbb/src/tbb/parallel_pipeline.cpp:179-181 | no two items have the same token, although the counter of the input filter is incremented without a lock |
| Pipeline.SameOrderEverywhere | third-party/tbb/src/tbb/parallel_pipeline.cpp:187-228 | all in-order filters run on the items in one and the same order, that of the input if the input filter is in order |
| Pipeline.RunsOnce | third-party/tbb/src/tbb/parallel_pipeline.cpp:349-411 | no serial filter runs twice on an item |
| Pipeline.EverythingComesOut | third-party/tbb/src/tbb/parallel_pipeline.cpp:349-411 | when all tasks are finished the input has ended, every item that was read has run through every serial filter and left, and nothing is parked |
| Pipeline.NeverStuck | third-party/tbb/src/tbb/parallel_pipeline.cpp:349-411 | while a task is not finished some step can be made: whatever is parked waits for an item that can move |
| Pipeline.ComesToAnEnd | third-party/tbb/src/tbb/parallel_pipeline.cpp:349-411 | once the input has ended and a serial input filter returns nothing more, the number of further steps of all tasks and items is bounded in advance |
| SmallObjectPool.CounterIsExact | third-party/tbb/src/tbb/small_object_pool.cpp:46-119 | before destruction the private counter is the outstanding objects plus both free lists |
| SmallObjectPool.FreedOnceAndLast | third-party/tbb/src/tbb/small_object_pool.cpp:87-152 | exactly one actor frees the pool, when every object is back and nobody can touch the pool any more |
| SmallObjectPool.FreedInTheEnd | third-party/tbb/src/tbb/small_object_pool.cpp:87-152 | when the owner is gone and every object accounted for, the pool has been freed |
| SmallObjectPool.CounterNotNegative | third-party/tbb/src/tbb/small_object_pool.cpp:143-143 | the assertion in destroy holds |
| SmallObjectPool.StepKeepsLists | third-party/tbb/src/tbb/small_object_pool.cpp:46-132 | both lists stay linked, disjoint and without repetition through every push, pop and exchange |
| SmallObjectPool.AllocationReuses | third-party/tbb/src/tbb/small_object_pool.cpp:46-75 | an allocation takes the first object of the private list, or else of the public one whose rest becomes private; a new one is made only when both are empty |
| SmallObjectPool.ReturnedAndReused | third-party/tbb/src/tbb/small_object_pool.cpp:87-119 | undisturbed, an object given back by another thread is first on the public list after two steps with nothing else changed, and is the next the owner hands out; given back to a dead pool it is counted |
| SmallObjectPool.NobodyStuck | third-party/tbb/src/tbb/small_object_pool.cpp:87-152 | returns and destruction can always begin and always go on |
| DirectoryScan.Scan | enu/main.cpp:238-292 | one node per regular file and directory, behind its parent; the children of each node are the entries of its directory as sorted; all unlocked; exact total |
| DirectoryScan.ListDirectory | enu/main.cpp:243-290 | one directory's entries become nodes and jobs, in the sorted order; what is done and what is left adds up |
| DirectoryScan.ComparisonIsOrder | enu/main.cpp:257-264 | on entries with distinct names the comparison is a strict weak order if and only if no entry other than a regular file stands by name between two regular files whose sizes are not increasing |
| DirectoryScan.ComparisonCanCycle | enu/main.cpp:257-264 | two files and a directory on which the comparison goes round in a circle |
| DirectoryScan.SmallestFirst | enu/main.cpp:257-264 | where it is an order, the regular files of a directory come smallest first and its subdirectories by name |
| DirectoryScan.SortKeepsCount | enu/main.cpp:257-264 | sorting loses no file and no byte, at any depth |
| TreeSync.RemovedLast | enu/main.cpp:358-373 | a node is sent and removed at most once, the root never removed, a directory removed only after all its descendants |
| TreeSync.NothingRemovedIsTouched | enu/tracked.h:123-127 | no step reads or writes a removed node |
| TreeSync.RunIsBounded | enu/main.cpp:409-459 | every run is finite: each step uses up work |
| TreeSync.HowItEnds | enu/main.cpp:352-459 | at the end every node was sent once, every node but the root removed once, the root has no children, all bytes are counted, and pending is empty if and only if the root had a child |
| TreeSync.EmptyRootKeepsItsEntry | enu/main.cpp:445-453 | a run on an empty root directory that leaves an entry in pending |
| TreeSync.ReportLast | enu/main.cpp:359-370 | when a count drops to zero all children have been reported |
| Wire.HeaderFields | enu/daemon.h:27-34 | the fields of an encoded header are read back, whatever the padding |
| Wire.SplitMore | enu/daemon.h:259-336 | decoding a longer stream goes on from what was left |
| Wire.MessageDecodes | enu/main.cpp:300-349 | an encoded message decodes to its operation and nothing of what follows is consumed |
| Wire.TruncatedDecodes | enu/daemon.h:259-336 | a message cut short yields nothing |
| Wire.RoundTrip | enu/daemon.h:259-336 | decoding the stream of a list of messages performs exactly their operations in order |
| Wire.PrefixDecodes | enu/daemon.h:259-336 | any prefix performs exactly the operations of the messages complete in it |
| NetIO.TransferOutcome | enu/net.h:28-45 | a loop over partial results moves no more than asked, fails only on a failing call and short of the goal, and stops early only at an end of stream |
| NetIO.TransferGoesOn | enu/net.h:28-70 | a loop ends with everything moved, or because the last result was an end or none was left, or it failed at a failing call; every other result moved a byte |
| NetIO.WritesAll | enu/net.h:28-52 | over a stream that neither breaks nor ends everything is written |
| NetIO.EnoughMoves | enu/net.h:54-70 | over such a stream a reading fails never and stops short only when nothing is left |
| NetIO.Clip | enu/net.h:30-43 | a call moves at least one byte and at most the chunk and what is there |
| NetIO.Channel.WritePartial | enu/net.h:28-45 | what is written is exactly the reported prefix of the data |
| NetIO.Channel.WriteExact | enu/net.h:47-52 | success if and only if everything was written; `NetIO.WritesAll` says when that is |
| NetIO.Channel.Receive | enu/net.h:58-63 | one reading takes the next bytes of the stream |
| NetIO.Channel.ReadPartial | enu/net.h:54-70 | what is read is exactly the next bytes of the stream, and reading stops short only at an end |
| NetIO.Channel.ReadExact | enu/net.h:72-77 | success if and only if everything was read |
| Daemon.Connection.constructor | enu/daemon.h:151-185 | a new connection has received and done nothing |
| Daemon.Connection.LogIsDecoded | enu/daemon.h:259-336 | between readings the operations performed are those of the complete messages received, no more and no fewer |
| Daemon.Connection.Advance | enu/daemon.h:260-266 | a reading fills the target from the current progress with the next bytes, up to the goal unless the stream runs out or fails |
| Daemon.Connection.ReadHeader | enu/daemon.h:274-286 | bytes move from the stream to the header, until it is full or the stream runs out; a full header announces the length of the path |
| Daemon.Connection.ReadPath | enu/daemon.h:288-322 | bytes move from the stream to the path, until it is complete or the stream runs out |
| Daemon.Connection.FinishPath | enu/daemon.h:292-321 | a full path opens a file or makes the directory, performing the operation of exactly this message |
| Daemon.Connection.ReadContents | enu/daemon.h:324-335 | bytes move to the temporary file, until it is complete or the stream runs out; it is renamed when complete and only then, empty files included |
| Daemon.Connection.Reset | enu/daemon.h:169-175 | the connection is ready for the next message |
| Daemon.Connection.OnHeader | enu/daemon.h:268-286 | a new message begins with its header, and leaves that stage only with a full header |
| Daemon.Connection.OnReadable | enu/daemon.h:259-336 | one event: bytes taken are added to what was received, nothing performed is undone, the log is again the decoding of what was received, also when reading fails; unless it fails or the stream runs out the message is completed and its one operation performed |
| Sender.SendMessage | enu/main.cpp:294-350 | what is written is a prefix of the encoded message, all of it on success, with progress equal to the size; a path over 65535 bytes writes nothing; over a stream that neither breaks nor ends a message whose path fits is sent |
| Sender.SendContents | enu/main.cpp:329-339 | the chunk loop writes a prefix of the contents in rounds of at most one chunk, ticks no more than it wrote, and over a stream that neither breaks nor ends writes everything |
| Sender.SendAll | enu/main.cpp:409-425 | a connection carries a prefix of the concatenated messages before the first one whose path does not fit; all of them on success, and success if all fit and the stream neither breaks nor ends |
| Sender.Fitting | enu/main.cpp:307-311 | the number of messages before the first path that does not fit |
| Sender.Serve | enu/daemon.h:217-336 | however the stream is cut into readings and wherever it ends, the operations are those of the first k messages, those that arrived completely; when the stream is whole and neither breaks nor ends early, all of them |
| Sender.SendAndServe | enu/main.cpp:294-350 | end to end: over streams that neither break nor end, however they cut the bytes, every message sent is performed, in order, with its path and contents |
| Sender.AllPerformed | enu/daemon.h:259-336 | when the whole stream has arrived every message has been performed and nothing is left |

## Where the code differs from what one expects

- `private_server.cpp` (wake_some) raises the slack outside of the list mutex; the model does as the code does.
- `arena.cpp:385-388` says the pool flag should be cleared first, the code clears the mandatory flag first; `ArenaDemand.MandatoryWithoutWorkers` reaches the state the comment warns of, `ArenaDemand.BrokenExactly` says exactly when it is reached, and `Market.AssertionCanFail` shows what it does to the closing assertion of `update_allotment`.
- Quit does not stop a launch that has begun: a thread can still be launched for a worker that is already told to quit. `WorkerLifecycle.LaunchAfterQuit` gives the exact condition and `WorkerLifecycle.LaunchAfterQuitHappens` a run.
- The map of pending counts is empty at the end except for an empty root directory, whose entry stays: `TreeSync.HowItEnds`, `TreeSync.EmptyRootKeepsItsEntry`.
- A client that leaves with a maximum above 0, or with mandatory requests, leaves the counters of the market wrong: `Market.Market.UnregisterClient` keeps the books exactly when both are 0.
- The comparison by which directory entries are sorted is not an order on every directory: `DirectoryScan.ComparisonIsOrder` says on which it is, `DirectoryScan.ComparisonCanCycle` shows a circle.

## Left out

- Memory orders weaker than sequential consistency, fences, back-off and padding: atomic accesses are indivisible steps.
- Fixed-width overflow: counters, tokens, products and epochs are mathematical integers; only the header fields have widths.
- Critical sections of the monitor's mutex are single steps in `EventCount`; `WaitList` has the same operations on the linked ring, without other threads.
- EventCount.ReleasedOnReturn: speaks of notify_all, abort_all and notify(predicate); the exception thrown by an aborted wait is not modelled.
- WorkerSlack.SlackIsConserved: covers the time before shutdown, which wakes workers without keeping the accounts.
- WorkerLifecycle.NobodyLeftAtDestruction: the client closes the connection only when no call of its own is inside the server.
- TrackedNode and the pending map are values in `TreeSync`: in-place erasure from a std::list and aliasing between nodes are not captured, only which node each step touches.
- TreeSync.HowItEnds: sends do not fail; after a failure the tool gives up and the tree stays.
- DirectoryScan.Scan: std::sort is a parameter that permutes, and sorts where the comparison is an order; that C++ leaves its behaviour undefined elsewhere is not captured. A directory that cannot be opened has no entries, and a failure in the middle of an iteration, which ends the tool, is not modelled.
- DirectoryScan.ListDirectory: the same.
- Sender.SendMessage: message sequence numbers and permissions are carried but no property is stated about them.
- File system effects are a log of operations; the parent directory of a file, mkdir failures, rename failures, sockets, poll, ssh and mmap are not modelled.
- mail_outbox::drain, notifications of the mailbox's idle flag, task streams, resumable tasks, contexts and cancellation, and the ±1 demand of nested arenas.
- stage_task: exceptions, cancellation and end-of-input flags per thread. In `Pipeline` a parked item keeps its task, where the code ends it and starts another one when the turn comes.
- Objects larger than 256 bytes, which bypass the small object pool.
- queuing_rw_mutex, RTM mutexes, the TCM adaptor, the file watchers, argument parsing, logging and progress display.
