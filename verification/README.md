# A verified model of the DVS / M3-IPC kernel module

The Distributed Virtual System keeps, on every node of a cluster, one process table per
distributed container (DC). A descriptor in it has run-time flags, the endpoints it waits
for, and three queues of other descriptors: processes sending to it, processes waiting for
its migration, processes waiting for its unbinding. This project models that table and the
protocols around it, and a few small cores of the same repository, and proves what they
keep over every run.

| file | what it models |
|---|---|
| `Descriptors.dfy`, `ProcTable.dfy`, `Dc.dfy` | the descriptor, the functions that give the new table of each operation, and the class `Dc` whose methods update the table in place |
| `Detach.dfy`, `UnbindInv.dfy`, `Answers.dfy` | the unbinding of a process: what it leaves of every other descriptor, and what every other process learns |
| `QueueOps.dfy`, `QueueRuns.dfy` | the queue invariant, one operation at a time and over every run of a DC |
| `Ipc.dfy` | where each call of the IPC goes, and the calls at both ends of a message together |
| `Steps.dfy` | what any step of a DC does to the sends and to the free slots |
| `Lifecycle.dfy`, `RefCount.dfy` | the decisions of bind and unbind, and the reference count of a DC over every run |
| `Locks.dfy` | the lock macros, run by any number of threads |
| `Groups.dfy`, `Outcomes.dfy`, `MigrationRuns.dfy` | migration of a thread group on one node, and of all its copies on all nodes |
| `Acks.dfy` | acknowledgements of remote sends, over every run of a DC |
| `Topology.dfy`, `Dvs.dfy` | DCs, nodes and proxy pairs: the functions, and the class `Dvs` |
| `Layout.dfy` | slot size, slot addresses, page order, process numbers in endpoints |
| `PageCopy.dfy` | the copy split at page boundaries |
| `ReadDir.dfy` | the V7 / FLEX directory reader |
| `CoreTemp.dfy` | CPU hotplug bookkeeping of the coretemp driver |
| `Wrappers.dfy` | the type of a value that may be missing |
| `Reaping.dfy` | reaping of zombies and accounting of their counters |

## How it is modelled

- `p_rts_flags` and `p_misc_flags` are sets of flags, queues are sequences of slot numbers, and
  the process table is an array. A method of a class is proved equal to a function of the old
  value; the theorems are about those functions. Loops that work on the table take the change to
  one descriptor as a function value, so that each loop is proved once.
- An operation holds the locks it needs, so it is one step of a run. What happens between two
  operations (a proxy sending a queued command, a message arriving, a thread stopping at its next
  call, proxies being connected) is a step too. `Locks` models the locks themselves.
- The queues of all sender proxies are kept as one sequence in order of arrival; the pair a
  descriptor waits for is in its own `proxy` field. Each pair has its own thread, so a proxy step
  may take any member.
- Wake-ups are the pseudo semaphore and the return code of the descriptor.

Where the code and its evident purpose differ, the model follows the code and states exactly when
the property holds. These came out:

- `do_unbind` answers a remote process that is queued with a sendrec request twice: once as a
  sender and, because SENDING is then clear, once more as a receiver. It is linked on the sender
  proxy's queue twice; the same happens to one that is already on that queue. The queue invariant
  survives an unbinding exactly if no such process waits (`UnbindInv.UnbindKeepsInvIff`), and the
  failing family is reachable from a fresh DC (`QueueRuns.RemoteSendrecThenUnbind`,
  `QueueRuns.UnbindCanFail`).
- A local process that waits for a message of an unbound one is woken exactly if it is not still
  sending or is on a queue of the unbound one (`Detach.ReceiverWokenIff`). A sendrec to a remote
  process whose request is still with the proxy is left waiting (`QueueRuns.ReceiverCanBeLeft`).
- Six more steps keep the queue invariant only under a condition, which is exact, and each can
  fail in a legal run: a sender that waited for a migration tries again while it is still linked
  and the migration goes on (`QueueRuns.ResendKeepsInvIff`); a remote send is given up after
  SENDING was cleared and before the proxy took the command, so that RMTOPER goes and the link
  stays (`QueueRuns.GiveUpKeepsInvIff`; a late acknowledgement does it, `QueueRuns.GiveUpCanFail`);
  a process that waits for an unbinding is woken by a signal and keeps its link
  (`QueueRuns.UnbindWokenKeepsInvIff`); a command the proxy turns down costs its process all flags
  (`QueueRuns.ProxyFailKeepsInvIff`); a process leaves its node while it is linked on a waiting
  queue (`QueueRuns.LeaveNodeKeepsInvIff`); `new_migrate` resets the flags of a descriptor that is
  queued as a sender (`QueueRuns.EnterNodeKeepsInvIff`).
- The flush of a receiver proxy clears SENDING without touching a link. It is safe because local
  processes name their own node (`Steps.DisconnectionKeepsQueues`).
- START does not look at NEEDMIGR, so rolling back restores the other flags of a thread exactly if
  it was not already marked (`Groups.StartFreezeRollback`).
- COMMIT takes the group-leader bit away on the old node and never sets it on the new one, so the
  process can be migrated again exactly if the copy on the new node carried the bit before
  (`MigrationRuns.NextStartIff`).
- The reference count of a DC goes wrong in three ways, and in no other (`RefCount.CountIsExact`,
  `RefCount.ReleasedEmptyIff`): a backup or replica bind into a used slot adds a reference nobody
  drops (`RefCount.BackupBindLeaks`); two ends of a DC that wait at the same time both drop the
  DC's own reference, and release the table under a process bound meanwhile
  (`RefCount.TwoEndsReleaseBound`); a backup unbound while the proxy holds its descriptor, which is
  then turned down, ends up in use without a reference (`RefCount.ProxyRaisesFreed`).
- A remote bind tests whether both proxies of the pair are bound, and then overwrites the result
  (mol-module/mm_hyper.c:1581-1586). `Lifecycle.BindOutcome` follows the code.
- If the local node were ever ended, initialising and releasing a DC would leave its bit in the
  node's map (`Topology.InitReleaseIff`). A disconnection can free a node that DCs still list if
  the node was ended under its pair (`Topology.PairConnOkIff`, `Topology.ConnCanFail`).
- When one proxy of a pair exits while the other is connected, the nodes of the pair are not
  ended; they stay attached and no pair carries them (`Topology.ExitEndsNodesIff`,
  `Topology.OrphanStays`).
- The slot size is a power of two only if the cache alignment is, and only then is shifting the
  same as multiplying (`Layout.ShiftIsMultiplicationIff`).
- `do_unbind` computes three slots by subtracting the number of tasks where the macros add it
  (mol-module/mm_hyper.c:2288, 2309, 2357). The model adds. `Layout.EndpointRoundTripIff` says when
  the two agree.
- In generation 0, and only there, process numbers below the first task come back out of an
  endpoint too, because the remainder of C truncates (`Layout.EndpointRoundTripIff`).
- The first extent of a directory decides its format unless it is 255; then the first later one
  that is not 255 decides, and only from its own block on (`ReadDir.FormatDecided`,
  `ReadDir.OneFormatIff`).
- A core id of 32 or more leaves the device of its package behind (`CoreTemp.DeviceLeftIff`).
- Counters are lost when the last thread of a process is released without a parent waiting for it
  (`Reaping.StepConservesIff`).

## Model

| member | source | states |
|---|---|---|
| `DcDescriptor.Dc.constructor` | mol-module/mm_hyper.c:1027-1062 | after initialisation every slot is free with its own endpoint, the DC has one node and one reference |
| `DcDescriptor.Dc.DrainWith` | mol-module/mm_hyper.c:2197-2221 | a loop that unlinks the head of a queue and handles it until the queue is empty changes each member once and queues the selected ones for the proxy in queue order |
| `DcDescriptor.Dc.ForEachOther` | mol-module/mm_hyper.c:2225-2267 | the walk over all other descriptors handles each exactly once and never the process itself |
| `DcDescriptor.Dc.AnswerAll` | mol-module/mm_hyper.c:2192-2267 | the first two passes of the clean-up together give the table `Answered` |
| `DcDescriptor.Dc.EmptyQueues` | mol-module/mm_hyper.c:2272-2402 | leaving the proxy's, the destination's, the migration and the unbinding queue and emptying both own waiting queues gives the table `Emptied` |
| `DcDescriptor.Dc.DoUnbind` | mol-module/mm_hyper.c:2123-2414 | the table, the count and the release after every verdict are those of `RefCount.UnbindStep`, and the return code of each |
| `Lifecycle.VerdictMeans` | mol-module/mm_hyper.c:2138-2190 | a slot is cleaned up exactly if all tests pass and the process is remote and no backup, or local and the caller itself; a backup loses its slot without clean-up; a local process unbound by another is only marked or signalled |
| `Lifecycle.RefusalNames` | mol-module/mm_hyper.c:2138-2165 | a refused unbinding names the first reason, of the process before the caller |
| `Lifecycle.VerdictLeaves` | mol-module/mm_hyper.c:2167-2190 | a process in a copy is marked exactly if it asked for the copy, one that is signalled ends its wait with EMOLSHUTDOWN exactly if it waits and the signal was delivered |
| `Lifecycle.BindGives` | mol-module/mm_hyper.c:1520-1600 | the descriptor of a new process: where it runs, its system id, and the bits of a leader, replica or backup exactly if it is one |
| `Lifecycle.BindAnswers` | mol-module/mm_hyper.c:1406-1600 | every answer of a bind with the exact condition for it |
| `Lifecycle.AutobindAnswers` | mol-module/mm_hyper.c:1635-1675 | every answer of an automatic bind with the exact condition for it |
| `Lifecycle.RewireThenBind` | mol-module/mm_hyper.c:849-873 | after the nodes of a DC have changed, a free slot can be bound on exactly the nodes it now has |
| `Lifecycle.BindIsStep` | mol-module/mm_hyper.c:1430-1627 | a successful bind of any kind into a free slot is the bind step of the queue runs, but for flags no queue depends on |
| `Lifecycle.AutobindIsStep` | mol-module/mm_hyper.c:1635-1700 | a successful automatic bind is the automatic bind step of the queue runs |
| `DcDescriptor.Dc.Clear` | mol-module/mm_hyper.c:1744-1758 | the loop that ends the processes of a DC or of a node unbinds exactly those it does not keep, in slot order, with the table and the count of `RefCount.ClearFrom` |
| `DcDescriptor.Dc.NodeEnds` | mol-module/mm_hyper.c:3078-3094 | the end of a node unbinds exactly its remote processes, then takes it out of the DC |
| `DcDescriptor.Dc.EndWalk` | mol-module/mm_hyper.c:1761-1779 | the second loop stops at the first slot in use, and drops the reference of the DC exactly if there is none |
| `DcDescriptor.Dc.MmBind` | mol-module/mm_hyper.c:1406-1627 | every outcome of a bind with its code: refused without a trace, failed with the slot initialised, or bound with one more reference |
| `DcDescriptor.Dc.DoAutobind` | mol-module/mm_hyper.c:1635-1700 | every outcome of an automatic bind with its code, in the order of the tests; bound under its own endpoint with one more reference |
| `DcDescriptor.Dc.Wait4Unbind` | mol-module/mm_hyper.c:589-597 | the caller joins the unbinding queue with its flag and target set |
| `DcDescriptor.Dc.Warn2Proc` | mol-module/mm_hyper.c:14-138 | a local destination gets a sendrec, delivered or queued; a remote one a send through the proxy that leaves it as the source to receive from; without a proxy nothing changes |
| `DcDescriptor.Dc.FlushMigrList` | mol-module/mm_migrate.c:26-46 | the loop leaves the migration queue empty and the table as `Drained` says |
| `DcDescriptor.Dc.FlushSendingList` | mol-module/mm_migrate.c:55-90 | the loop leaves the senders' queue empty and the table as `Drained` says |
| `DcDescriptor.Dc.FlushSendingProcs` | mol-module/mm_utils.c:999-1058 | the loop over the proxy queue is one flush after the other, of the members that wait for this pair and this node |
| `DcDescriptor.Dc.FlushReceivingProcs` | mol-module/mm_utils.c:1067-1149 | the loop over all processes gives the table `FlushReceivers` |
| `DcDescriptor.Dc.CheckGroup` | mol-module/mm_migrate.c:127-149 | the check loop returns the error of the first bad thread, or OK |
| `DcDescriptor.Dc.MigrStart` | mol-module/mm_migrate.c:182-245 | return code and new table of START |
| `DcDescriptor.Dc.MigrRollback` | mol-module/mm_migrate.c:99-171 | return code and new table of ROLLBACK |
| `DcDescriptor.Dc.OldMigrate` | mol-module/mm_migrate.c:257-323 | return code and new table of COMMIT on the old node |
| `DcDescriptor.Dc.MigrCommit` | mol-module/mm_migrate.c:370-413 | return code and new table of COMMIT on the old, the new and any other node, with the test of the first DC's bit in the new node's map |
| `DcDescriptor.Dc.GenericAckLcl2Rmt` | mol-module/mm_acks.c:16-34 | the acknowledgement goes to the remote process on its own node in the name of the local one, and is queued exactly if that node has a proxy |
| `DcDescriptor.Dc.ErrorLcl2Rmt` | mol-module/mm_acks.c:42-60 | the answer to a header swaps its source and destination |
| `DcDescriptor.Dc.SendAckRmt2Lcl` | mol-module/mm_acks.c:137-162 | accepted exactly if the process waits in SENDING for that endpoint; which error otherwise |
| `DcDescriptor.Dc.GenericAckRmt2Lcl` | mol-module/mm_acks.c:169-196 | a copy acknowledgement posts the requester exactly if it waits for the copy alone |
| `Detach.InvGivesLists` | mol-module/mm_hyper.c:2197-2402 | under the queue invariant every queue is a proper list: members of the table, each once, never the owner |
| `Detach.UnboundAt` | mol-module/mm_hyper.c:2192-2414 | what the clean-up does to any other descriptor |
| `Detach.SlotFreed` | mol-module/mm_hyper.c:2409 | the slot is free, reset but for its endpoint, and its three queues are empty |
| `Detach.UnboundOutq` | mol-module/mm_hyper.c:2212-2219 | the proxy queue is the old one, then the answered remote senders in queue order, then the answered remote receivers, without the process itself; nobody else joins it |
| `Detach.FullDetachment` | mol-module/mm_hyper.c:2192-2414 | full detachment: the slot is free, the process is on nobody's queue, no bound process keeps its notify bit, all other queues lost only this process, every remote process it was to answer waits for the proxy if its node has one, and a local process is woken exactly if it was queued on it or waited for its message with its own send over |
| `Detach.ReceiverWokenIff` | mol-module/mm_hyper.c:2225-2267 | a local process receiving from the unbound one is woken exactly if it is not sending, or is on one of its queues |
| `Answers.UnbindInforms` | mol-module/mm_hyper.c:2192-2402 | every other descriptor after an unbinding: a local process finds OK if it waited for the unbinding, else EMOLNOTBIND if it waited for a migration, else EMOLSRCDIED if it waited for a message and was not sending elsewhere, else EMOLDSTDIED if it was queued as a sender, and is posted once for each; a remote one gets the acknowledgement of its request or of its message, addressed to it in the name of the unbound one; nothing else changes |
| `Answers.UnbindQueues` | mol-module/mm_hyper.c:2211-2265 | who is on a proxy queue afterwards: who was, and the remote processes acknowledged whose node has a proxy |
| `Answers.RemoteWaiterAnswer` | mol-module/mm_hyper.c:2318-2402 | a remote member of a waiting queue, which the invariant rules out, would be acknowledged with EMOLNOTBIND or OK |
| `Answers.EmptiedSelf` | mol-module/mm_hyper.c:2272-2402 | before its slot is reset the process itself waits for nothing any more and nobody waits for it |
| `UnbindInv.AcksApart` | mol-module/mm_hyper.c:2211-2265 | a remote process that waits for an answer is linked a second time exactly if it is still queued as a sender or already on a proxy queue |
| `UnbindInv.OutqNoDup` | mol-module/mm_hyper.c:2192-2402 | the proxy queue has no duplicate after the clean-up exactly if nobody is linked twice |
| `UnbindInv.UnbindKeepsInvIff` | mol-module/mm_hyper.c:2192-2414 | the clean-up keeps the queue invariant exactly if no remote process that waits for its answer, on a node with a route, is still queued on it as a sender or already on a proxy queue |
| `QueueOps.PushPKeeps` | mol-module/mm_hyper.c:124-137 | joining a senders' queue with flag and target set keeps the invariant |
| `QueueOps.PushOutKeeps` | mol-module/mm_sproxy.c:19-49 | joining the proxy queue with the pair remembered, and being on no queue before, keeps the invariant |
| `QueueOps.PushMKeeps` | mol-module/mm_ipc.c:28-252 | joining a migration queue keeps the invariant |
| `QueueOps.PushUKeeps` | mol-module/mm_hyper.c:589-597 | joining an unbinding queue keeps the invariant |
| `QueueOps.DroppingKeeps` | mol-module/mm_hyper.c:612-617 | leaving queues keeps the invariant |
| `QueueOps.FlushMigrMatches` | mol-module/mm_migrate.c:31-45 | under the invariant the arm of the loop for a waiter of another endpoint is never reached |
| `QueueOps.FlushConserves` | mol-module/mm_migrate.c:55-90 | every queued sender ends as exactly one of: a local process with SENDING and RECEIVING clear, woken with EMOLMIGRATE iff no flag is left; a remote one queued with its own command plus the acknowledge bit, source and destination swapped; a dropped acknowledgement; and the queue is empty |
| `QueueOps.OutcomesExclusive` | mol-module/mm_migrate.c:65-87 | no sender has two of these outcomes |
| `QueueOps.MigrDoneKeeps` | mol-module/mm_migrate.c:26-46 | flushing the migration queue keeps the invariant |
| `QueueOps.SendersReplayKeeps` | mol-module/mm_migrate.c:55-90 | flushing the senders' queue keeps the invariant |
| `QueueRuns.SendInv` | mol-module/mm_ipc.c:28-252 | a send or sendrec keeps the invariant: local delivery, local queue, migration queue, proxy queue |
| `QueueRuns.RemoteSendInv` | mol-module/mm_ipc.c:127-176 | the remote arm of a send, sendrec or notification keeps the invariant |
| `Ipc.SendGoes` | mol-module/mm_ipc.c:84-232 | a send or sendrec goes to the migration queue, through the proxy with its command addressed, straight to a receiver that awaits it, or to the end of the senders' queue, exactly by the state of the destination; nobody else changes |
| `Ipc.ResendGoes` | mol-module/mm_ipc.c:84-232 | a replayed send goes the same way and keeps the flags of migrations |
| `QueueRuns.ResendKeepsInvIff` | mol-module/mm_ipc.c:84-119 | a send tried again, after a wait for a migration or for a replay, keeps the invariant exactly if the destination does not migrate, or the process is local and on no migration queue |
| `QueueRuns.ResendCanFail` | mol-module/mm_ipc.c:97-106 | a send to a frozen process in a fresh DC that times out reaches the failing case |
| `QueueRuns.WarnInv` | mol-module/mm_hyper.c:14-138 | the warning of an exiting process keeps the invariant |
| `Ipc.WarnGoes` | mol-module/mm_hyper.c:14-138 | the warning is a sendrec to a local process and, to a remote one, a send that leaves the caller ready to hear from it |
| `QueueRuns.NotifyInv` | mol-module/mm_ipc.c:733-995 | a notification, local, remote or to a migrating process, keeps the invariant |
| `Ipc.NotifyGoes` | mol-module/mm_ipc.c:814-995 | a notification is given to a receiver that awaits it, sent to the node of a remote one, or left pending, exactly by the state of the destination |
| `QueueRuns.ArriveInv` | mol-module/mm_rproxy.c:17-93 | the arrival of a remote message keeps the invariant |
| `Ipc.ArriveGoes` | mol-module/mm_rproxy.c:17-93 | a message from another node is given to a receiver that awaits it, with an acknowledgement unless an answer is expected, or its sender is queued |
| `QueueRuns.ReceiveInv` | mol-module/mm_ipc.c:263-477 | a receive, which may take a pending notification or a queued sender, keeps the invariant |
| `Ipc.ReceiveNotified` | mol-module/mm_ipc.c:356-398 | a receive takes the lowest pending notification first, whoever it asks for |
| `Ipc.ReceiveBlocks` | mol-module/mm_ipc.c:451-455 | without one it blocks exactly if nobody it asks for is queued |
| `Ipc.ReceiveTakesFirst` | mol-module/mm_ipc.c:403-445 | else the first queued sender it asks for leaves the queue, stops sending, and is woken or acknowledged; the others stay in order and nobody else changes |
| `QueueRuns.ReceiveExitInv` | mol-module/mm_ipc.c:456-461 | the error exit of a receive keeps the invariant |
| `QueueRuns.WaitForUnbindInv` | mol-module/mm_hyper.c:589-597 | waiting for an unbinding keeps the invariant |
| `QueueRuns.UnbindTimeoutInv` | mol-module/mm_hyper.c:612-617 | its time-out keeps the invariant |
| `QueueRuns.UnbindWokenKeepsInvIff` | mol-module/mm_hyper.c:599-609 | the end of the sleep without a time-out keeps the invariant exactly if the waiter was unlinked before |
| `QueueRuns.UnbindWokenCanFail` | mol-module/mm_hyper.c:589-609 | a signal to a waiter in a fresh DC reaches the failing case |
| `QueueRuns.GiveUpKeepsInvIff` | mol-module/mm_ipc.c:181-193 | the error exit of a send or sendrec, local or remote, which unlinks only while SENDING is set and clears its flags in any case, keeps the invariant exactly if SENDING is set or no proxy holds the descriptor |
| `QueueRuns.GiveUpCanFail` | mol-module/mm_acks.c:144-160 | a legal run of seven steps from a fresh DC, ending with the late acknowledgement of an abandoned send, reaches the failing case |
| `QueueRuns.ProxyTakeInv` | mol-module/mm_sproxy.c:117-516 | a sender proxy sending off any queued command, in whatever order the pairs do, keeps the invariant |
| `QueueRuns.ProxyFailKeepsInvIff` | mol-module/mm_sproxy.c:136-236 | a command turned down by a proxy, whichever is queued, keeps the invariant exactly if its process is linked on no migration or unbinding queue |
| `Ipc.TakenBecomes` | mol-module/mm_sproxy.c:240-516 | what a sent-off command leaves of its descriptor: SENDING stays exactly for a send of a local process, and only a notification wakes its caller |
| `Ipc.TurnedDownBecomes` | mol-module/mm_sproxy.c:187-236 | a command turned down leaves a local process running with the error, a remote one only remote |
| `QueueRuns.FlushSenderInv` | mol-module/mm_utils.c:999-1058 | the flush of a queued descriptor when its node is disconnected keeps the invariant |
| `Ipc.FlushedBecomes` | mol-module/mm_utils.c:1018-1053 | a flushed command ends exactly the waits of its call, and its caller is woken with EMOLNOTCONN if none is left |
| `Ipc.UnheardBecomes` | mol-module/mm_utils.c:1090-1124 | a local process stops waiting for a message from the disconnected node, and for one to take its own, and is woken with EMOLNOTCONN exactly if that leaves it running |
| `QueueRuns.FlushReceiversKeepsInvIff` | mol-module/mm_utils.c:1067-1149 | the flush of the processes that wait for a disconnected node keeps the invariant exactly if no local process is queued on a process of that node |
| `Steps.EveryRunHomed` | mol-module/mm_migrate.c:257-361 | in every run a bound local process names this node as its own |
| `Steps.DisconnectionKeepsQueues` | mol-module/mm_hyper.c:2894-2917 | in every run both flushes of a disconnection of another node keep the invariant |
| `Groups.FlushTakesAll` | mol-module/mm_utils.c:999-1058 | the whole flush takes exactly the commands for the disconnected node off the queue of the pair and keeps the invariant |
| `Ipc.SendThenReceive` | mol-module/mm_ipc.c:28-477 | a send and then the receive that asks for it: both run, the sender was woken once with OK, the queue is as before |
| `Ipc.ReceiveThenSend` | mol-module/mm_ipc.c:28-477 | the other order: both run, the receiver was woken once with OK |
| `Ipc.CallAndAnswer` | mol-module/mm_ipc.c:482-727 | a sendrec to a waiting server and the server's send back: both run and the client was woken once |
| `Ipc.RemoteSendCompletes` | mol-module/mm_acks.c:137-162 | a send to another node, taken by the proxy and acknowledged: its caller runs, woken once with the code of the acknowledgement |
| `Ipc.RemoteCallCompletes` | mol-module/mm_rproxy.c:17-93 | a sendrec to another node, taken by the proxy and answered by a message: its caller runs |
| `Ipc.EarlyArrival` | mol-module/mm_rproxy.c:17-93 | a message from another node that finds its receiver busy is acknowledged when it is asked for |
| `Ipc.LateArrival` | mol-module/mm_rproxy.c:17-93 | one that is awaited is acknowledged at once, with the same acknowledgement |
| `Ipc.AnswerSentOff` | mol-module/mm_sproxy.c:240-516 | once it is sent off the remote descriptor and the proxy queue are as before |
| `Ipc.SendThenGiveUp` | mol-module/mm_ipc.c:216-228 | giving up a queued send leaves every other descriptor as it was before |
| `Ipc.RemoteSendThenGiveUp` | mol-module/mm_ipc.c:181-193 | the same of a send still with the proxy, but that a plain send has taken RECEIVING from the remote descriptor |
| `Ipc.ReceiveThenExit` | mol-module/mm_ipc.c:451-461 | a receive that blocks and gives up leaves no trace |
| `Ipc.WaitThenTimeout` | mol-module/mm_hyper.c:589-617 | a wait for an unbinding that times out leaves both descriptors as they were |
| `Ipc.ExitsUnlinkOnly` | mol-module/mm_hyper.c:612-617 | a wait that ends by its own exit drops the link of that wait and no other, whatever else the process waits for |
| `Ipc.NotifyThenReceive` | mol-module/mm_ipc.c:356-398 | a notification left pending is what the next receive takes, and both processes are as before |
| `QueueRuns.SendAckInv` | mol-module/mm_acks.c:137-162 | an acknowledgement keeps the invariant |
| `QueueRuns.ThawInv` | mol-module/mm_migrate.c:395-408 | a commit on a third node keeps the invariant |
| `QueueRuns.RollBackInv` | mol-module/mm_migrate.c:99-171 | a rollback keeps the invariant; of a remote descriptor it leaves the migration queue as it is |
| `QueueRuns.LeaveNodeKeepsInvIff` | mol-module/mm_migrate.c:292-323 | a commit on the old node keeps the invariant exactly if the process is linked on no migration or unbinding queue |
| `QueueRuns.LeaveAndProxyCanFail` | mol-module/mm_migrate.c:292-323 | a legal run from a fresh DC after which neither this commit nor a failing proxy keeps the invariant |
| `QueueRuns.EnterNodeKeepsInvIff` | mol-module/mm_migrate.c:329-361 | a commit on the new node keeps the invariant exactly if the descriptor is not queued as a sender |
| `QueueRuns.EnterCanFail` | mol-module/mm_migrate.c:329-361 | a message of a remote process to a busy local one, then the commit of the remote process here, reaches the failing case |
| `QueueRuns.BindInv` | mol-module/mm_hyper.c:1430-1627 | a bind into a free slot keeps the invariant |
| `QueueRuns.AutobindInv` | mol-module/mm_hyper.c:1635-1700 | an automatic bind keeps the invariant |
| `QueueRuns.StepKeepsInvIff` | mol-module/mm_hyper.c:2123-2414 | each of the 25 steps of a DC keeps the invariant if and only if its condition holds |
| `QueueRuns.EveryRunKeepsQueues` | mol-module/mm_migrate.c:26-90 | in every run a descriptor is queued on another only while its flag is set and its target names that owner, so no flush meets a waiter of another endpoint |
| `QueueRuns.RemoteSendrecThenUnbind` | mol-module/mm_hyper.c:2211-2265 | the failing family: a remote sendrec that finds its destination running, then the destination's unbinding |
| `QueueRuns.UnbindCanFail` | mol-module/mm_hyper.c:2211-2265 | two binds and one message in a fresh DC reach it |
| `QueueRuns.ReceiverCanBeLeft` | mol-module/mm_hyper.c:2225-2267 | a legal run from a fresh DC in which the partner of a sendrec is unbound and the caller is neither woken nor freed of its flags |
| `Steps.StepOpens` | mol-module/mm_ipc.c:28-252 | a sending step opens at most one send, of its own caller to its own destination, and frees or binds no slot |
| `Steps.StepFree` | mol-module/mm_hyper.c:2123-2414 | every step but binding, unbinding and a failing proxy leaves the same slots free |
| `RefCount.CountIsExact` | kernel/mol-macros.h:25-33 | in every run of the process table, with binds of all kinds, unbinds, ends of nodes, overlapping ends of the DC and every other step, the count is one, plus the slots in use, plus the binds over used slots, less the ends and the slots raised by a failing proxy; released exactly at zero |
| `RefCount.ReleasedEmptyIff` | mol-module/mm_hyper.c:1789-1836 | the table is released with no slot in use exactly if the ends and the raised slots outnumber the binds over used slots by one |
| `RefCount.DisciplinedRun` | mol-module/mm_hyper.c:1728-1782 | with legal steps, binds into free slots, no backup unbound and one end, the queue invariant holds, the count is the DC's own reference plus the slots in use, and the table is released exactly when the DC has ended and no slot is in use |
| `RefCount.BackupBindLeaks` | mol-module/mm_hyper.c:2184-2189 | a backup bound over a process, unbound, and the DC ended: no slot is in use and the table is not released |
| `RefCount.TwoEndsReleaseBound` | mol-module/mm_hyper.c:1761-1779 | two ends wait for one process with the DC unlocked; it unbinds, another binds a slot both have passed, and the second end releases the table under it |
| `RefCount.ProxyRaisesFreed` | mol-module/mm_sproxy.c:156-206 | a backup unbound while queued for the proxy, and turned down by it, is in use without a reference |
| `RefCount.EndsAreBegun` | mol-module/mm_hyper.c:1728-1782 | each end of a DC drops its reference at most once |
| `RefCount.OtherStepsKeepSlots` | mol-module/mm_sproxy.c:156-206 | every step but binding and unbinding keeps the slots in use, except a failing proxy with a free slot on its queue, which adds that one |
| `RefCount.NodeEndFreesIff` | mol-module/mm_hyper.c:3078-3094 | the end of a node frees a slot exactly if it was free, or held a remote process of that node that may be unbound; the node leaves the DC and one reference is dropped for each |
| `RefCount.EndFreesIff` | mol-module/mm_hyper.c:1744-1758 | the first loop of the end of a DC frees a slot exactly if it was free, or held a remote process that is no backup and may be unbound |
| `RefCount.UnbindFreesOne` | mol-module/mm_hyper.c:2409-2411 | unbinding takes exactly its slot out of the slots in use |
| `Locks.Lock2Ordered` | kernel/mol-macros.h:168-177 | the two-lock macro takes both locks in ascending order exactly if they are distinct |
| `Locks.Lock3Ordered` | kernel/mol-macros.h:185-204 | the three-lock macro does so in all orders of its arguments exactly if they are distinct |
| `Locks.Ordered2Ordered` | kernel/mol-macros.h:157-166 | the re-lock macro does so from one held lock exactly if the other is distinct |
| `Locks.LockAllOrdered` | kernel/mol-macros.h:551-557 | locking all processes is ascending |
| `Locks.UnlockAllOrdered` | kernel/mol-macros.h:559-565 | unlocking all releases exactly what was locked |
| `Locks.DisciplineIsOrdered` | kernel/mol-macros.h:156-211 | a thread that runs the macros as the code does takes locks only upwards and ends with none |
| `Locks.WaitsAbove` | kernel/mol-macros.h:156-211 | a waiting thread holds only lower-numbered locks |
| `Locks.SomeThreadSteps` | kernel/mol-macros.h:156-211 | while a thread is unfinished some thread can step |
| `Locks.NoCircularWait` | kernel/mol-macros.h:156-211 | no chain of waiting threads of any length closes |
| `Locks.NeverDeadlocked` | kernel/mol-macros.h:156-211 | in every interleaving of any number of threads, no deadlock, and all work ends |
| `Groups.StartAllOrNothing` | mol-module/mm_migrate.c:182-245 | START fails and changes nothing, or marks every bound thread and nothing else |
| `Groups.RollbackAllOrNothing` | mol-module/mm_migrate.c:125-171 | ROLLBACK fails and changes nothing, or clears both bits of every bound thread, empties their migration queues and touches no other flag but WAITMIGR |
| `Outcomes.StartAnswer` | mol-module/mm_migrate.c:192-229 | START of a remote process, or of the leader of a group, succeeds exactly if it, or every thread, is bound, in no copy, in no remote operation, has an endpoint and is not frozen; else the answer names the first fault of the first thread |
| `Outcomes.RollbackAnswer` | mol-module/mm_migrate.c:110-149 | ROLLBACK: the same of frozen threads |
| `Outcomes.RollbackWakes` | mol-module/mm_migrate.c:151-171 | each thread rolled back, and each process that waited for one, is woken exactly once if it waits for nothing else, and with which code |
| `Outcomes.RemoteStartRollback` | mol-module/mm_migrate.c:110-123 | START and ROLLBACK of a remote descriptor undo each other |
| `Outcomes.FreezeThenRollBack` | mol-module/mm_migrate.c:151-171 | the same of a thread, which is woken if it runs |
| `Groups.OldMigrateAllOrNothing` | mol-module/mm_migrate.c:257-323 | COMMIT on the old node fails exactly if a thread is not frozen or the process is not the leader, and changes nothing; or every bound thread becomes an unfrozen remote descriptor with empty queues |
| `Outcomes.OldAnswer` | mol-module/mm_migrate.c:266-287 | a thread that is not frozen is reported before a missing leader bit |
| `Outcomes.CommitAnswers` | mol-module/mm_migrate.c:380-396 | every answer of COMMIT with the exact condition for it |
| `Outcomes.LeaverTold` | mol-module/mm_migrate.c:292-318 | a thread that leaves is remote, with empty queues, and learns so exactly if it was in a call |
| `Outcomes.OnlyFrozenLeave` | mol-module/mm_migrate.c:266-287 | a process that is not local or not frozen is left as it was |
| `Outcomes.LeftBehindTold` | mol-module/mm_migrate.c:292-318 | a process that waited for it, or was queued on it, goes on and replays its call exactly if it waits for nothing else |
| `Outcomes.LeaveIsStep` | mol-module/mm_migrate.c:292-318 | the loop of COMMIT on the old node is the step of the queue runs |
| `Outcomes.ThirdNodeThaws` | mol-module/mm_migrate.c:395-408 | COMMIT on a third node moves and thaws the descriptor and its waiters and nothing else |
| `Outcomes.EnteredRuns` | mol-module/mm_migrate.c:356-358 | on its new node the process runs, whatever flags its descriptor had |
| `Groups.StartFreezeRollback` | mol-module/mm_migrate.c:125-245 | start, freeze of each thread, rollback: the rollback succeeds and restores the run-time flags, and the other flags exactly if the thread was not marked before |
| `MigrationRuns.AnswersMatch` | mol-module/mm_migrate.c:99-229 | START and ROLLBACK succeed exactly if no thread is at fault otherwise and the bits of the copies are those the cluster model asks for |
| `MigrationRuns.StartRefines` | mol-module/mm_migrate.c:182-245 | the START step of the cluster model is what START does to the process table, refused exactly for faults other than the migration and leader bits |
| `MigrationRuns.RollbackRefines` | mol-module/mm_migrate.c:99-171 | the same for ROLLBACK |
| `MigrationRuns.FreezeRefines` | mol-module/mm_utils.c:197-203 | the freeze step is what a thread does at its next call |
| `MigrationRuns.CommitRefines` | mol-module/mm_migrate.c:370-413 | the same for COMMIT on every kind of node |
| `MigrationRuns.DeliverIsExpected` | mol-module/mm_migrate.c:391-408 | the state of every copy depends only on which COMMIT messages were processed, not on their order or number |
| `MigrationRuns.Agreement` | mol-module/mm_migrate.c:257-413 | whatever the order and repetitions, all copies end naming the new node, unfrozen and unmarked, only the new node's are local, and one more COMMIT changes nothing |
| `MigrationRuns.NextStartIff` | mol-module/mm_migrate.c:207 | a second migration can start on the new node exactly if its copy carried the leader bit |
| `MigrationRuns.StepInv` | mol-module/mm_migrate.c:182-413 | every legal step of the protocol keeps the invariant of all copies |
| `MigrationRuns.SingleActiveCopy` | mol-module/mm_migrate.c:182-413 | in every interleaving at most one node has a local unfrozen copy of each thread: the old node before COMMIT is issued, the new one after |
| `MigrationRuns.CommitSafeIff` | mol-module/mm_migrate.c:329-361 | COMMIT on the new node leaves one active copy exactly if the old one is frozen |
| `MigrationRuns.LateRollbackIff` | mol-module/mm_migrate.c:151-165 | a late ROLLBACK on the old node makes a second active copy exactly if it has not processed COMMIT |
| `Acks.StepSend` | mol-module/mm_ipc.c:28-252 | in every step a process goes on with its send, stops sending, or starts a new one |
| `Acks.AckEffect` | mol-module/mm_acks.c:145-161 | an accepted acknowledgement ends the send and wakes the process exactly if it waits for nothing else; one still RECEIVING is not woken; any other acknowledgement changes nothing |
| `Acks.SendHasStart` | mol-module/mm_hyper.c:74-78 | a process found sending started that send at some step and kept to it |
| `Acks.AckMatchesSend` | mol-module/mm_acks.c:137-162 | in every run an accepted acknowledgement answers a send the process made itself, to the endpoint it comes from, that no earlier one answered |
| `Acks.AcksNeverExceedSends` | mol-module/mm_acks.c:137-162 | in every run a process has at most as many accepted acknowledgements as sends, and fewer while a send is open |
| `DvsDescriptor.Dvs.constructor` | mol-module/mm_hyper.c:690-700 | only the local node is not free |
| `DvsDescriptor.Dvs.DcInit` | mol-module/mm_hyper.c:970-1025 | refused for a used name or a running DC, else the DC has the local node |
| `DvsDescriptor.Dvs.CountNodes` | mol-module/mm_hyper.c:858-864 | the loop over the bits counts the members of the map |
| `DvsDescriptor.Dvs.AddNode` | mol-module/mm_hyper.c:827-873 | succeeds exactly if the node may join, and sets both bits |
| `DvsDescriptor.Dvs.DelNode` | mol-module/mm_hyper.c:880-920 | succeeds exactly if the node may leave, and clears both bits |
| `DvsDescriptor.Dvs.DcRelease` | mol-module/mm_hyper.c:1807-1828 | clears the map of the DC and its bit in every node that is not free |
| `DvsDescriptor.Dvs.NodeEnd` | mol-module/mm_hyper.c:3078-3099 | takes the node out of every running DC and frees it |
| `DvsDescriptor.Dvs.NodeUp` | mol-module/mm_hyper.c:3197-3225 | the node joins both maps of the pair and shows its connections |
| `DvsDescriptor.Dvs.PairBind` | mol-module/mm_hyper.c:2532-2595 | a free pair becomes used, with empty maps |
| `DvsDescriptor.Dvs.PairConn` | mol-module/mm_hyper.c:2885-2949 | the pair and exactly the nodes of that side's map change their connection |
| `DvsDescriptor.Dvs.PairUnbind` | mol-module/mm_hyper.c:2752-2841 | the loop over the map, with the nodes it ends, equals the closed form; the return code tells whether the other proxy freed the pair first |
| `Topology.EndOk` | mol-module/mm_hyper.c:3078-3099 | ending any set of nodes clears both sides of the relation |
| `Topology.DcReleaseOk` | mol-module/mm_hyper.c:1807-1820 | releasing a DC keeps the maps symmetric |
| `Topology.AddNodeOk` | mol-module/mm_hyper.c:853-868 | adding a node keeps the maps symmetric and the DC within its limit |
| `Topology.AddNodeIff` | mol-module/mm_hyper.c:827-873 | a node in use other than the local one joins a running DC that does not list it and has room, on both sides and with nothing else changed; in every other case nothing changes |
| `Topology.DelNodeIff` | mol-module/mm_hyper.c:880-920 | any member but the local node leaves a running DC, on both sides and with nothing else changed; in every other case nothing changes |
| `Topology.AddThenDel` | mol-module/mm_hyper.c:827-920 | deleting undoes adding |
| `Topology.DcInitIff` | mol-module/mm_hyper.c:970-1025 | a started DC has the local node alone and the limit it was given |
| `Topology.DcReleaseFrees` | mol-module/mm_hyper.c:1807-1828 | a released DC runs no more, lists no node and is listed by none |
| `Topology.InitThenRelease` | mol-module/mm_hyper.c:970-1025 | releasing undoes starting, but for the limit |
| `Topology.NodeEndFrees` | mol-module/mm_hyper.c:3078-3099 | an ended node is free and listed by no DC, and the other members stay |
| `Topology.NodeUpJoins` | mol-module/mm_hyper.c:3197-3225 | a node put behind a pair joins both maps and shows exactly its connections |
| `Topology.PairConnFlips` | mol-module/mm_hyper.c:2894-2944 | exactly the nodes that side carries change, and exactly that flag |
| `Topology.BindThenUnbind` | mol-module/mm_hyper.c:2532-2595 | unbinding a fresh pair undoes binding it |
| `Topology.PairUnbindEnds` | mol-module/mm_hyper.c:2752-2841 | the exit of one proxy ends exactly the nodes it carried and that are not connected the other way, and frees the pair |
| `Topology.DcInitOkIff` | mol-module/mm_hyper.c:970-1025 | starting a DC keeps the maps sound exactly if it admits a node |
| `Topology.NodeEndOkIff` | mol-module/mm_hyper.c:3078-3099 | ending a node keeps the maps sound exactly if it is not the local one |
| `Topology.NodeUpOkIff` | mol-module/mm_hyper.c:3197-3225 | putting a node behind a used pair keeps the maps sound exactly if it is not the local one |
| `Topology.StepOkIff` | mol-module/mm_hyper.c:827-1025 | each step keeps symmetry and bound if and only if its condition holds |
| `Topology.EveryRunSymmetric` | mol-module/mm_hyper.c:849-1025 | in every run a node is in a DC's map exactly when the DC is in the node's, and a running DC lists the local node and has at most its admitted number of nodes |
| `Topology.InitReleaseIff` | mol-module/mm_hyper.c:1810-1820 | initialising and releasing a DC keeps symmetry exactly if the local node is not free |
| `Topology.PairConnOkIff` | mol-module/mm_hyper.c:2894-2944 | a connection change keeps the maps sound exactly if it frees no listed node |
| `Topology.ConnCanFail` | mol-module/mm_hyper.c:2894-2944 | a legal run from a fresh DVS after which a disconnection frees a node that a DC lists |
| `Topology.PairUnbindMirrors` | mol-module/mm_hyper.c:2752-2804 | the exit of one proxy keeps every pair's maps mirrored |
| `Topology.PairStepIff` | mol-module/mm_hyper.c:2752-2948 | a step keeps the maps sound and the pairs mirrored if and only if no other pair carries the node it brings up, no pair the node it ends, and its condition above holds |
| `Topology.EveryRunMirrors` | mol-module/mm_hyper.c:2752-2948 | in every run with a node carried by one pair at a time, the two maps of a pair are equal and each carried node has exactly its pair's connections |
| `Topology.ExitEndsNodesIff` | mol-module/mm_hyper.c:2752-2804 | the exit of one proxy ends the nodes of its pair exactly if the other was not connected |
| `Topology.OrphanStays` | mol-module/mm_hyper.c:2752-2804 | a node carried by no pair keeps its flags through every step but a new node-up or node end |
| `Layout.SlotSize` | mol-module/mm_hyper.c:702-705 | the doubling loop gives the least doubling of the alignment that holds a descriptor |
| `Layout.PageOrder` | mol-module/mm_hyper.c:1028-1030 | the loop finds the least order whose pages hold the table |
| `Layout.ShiftIsMultiplicationIff` | kernel/mol-macros.h:17 | shifting by the logarithm of the slot size multiplies by the slot size, for every index, exactly if the alignment is a power of two |
| `Layout.SlotsApartIff` | kernel/mol-macros.h:17 | slots do not overlap exactly if a descriptor fits in the distance between them |
| `Layout.TableLayout` | mol-module/mm_hyper.c:1028-1062 | every process number has a slot inside the table and different numbers have disjoint ones |
| `Layout.EndpointRoundTripIff` | kernel/minix/endpoint.h:17-23 | the process number comes back out of an endpoint exactly if it lies between the first task and the next generation, or in generation 0 below the first task by less than the size of a generation; then the adding index is its slot, the subtracting one only without tasks |
| `PageCopy.AddressIff` | testcopy.c:16-19 | page and offset name the address exactly for non-negative and aligned addresses |
| `PageCopy.PagesFormula` | testcopy.c:77-83 | the source's formula counts the pages touched |
| `PageCopy.NextChunk` | testcopy.c:76-97 | each piece stays inside one page on both sides and uses up at least one page of the budget |
| `PageCopy.Copy` | testcopy.c:76-103 | the split copy equals a flat copy, changes nothing else, no piece crosses a page, at most source pages plus destination pages minus one pieces |
| `ReadDir.Dir.Next` | mol-fuse/molfs_fuse.c:557-612 | returns the next entry with a non-zero inode, or none when there is none; the position counts the bytes passed |
| `ReadDir.ReadAll` | mol-fuse/molfs_fuse.c:557-612 | repeated calls return exactly the entries with non-zero inode, in order and once each, in both formats, and the position ends at the size of the directory |
| `ReadDir.FormatDecided` | mol-fuse/molfs_fuse.c:580-581 | the blocks before the first whose first extent is not 255 are read as V7, that block and all later ones in the format it decides |
| `ReadDir.OneFormatIff` | mol-fuse/molfs_fuse.c:580-581 | the whole directory is read as V7 exactly if the first extent that is not 255, if any, is not zero, and as FLEX exactly if the very first is zero |
| `ReadDir.FormatDecidedTwice` | mol-fuse/molfs_fuse.c:580-581 | for every size of a V7 entry, a directory whose two blocks are read in different formats |
| `ReadDir.LiveAre` | mol-fuse/molfs_fuse.c:608 | the filter keeps exactly the entries with non-zero inode |
| `CoreTemp.OnlineOk` | coretemp[1].c:743-791 | a CPU coming online keeps the hotplug invariant |
| `CoreTemp.SlotHandedOver` | coretemp[1].c:811-830 | the slot of a leaving owner goes to an online sibling, or is free if there is none |
| `CoreTemp.AnyCoreIff` | coretemp[1].c:729-741 | a device has an occupied core slot exactly while a CPU of its package is online |
| `CoreTemp.OfflineOk` | coretemp[1].c:793-839 | a CPU going offline keeps the hotplug invariant |
| `CoreTemp.EveryRunHotplugOk` | coretemp[1].c:513-839 | after every sequence of events a core's slot is occupied exactly while one of its CPUs is online, its owner is one of them, and a package has a device exactly while one of its CPUs is online |
| `CoreTemp.DeviceLeftIff` | coretemp[1].c:805-809 | the device of a package with one CPU stays behind exactly if the core id is too big |
| `CoreTemp.Driver.CreateCoreData` | coretemp[1].c:513-582 | an occupied slot keeps its owner; a failing register leaves the slot free; too big an id is refused |
| `CoreTemp.Driver.GetCoreOnline` | coretemp[1].c:743-791 | adds the missing device with its package entry, then the core |
| `CoreTemp.Driver.IsAnyCoreOnline` | coretemp[1].c:729-741 | the downward search finds a core exactly if there is one |
| `CoreTemp.Driver.PutCoreOffline` | coretemp[1].c:793-839 | releases the slot, re-registers a sibling, removes an empty device |
| `CoreTemp.Driver.Notify` | coretemp[1].c:841-850 | every notification keeps the hotplug invariant |
| `Reaping.StepInv` | kernel/exit.c:127-264 | every step of waiters, tracers and exiting threads keeps the reaping invariant |
| `Reaping.CreditedAtMostOnce` | kernel/exit.c:1246-1319 | under every interleaving each zombie is credited at most once |
| `Reaping.SettleCredits` | kernel/exit.c:1261-1319 | what is credited is everything the process accounts for, to the group of the real parent, which is alive |
| `Reaping.SettleConserves` | kernel/exit.c:1261-1319 | crediting keeps the total |
| `Reaping.ExitSignalTotal` | kernel/exit.c:139-173 | releasing a thread keeps the total up to what a last unpaid thread drops |
| `Reaping.StepConservesIff` | kernel/exit.c:127-264 | a step keeps the total exactly if it does not release, uncredited, the last thread of a process that still accounts for something |
| `Reaping.EveryRunConserves` | kernel/exit.c:1246-1379 | over every run without such a release the total never changes |
| `Reaping.WaitedForIsPaid` | kernel/exit.c:1261-1379 | a zombie its real parent waited for is released without loss |
| `Reaping.ReleaseTaskInv` | kernel/exit.c:213-264 | releasing a thread and then its leader keeps the reaping invariant |
| `Reaping.ReleasesWhom` | kernel/exit.c:213-264 | the task, and its leader exactly if that is another task, a zombie, the last of its group and one nobody waits for |
| `Reaping.TaskList.ClaimZombie` | kernel/exit.c:1246-1254 | the exchange succeeds for exactly the waiter that finds a zombie |
| `Reaping.TaskList.SettleAccounts` | kernel/exit.c:1256-1319 | the accounting step on the task list |
| `Reaping.TaskList.FinishWait` | kernel/exit.c:1360-1379 | a traced zombie goes back to its parent unless it is detached |
| `Reaping.TaskList.ExitSignalOf` | kernel/exit.c:127-199 | the last thread frees the signal structure, any other adds its counters |
| `Reaping.TaskList.ReleaseTaskOf` | kernel/exit.c:213-264 | releases the thread and, when due, its leader |

## Left out

- `mm_node_down`: its map test is inverted and it frees a node without clearing the DC maps.
- The reference count of the whole DVS: both proxies of a pair can drop the one reference taken at bind.
- That the exit of a proxy unbinds the remote processes of its nodes: `do_unbind` rejects a bound caller of another DC.
- Lock order between task, DC, process and node locks: only process locks are modelled.
- The time-out of `mm_unbind`, after which the caller runs on with flag and link set (mol-module/mm_hyper.c:2048-2058); `mm_wakeup`; the bind of a forked child, compiled only with MOLAUTOFORK; the calls `rcvrqst`, `reply` and `vcopy` of the IPC.
- QueueRuns.EveryRunKeepsQueues: backup descriptors are not part of its runs, because unbinding one skips the queue clean-up (mol-module/mm_hyper.c:2185-2189); each operation is one step although `do_unbind` gives up and retakes the lock of the process between descriptors; the part of the flushes about copies in progress is left out with `vcopy`.
- RefCount.CountIsExact: while an end of the DC waits for a remote process it spins with the DC locked (mol-module/mm_hyper.c:1764-1774), and the runs also contain those in which others go on.
- Detach.FullDetachment: a process that is on two queues of the unbound one is woken twice; the statement is whether, not how often.
- DcDescriptor.Dc.MmBind: name, user and CPU mask of the process are not modelled; the lookups of Linux tasks are parameters.
- DcDescriptor.Dc.DoUnbind: the delivery of SIGPIPE is not modelled, its result is a parameter; the unlock of the destination only when it is local (mol-module/mm_hyper.c:2299-2302) is not modelled.
- DcDescriptor.Dc.Warn2Proc: the caller has left every call, as an exiting process has, and the destination is bound and does not migrate, which `mm_exit_unbind` has tested (mol-module/mm_hyper.c:250-272); the wait for the answer is not modelled.
- MigrationRuns.SingleActiveCopy: that COMMIT is issued only when every thread of the old node is frozen, and that the old node gets no ROLLBACK afterwards, are rules of the coordinator; `CommitSafeIff` and `LateRollbackIff` say what happens without them.
- Acks.AckMatchesSend: `copyin_rqst_lcl2rmt` and `copyout_data_lcl2rmt` are not modelled; the first stores a node id as destination endpoint (mol-module/mm_acks.c:83).
- DvsDescriptor.Dvs.DcInit: the ranges of its parameters are required, because the code's own range checks never take effect (mol-module/mm_hyper.c:956-966); allocation and procfs failures are not modelled.
- DvsDescriptor.Dvs.PairUnbind: the exit of the other proxy, which the first one waits for, finds empty maps and is part of the same step; the flushes of processes are steps of `QueueRuns`.
- DvsDescriptor.Dvs.PairConn: the tables of the DVS only; the flushes of processes are `DcDescriptor.Dc.FlushSendingProcs` and `DcDescriptor.Dc.FlushReceivingProcs`.
- DvsDescriptor.Dvs.NodeEnd: the tables of the DVS only; the unbinding of the node's remote processes is `DcDescriptor.Dc.NodeEnds`.
- Topology.EveryRunMirrors: the shutdown of the whole DVS, which ends carried nodes, is not part of its runs.
- PageCopy.Copy: negative addresses, which the program does not reject, are covered by `AddressIff` only.
- ReadDir.Dir.Next: a block is a whole number of slots; the copy of a V7 name into the FLEX shape is the entry's slots.
- CoreTemp.EveryRunHotplugOk: CPUs have sensors, allocations and register reads succeed; `CreateCoreData` covers a failing register.
- Reaping.EveryRunConserves: no thread is created during a run and counters of running threads stand still; CPU times, I/O counts and the maximum resident size are not modelled.
- The IPC data path (messages, copies between address spaces, privileges), procfs and debugfs output, FUSE wrappers, demos, benchmarks, `fork.c` and the rest of `exit.c`: plumbing.
