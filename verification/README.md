# A verified model of the A9N kernel core

This project models the parts of the A9N microkernel whose correctness is hardest to see from the
code, and proves what they keep. Dafny 4.11 checks it with `dafny verify dfyconfig.toml`.

**Kernel objects.** `KernelState` holds processes, IPC ports, notification ports and cores, and the
invariant `Good`: every process is in at most one place and its fields say which; ports advertise
what waits in them; reply links are inverse and acyclic; nobody sleeps on pending notification bits.
`KernelPrimitives` proves it for the elementary steps, `ProcessManager`, `IpcPort`, `IpcInvariant`,
`NotificationPort` and `ProcessControl` for the operations, `KernelRun` for any sequence of kernel
entries on any cores from boot on. `KernelProperties` draws the conclusions. What the operations
accomplish is said by `Delivery` for a rendezvous, `CallEffects` for faults, replies, refusals and
process control, `ReleasedWaits` for waits that a revocation ends, `Turns` for timer, yield,
reschedule interrupts and wakeups, and `HandOff` for who runs after CALL and REPLY. `Announcements`
says that wakeups across cores are not silent, `BitDelivery` that bits which are taken arrive,
`ReplyIntegrity` that a waiting caller is left alone, `MessageSources` that a message which claims to come from the kernel does, and
`FastPath` compares the two paths of REPLY_RECEIVE. `BreakingRuns` shows a concrete run from boot to
every kind of entry that breaks the invariant, and `MislabelledMessages` the one way in which a word
with a kernel source can be wrong.

**Kernel memory.** `ReadyQueues` says what 32 FIFO queues with a cached upper bound are.
`IntrusiveQueue` is a family of doubly linked queues whose links lie inside the queued processes.
`KernelMemory` holds the ready queues of all cores and the queues of all IPC and notification ports
in that form, and performs the queue and scheduler operations by writing links. `PortMemory`,
`ControlMemory` and `KernelEntry` build the operations and entries on it, up to `KernelEntry.Enter`
and `KernelEntry.Run`, which compute the step and the runs of the machine. Their methods without a row
below are steps of these two; what the functions they compute mean is said by the rows of the modules
above.

**Capabilities.** `Reclamation` is the recursive teardown, total on every forest of slots and every
containment of Nodes; `ReclamationSafety`, `DerivationChain`, `LeafRevoke` and `Subtree` say what it
and the chain operations keep and compute, `SlotEffects` what copying, moving and creating change,
`Teardown` that what a teardown finalises is emptied and that nothing is lost unfinalised, and
`TeardownSuccess` when it succeeds. `SlotMemory` performs them on linked slots.
`GenericAllocator` is the watermark allocator; `GenericChain` joins it with the derivation chain, whose
links decide when memory may be carved again, `Conversion` says what CONVERT makes,
`MemoryRegions` looks at the memory of all Generics
together, and `GenericMemory` performs it all in place. `Descriptor` is the lookup of descriptors.

**Several cores.** `StopProtocol` interleaves cores that contend for the giant lock and serve stop
requests, and `StopProgress` shows that a stop gets done; `TlbShootdown` adds context switches and
updates of address spaces, access by access, to that protocol, and `TlbEffects` says what a whole
switch and a whole update do.

**Memory.** `PageTable` is the AArch64 table walk, with the loop that prepares Init's tables;
`BootMemory` builds the boot memory map.

Conventions. Objects are identified by 64-bit addresses, so that two names denote one object exactly
when they are equal; tables over all addresses are sequences of that length. A machine word used as a
set of flags is the set of its one bits. Context switch, interrupt delivery and register access are
abstract steps. A kernel call finds its operands in the registers of the caller, which user code sets
between entries; the capability it names is a parameter, as is the failure to resolve it.

Where the code leaves its own invariants, the model follows the code. `KernelRun.StepKeepsIff` states
exactly which entries do so: an admitted message to or from a waiting partner that needs an IPC buffer one of
the two lacks, or capability slots that are not there; a fault whose message has no format or needs a
missing buffer; a new priority for a queued process; a new core for a process that its old core was
told to look at; and a binding of a blocked receiver to a port with pending bits.
`MessageSources.StaysCleanIff` states exactly when a queued sender can hold a word with a kernel
source, `Turns.NotifyStaysUrgent` exactly when a wakeup leaves a core at something less urgent, and
`Announcements.WakeupsAreAnnounced` which wakeups another core is not told of.
`GenericAllocator.AcceptedIff` does the same for 64-bit wrap-around, with `AcceptedButImpossible` as a
concrete request, and `GenericMemory.GenericIntoGenericIff` for the conversion of a Generic into a
Generic.

## Model

| member | source | states |
|---|---|---|
| `KernelRun.StepKeepsIff` | src/kernel/kernelcall/kernel_call.cpp:20-53 | from a consistent kernel, any entry on any core leads to a consistent kernel if and only if it is not one of the breaking entries, each named by a condition on the state before it, such as an admitted message call of more than six words without IPC buffers; a message call whose info names a kernel source is refused and harmless |
| `KernelRun.RunsStayGood` | src/kernel/kernelcall/kernel_call.cpp:20-53 | after every prefix of every run without breaking entries the whole kernel is consistent |
| `KernelRun.KernelSourceRefused` | src/kernel/capability/ipc_port.cpp:114-123 | a message call whose info names a kernel source reports an invalid argument, changes nothing and breaks nothing, whatever the operation |
| `KernelRun.BootGood` | src/kernel/boot/init.cpp:525-536 | the boot state, with Init running at the highest priority on the boot core, the other cores idle and every other object fresh, is consistent |
| `KernelRun.FaultBreaks` | src/kernel/capability/ipc_port.cpp:882-996 | a fault with a waiting receiver whose message has no format, or needs an IPC buffer the receiver lacks, leaves the faulter waiting for nobody |
| `KernelRun.SendBreaks` | src/kernel/capability/ipc_port.cpp:1084-1092 | a SEND to a waiting receiver whose words or capabilities need a missing IPC buffer strands the receiver it took out of the queue |
| `KernelRun.CallBreaksHere` | src/kernel/capability/ipc_port.cpp:404-421 | a CALL that cannot be transferred to the waiting receiver leaves the caller linked although it still runs |
| `KernelRun.ReceiveBreaks` | src/kernel/capability/ipc_port.cpp:735-810 | a RECEIVE that cannot take the first sender's message strands that sender |
| `BreakingRuns.SendBreaks` | src/kernel/capability/ipc_port.cpp:206-229 | a concrete run from boot on two cores, of entries that user code, timers and interrupts cause, orderly up to its last entry, ends with a SEND of seven words to a receiver without buffer and an inconsistent kernel |
| `BreakingRuns.CallBreaks` | src/kernel/capability/ipc_port.cpp:382-424 | the same with a CALL |
| `BreakingRuns.ReceiveBreaks` | src/kernel/capability/ipc_port.cpp:735-810 | the same with a RECEIVE from a sender of seven words |
| `BreakingRuns.ReplyReceiveBreaks` | src/kernel/capability/ipc_port.cpp:524-629 | the same with a REPLY_RECEIVE |
| `BreakingRuns.FaultBreaks` | src/kernel/capability/ipc_port.cpp:882-996 | the same with an invalid kernel call whose register dump does not fit |
| `BreakingRuns.PriorityBreaks` | src/kernel/capability/process_control_block.cpp:174-188 | the same with a new priority for a queued process |
| `BreakingRuns.AffinityBreaks` | src/kernel/capability/process_control_block.cpp:190-212 | the same with a new core for a blocked process that its old core was told to look at, which a timer tick had dispatched before the interrupt arrived |
| `BreakingRuns.BindBreaks` | src/kernel/capability/process_control_block.cpp:348-404 | the same with a binding of a blocked receiver to a port with pending bits |
| `KernelEntry.Enter` | src/kernel/interrupt/interrupt_manager.cpp:98-323 | an entry performed in place, with ready, IPC and notification queues as links inside the processes, computes the step of the machine and keeps the kernel consistent exactly when the entry is not a breaking one |
| `KernelEntry.Run` | src/kernel/kernelcall/kernel_call.cpp:20-53 | booting and any orderly run of entries on the linked memory end in the state of the machine, which is consistent |
| `KernelEntry.BootKernel` | src/kernel/boot/init.cpp:525-536 | constructing the objects, scheduling Init and switching to it in place gives the boot state |
| `KernelEntry.HandleCall` | src/kernel/kernelcall/kernel_call.cpp:55-130 | a capability call of the current process runs the operation, refuses a message with a kernel source, or fails to resolve its descriptor, and reports the outcome in the caller's registers; the idle process runs nothing |
| `KernelProperties.OnePlaceAfterEveryRun` | src/kernel/capability/ipc_port.cpp:159-629 | after every run a process is current on its core, in one ready queue, in one IPC queue, in one notification queue or nowhere, never in two of these; READY means current or ready-queued |
| `KernelProperties.LocationRecorded` | src/kernel/process/scheduler.cpp:105-209 | the process fields say exactly which place that is |
| `KernelProperties.PortsAdvertiseAfterEveryRun` | src/kernel/capability/ipc_port.cpp:167-205 | after every run a port is in WAIT exactly when its queue is empty, READY_TO_SEND queues hold only blocked senders and faulters, READY_TO_RECEIVE queues only blocked receivers |
| `KernelProperties.NobodyAwaitsItself` | src/kernel/capability/ipc_port.cpp:390-410 | reply links never form a cycle of any length |
| `KernelProperties.ReplySlotIsFree` | src/kernel/capability/ipc_port.cpp:755-793 | the branches for a reply already held are unreachable in CALL, RECEIVE, REPLY_RECEIVE and fault delivery |
| `KernelProperties.BitsAreConserved` | src/kernel/include/kernel/ipc/notification.hpp:17-34 | in the history of notifications every notified bit is taken by exactly the next consumption or is still pending, and nothing else is ever taken |
| `BitDelivery.StepIsLogged` | src/kernel/capability/notification_port.cpp:92-236 | whatever entry records that a process took bits leaves that process ready with exactly these bits as its flag word or as the identifier of a notification message |
| `BitDelivery.TakenBitsArrive` | src/kernel/capability/notification_port.cpp:256-319 | the same after every entry of every run, so no bit is taken and lost |
| `MessageSources.StepIsGenuine` | src/kernel/capability/ipc_port.cpp:114-123 | when no queued sender holds a word with a kernel source, an entry that gives a process such a word it did not have does so because a process faulted to it and the word announces that fault, or because it took recorded bits that it now holds; exempt are writes into its own registers |
| `MessageSources.StaysCleanIff` | src/kernel/capability/ipc_port.cpp:735-778 | queued senders go on holding words of processes if and only if no WRITE_REGISTER gives one of them a word with a kernel source |
| `MessageSources.KernelWordsAreGenuine` | src/kernel/capability/ipc_port.cpp:104-156 | over every run without such a write, every word with a kernel source is genuine in this sense |
| `MessageSources.BootIsClean` | src/kernel/boot/init.cpp:525-536 | at boot no queued sender holds such a word, so runs from boot qualify |
| `MislabelledMessages.UnsentNotification` | src/kernel/capability/ipc_port.cpp:747-778 | with such a write the property fails: a concrete orderly run from boot ends with Init holding a notification that no port sent, since the word of a queued sender is read again without the test |
| `KernelProperties.NoLostWakeup` | src/kernel/capability/notification_port.cpp:92-236 | while bits are pending nobody waits on the port and its bound process is not blocked in RECEIVE |
| `KernelProperties.DispatchIsUrgent` | src/kernel/process/process_manager.cpp:222-268 | whatever a core switches to, nothing of higher priority stays ready on that core |
| `KernelProperties.DirectSwitchIsUrgent` | src/kernel/process/process_manager.cpp:295-336 | a direct switch never passes over something more urgent than its target |
| `KernelProperties.YieldGoesToTheBack` | src/kernel/process/process_manager.cpp:367-384 | a process that yields goes behind all its peers, and runs on only if nothing as urgent is ready |
| `Turns.DispatchEffect` | src/kernel/process/process_manager.cpp:222-268 | a dispatch takes exactly the process that has waited longest in the most urgent non-empty queue, or idles exactly when no process is ready, and changes nothing else |
| `Turns.YieldEffect` | src/kernel/process/process_manager.cpp:367-384 | a process that yields stands behind its peers with a full quantum, and the first ready process runs |
| `Turns.TimerEffect` | src/kernel/process/process_manager.cpp:92-137 | a tick takes one from the quantum of what runs and changes nothing else; if the quantum is used up, the process stands behind its peers with a full quantum, or the idle quantum is full, and the first ready process runs |
| `Turns.QuantumEnds` | src/kernel/process/process_manager.cpp:125-131 | at the end of its quantum a process has a full quantum and runs on only if nothing as urgent is ready, and otherwise is last among its peers; what runs is as urgent as anything ready |
| `Turns.RescheduleEffect` | src/kernel/interrupt/interrupt_manager.cpp:190-230 | a reschedule interrupt queues the interrupted process again, takes back the announcement, and runs the announced process exactly if it is ready, otherwise the first ready one |
| `Turns.RouteEffect` | src/kernel/process/process_manager.cpp:475-516 | a woken process is last among its peers on its own core with a full quantum; another core is told of it unless it has been told already; nothing else changes |
| `Turns.PreemptEffect` | src/kernel/process/process_manager.cpp:338-365 | a woken process preempts exactly what it outranks: then the running process keeps its quantum, stands last among its peers, and the first ready process runs |
| `Turns.DirectEffect` | src/kernel/process/scheduler.cpp:55-103 | a direct switch runs its target at once, ahead of its peers and with all queues as they were, if nothing more urgent is ready; otherwise the target stands last among its peers and the first ready process runs |
| `Turns.TimerLeavesStopped` | src/kernel/process/process_manager.cpp:117-123 | a tick that finds the running process no longer ready takes the core from it and does not queue it again |
| `HandOff.CallGivesCore` | src/kernel/capability/ipc_port.cpp:382-424 | after a CALL to a receiver of the same core the receiver runs next if and only if nothing more urgent is ready |
| `HandOff.ReplyKeepsCore` | src/kernel/capability/ipc_port.cpp:430-522 | after a REPLY the server runs on if and only if nothing more urgent is ready, the caller it answered included |
| `Announcements.WakeupsAreAnnounced` | src/kernel/process/process_manager.cpp:475-541 | whatever the entry, if it is not a breaking one: a process of another core that it makes ready is announced to that core, or that core has an announcement to look at already; excepted are processes whose wait ends without a reply because the port or the server goes or the server receives anew |
| `Announcements.WakeupsAreAnnouncedInRuns` | src/kernel/process/process_manager.cpp:475-541 | the same at every entry of every run |
| `Announcements.ReleasesAreSilent` | src/kernel/capability/ipc_port.cpp:28-61 | the exception is real: a waiter of a revoked port becomes ready on its core and the announcement of that core is as before |
| `Turns.NotifyStaysUrgent` | src/kernel/capability/notification_port.cpp:92-151 | a core that runs the most urgent process still does after a notification on it, if and only if it was not idle with a recipient of priority 0 on this core, which does not outrank the idle process |
| `Delivery.SendHandsOver` | src/kernel/capability/ipc_port.cpp:206-229 | SEND gives the oldest receiver exactly the info, the identifier and the payload, makes it ready on its own core, and changes nobody else's registers |
| `Delivery.CallHandsOver` | src/kernel/capability/ipc_port.cpp:382-424 | CALL does the same and leaves the caller waiting for exactly this receiver |
| `Delivery.ReplyHandsOver` | src/kernel/capability/ipc_port.cpp:430-522 | REPLY gives the caller exactly the answer, clears both ends of the link and leaves both able to run |
| `Delivery.ReceiveTakes` | src/kernel/capability/ipc_port.cpp:735-810 | RECEIVE takes the oldest sender's message; a caller goes on waiting for the receiver, a plain sender becomes ready |
| `Delivery.RendezvousOrder` | src/kernel/capability/ipc_port.cpp:159-332 | whether the sender or the receiver comes first, the same message arrives and the port is idle again |
| `Delivery.SendWaits` | src/kernel/capability/ipc_port.cpp:178-204 | a SEND without receiver queues the sender last, moves its core on and touches nobody else |
| `Delivery.ReceiveWaits` | src/kernel/capability/ipc_port.cpp:281-321 | a RECEIVE without sender or pending bits queues the receiver last, moves its core on and touches nobody else |
| `Delivery.NotifyReachesWaiter` | src/kernel/capability/notification_port.cpp:92-151 | NOTIFY gives the oldest waiter exactly the notified bits and clears the flag |
| `CallEffects.FaultHandsOver` | src/kernel/capability/ipc_port.cpp:882-996 | a fault gives the oldest receiver at the resolver port exactly the header of a message about this fault under the resolver's identifier, leaves the faulter waiting for exactly this receiver, and changes nobody else's registers |
| `CallEffects.FaultJoinsQueue` | src/kernel/capability/ipc_port.cpp:914-937 | without a receiver the faulter waits last at its resolver port and nobody else notices |
| `CallEffects.FaultSuspends` | src/kernel/interrupt/interrupt_manager.cpp:272-323 | without a usable resolver port the faulter is suspended with its fault recorded and nobody else notices |
| `CallEffects.ReceiveTakesFault` | src/kernel/capability/ipc_port.cpp:735-810 | RECEIVE from a faulted process gives the receiver the message about the fault and the debt of a reply |
| `CallEffects.FaultReplyHandsOver` | src/kernel/capability/ipc_port.cpp:630-702 | REPLY lets a faulter go on without its fault; the general registers of an emulated kernel call hold exactly the announced payload words, any other faulter has its registers as they were, and nobody else's change |
| `CallEffects.ReplyReceiveAnswers` | src/kernel/capability/ipc_port.cpp:524-629 | REPLY_RECEIVE, on either path, gives the caller exactly the answer, clears its wait and leaves it able to run, and changes the registers of nobody but the server besides |
| `CallEffects.TriesInVain` | src/kernel/capability/ipc_port.cpp:159-205 | a call without the right, one that does not block and finds no partner, and a reply that nobody awaits change nothing |
| `CallEffects.CallWaits` | src/kernel/capability/ipc_port.cpp:346-381 | a CALL without receiver queues the caller last, awaiting a reply, moves its core on and touches nobody else |
| `CallEffects.BitsComeFirst` | src/kernel/capability/ipc_port.cpp:281-301 | a RECEIVE without sender and a CALL without receiver, with bits pending on the bound port, deliver all of them as a message, clear them, change nothing else, and the caller goes on |
| `CallEffects.PollTakes` | src/kernel/capability/notification_port.cpp:203-236 | POLL is refused without the right or on a port bound to another process; otherwise it puts exactly the pending bits into the flag word, leaves none, and changes nothing else |
| `CallEffects.WaitTakesOrBlocks` | src/kernel/capability/notification_port.cpp:153-201 | WAIT is refused without the right or on a port bound to another process; otherwise it takes pending bits exactly as POLL does, and without any queues the caller last, moves its core on and touches nobody else |
| `CallEffects.NotifyRefused` | src/kernel/capability/notification_port.cpp:92-100 | NOTIFY without the right changes nothing, and with it never fails |
| `CallEffects.CallReports` | src/kernel/kernelcall/kernel_call.cpp:55-66 | the report of a call tells success from failure and every error from every other, and changes no other register |
| `ReleasedWaits.RevokePortReleases` | src/kernel/capability/ipc_port.cpp:80-102 | revoking a port ends exactly the waits in its queue: everybody in it finds success and error words zero and awaits nothing; who had faulted is suspended, the others are ready with a full quantum behind the processes that were ready, in the order of the queue; no other process, port or running process is affected |
| `ReleasedWaits.RevokeNtfReleases` | src/kernel/capability/notification_port.cpp:10-46 | the same for the waiters of a notification port, whose bound process loses its binding and nothing else |
| `ReleasedWaits.DiscardReleases` | src/kernel/capability/ipc_port.cpp:256-278 | RECEIVE by a server that owes a reply ends the wait of exactly that caller in this way before it goes on |
| `ReleasedWaits.OneReleased` | src/kernel/capability/ipc_port.cpp:28-61 | ending one wait concerns that process only and puts it last in its ready queue |
| `ReplyIntegrity.StepSpares` | src/kernel/capability/process_control_block.cpp:475-519 | an entry that is neither an answer of the awaited server nor a cancellation leaves the status and the wait of a waiting caller as they were, and its registers too unless it is a WRITE_REGISTER on the caller |
| `ReplyIntegrity.ReplyIntegrity` | src/kernel/capability/ipc_port.cpp:334-522 | over every run: while its server neither answers nor goes and nobody cancels it, a caller goes on waiting for it, and its registers do not change unless somebody writes them with WRITE_REGISTER |
| `FastPath.FastPathRefinesSlowPath` | src/kernel/capability/ipc_port.cpp:547-628 | under its guard the fast path of REPLY_RECEIVE leaves the same messages, reply links, ports and runnable processes as the slow path, both dispatch a process of the same, highest ready priority, and the same one if no peer of the caller was queued |
| `FastPath.DirectRefinesQueueing` | src/kernel/process/scheduler.cpp:55-103 | switching directly and queueing before choosing come to the same up to the order among equals |
| `IpcInvariant.SendKeeps` | src/kernel/capability/ipc_port.cpp:159-235 | SEND keeps the kernel consistent unless it meets a waiting receiver it cannot transfer to |
| `IpcInvariant.ReceiveKeeps` | src/kernel/capability/ipc_port.cpp:237-332 | RECEIVE, releasing an unanswered caller first, keeps the kernel consistent |
| `IpcInvariant.CallKeeps` | src/kernel/capability/ipc_port.cpp:334-428 | CALL keeps the kernel consistent, and with a receiver waiting the caller then awaits exactly the oldest one |
| `IpcInvariant.ReplyKeeps` | src/kernel/capability/ipc_port.cpp:430-522 | REPLY keeps the kernel consistent even when its transfer fails |
| `IpcInvariant.ReplyReceiveKeeps` | src/kernel/capability/ipc_port.cpp:524-629 | REPLY_RECEIVE keeps the kernel consistent on both paths |
| `IpcInvariant.HandleFaultKeeps` | src/kernel/interrupt/interrupt_manager.cpp:232-323 | a fault that can be delivered keeps the kernel consistent and ends with the process blocked as faulted or suspended |
| `IpcInvariant.RevokePortKeeps` | src/kernel/capability/ipc_port.cpp:80-102 | revoking a port empties its queue, idles it and keeps the kernel consistent; what becomes of the queued processes is `ReleasedWaits.RevokePortReleases` |
| `IpcInvariant.CancelWithErrorKeeps` | src/kernel/capability/ipc_port.cpp:28-78 | a cancelled caller and its server lose their link, the caller is ready, or suspended if it had faulted, and the kernel stays consistent |
| `NotificationPort.NotifyKeeps` | src/kernel/capability/notification_port.cpp:92-151 | NOTIFY keeps the kernel consistent; if the bound receiver or the first waiter can take the bits, the flag is empty and that process ready, and otherwise only the flag changes |
| `NotificationPort.WaitKeeps` | src/kernel/capability/notification_port.cpp:153-201 | WAIT keeps the kernel consistent; if it is not refused, pending bits go to the flag word of the caller and leave the flag empty, and without any the caller blocks at the end of the queue |
| `NotificationPort.PollKeeps` | src/kernel/capability/notification_port.cpp:203-236 | POLL keeps the kernel consistent; what it returns is `CallEffects.PollTakes` |
| `NotificationPort.WakeBoundKeeps` | src/kernel/capability/notification_port.cpp:256-319 | a bound receiver leaves its IPC queue, is ready, and finds all pending and new bits as the identifier; the kernel stays consistent |
| `NotificationPort.RevokeNtfKeeps` | src/kernel/capability/notification_port.cpp:10-46 | revoking a notification port leaves no waiters, no binding and no bits and keeps the kernel consistent; what becomes of the waiters is `ReleasedWaits.RevokeNtfReleases` |
| `ProcessControl.ResumeKeeps` | src/kernel/capability/process_control_block.cpp:522-540 | RESUME refuses a running process and otherwise leaves the process ready with no wait, link or fault; the kernel stays consistent |
| `ProcessControl.SuspendKeeps` | src/kernel/capability/process_control_block.cpp:566-627 | SUSPEND leaves the process suspended, unfaulted and in no queue |
| `ProcessControl.RevokeProcessKeeps` | src/kernel/capability/process_control_block.cpp:629-698 | after the teardown no queue, core, reply link, announcement or binding refers to the process, and a caller it was serving is ready with an error, or suspended if it had faulted |
| `CallEffects.SuspendEffect` | src/kernel/capability/process_control_block.cpp:566-627 | SUSPEND takes the process off its core, its queues, its fault and its wait, tells it of the failure exactly if it was in the middle of a call, and besides changes only that the server it waited for owes nothing any more |
| `CallEffects.RevokeProcessEffect` | src/kernel/capability/process_control_block.cpp:629-698 | after the teardown the saved message registers of the process are zero and its buffer, resolver, binding and links are gone |
| `CallEffects.ConfigureOutcomes` | src/kernel/capability/process_control_block.cpp:174-212 | a priority is accepted exactly below 32, a core exactly if it exists and the process does not have to move while it is ready or running, a binding exactly if the port is not bound to another process; an accepted value is set and nothing else changes |
| `CallEffects.ResolverTakesEffect` | src/kernel/capability/process_control_block.cpp:406-450 | after CONFIGURE of the resolver port the next fault of the process waits there under the new identifier |
| `CallEffects.WriteRegistersHandsOver` | src/kernel/capability/process_control_block.cpp:475-519 | WRITE_REGISTER succeeds exactly if the count is at most 35 and the words can be read; then the process has exactly the announced registers and nobody else changes |
| `ProcessControl.PriorityKeepsIff` | src/kernel/capability/process_control_block.cpp:174-188 | a priority change is harmless exactly when it is refused, idle or the process is not queued |
| `ProcessControl.AffinityKeepsIff` | src/kernel/capability/process_control_block.cpp:190-212 | a core change is harmless exactly when it is refused, idle or the old core has not been told to look at the process |
| `ProcessControl.BindingKeepsIff` | src/kernel/capability/process_control_block.cpp:348-404 | a binding is harmless exactly when the process is not already blocked in RECEIVE with bits pending on the port |
| `ProcessManager.YieldKeeps` | src/kernel/process/process_manager.cpp:367-384 | YIELD keeps the kernel consistent; what it does is `Turns.YieldEffect` |
| `ProcessManager.TimerKeeps` | src/kernel/process/process_manager.cpp:92-137 | a timer tick keeps the kernel consistent; what it does is `Turns.TimerEffect` |
| `ProcessManager.RescheduleKeeps` | src/kernel/interrupt/interrupt_manager.cpp:190-230 | a reschedule interrupt keeps the kernel consistent, whatever became of the announced process; what it does is `Turns.RescheduleEffect` |
| `ProcessManager.PreemptKeeps` | src/kernel/process/process_manager.cpp:338-365 | preemption changes turns only, neither messages nor links nor states, and leaves every process in exactly one place |
| `ProcessManager.DirectKeeps` | src/kernel/process/process_manager.cpp:270-336 | a direct switch, local or to another core, changes turns only and gives the process in transit and all others exactly one place |
| `ProcessManager.RouteKeeps` | src/kernel/process/process_manager.cpp:475-541 | a woken process is in the ready queue of its priority on its own core, and otherwise only turns change |
| `KernelPrimitives.LinkKeeps` | src/kernel/capability/ipc_port.cpp:390-410 | a new reply link keeps the links inverse and acyclic |
| `KernelPrimitives.CancelKeeps` | src/kernel/capability/ipc_port.cpp:63-78 | after a cancellation neither end refers to the other, and the kernel stays consistent |
| `KernelMemory.Kernel.PushIpcQueue` | src/kernel/capability/ipc_port.cpp:1561-1587 | writing the links appends the process to the queue of the port |
| `KernelMemory.Kernel.PopIpcQueue` | src/kernel/capability/ipc_port.cpp:1589-1621 | writing the links removes the oldest process and idles an emptied port |
| `KernelMemory.Kernel.RemoveIpcQueue` | src/kernel/capability/ipc_port.cpp:998-1036 | writing the links removes a process from anywhere in its queue, and only if it is in this port's |
| `KernelMemory.Kernel.PushNotificationQueue` | src/kernel/capability/notification_port.cpp:345-366 | writing the links appends the process to the queue of the notification port |
| `KernelMemory.Kernel.PopNotificationQueue` | src/kernel/capability/notification_port.cpp:368-394 | writing the links removes the oldest waiter and idles an emptied port |
| `KernelMemory.Kernel.RemoveNotificationQueue` | src/kernel/capability/notification_port.cpp:396-434 | writing the links removes a waiter from anywhere in its queue |
| `PortMemory.Send` | src/kernel/capability/ipc_port.cpp:159-235 | SEND on linked queues computes the function about which `IpcInvariant.SendKeeps` and `Delivery.SendHandsOver` are proved |
| `PortMemory.Receive` | src/kernel/capability/ipc_port.cpp:237-332 | RECEIVE on linked queues computes the function of `IpcInvariant.ReceiveKeeps` and `Delivery.ReceiveTakes` |
| `PortMemory.Call` | src/kernel/capability/ipc_port.cpp:334-428 | CALL on linked queues computes the function of `IpcInvariant.CallKeeps` and `Delivery.CallHandsOver` |
| `PortMemory.ReplyReceive` | src/kernel/capability/ipc_port.cpp:524-629 | REPLY_RECEIVE on linked queues chooses the same path and computes the function of `FastPath.FastPathRefinesSlowPath` |
| `PortMemory.TryReceiveFromReadySender` | src/kernel/capability/ipc_port.cpp:735-810 | taking the first sender in place computes its function |
| `PortMemory.TransferMessage` | src/kernel/capability/ipc_port.cpp:1060-1099 | transfers info, identifier and payload, also the words before the first that needs a missing buffer, and then idles the port |
| `PortMemory.CopyMessages` | src/kernel/capability/ipc_port.cpp:1401-1460 | the copy loops write exactly the announced payload words, or exactly those in hardware registers when the rest needs a missing buffer |
| `PortMemory.OverwriteContext` | src/kernel/capability/process_control_block.cpp:475-519 | the loop writes exactly the announced general registers from the message registers of the caller, maybe its own, or exactly those before the first that needs a missing buffer |
| `PortMemory.ApplyReplyContext` | src/kernel/capability/ipc_port.cpp:645-675 | the answer to an invalid kernel call overwrites the faulted client's registers, also those before the first that cannot be read; for a successful reply see `CallEffects.FaultReplyHandsOver` |
| `PortMemory.Revoke` | src/kernel/capability/ipc_port.cpp:80-102 | the loop unlinks and releases every queued process in order; it computes the function of `ReleasedWaits.RevokePortReleases` |
| `ControlMemory.HandleFault` | src/kernel/interrupt/interrupt_manager.cpp:232-323 | the in-place fault entry computes the function of `CallEffects.FaultHandsOver` |
| `ControlMemory.FaultCall` | src/kernel/capability/ipc_port.cpp:882-996 | the in-place fault delivery computes its function |
| `ControlMemory.Notify` | src/kernel/capability/notification_port.cpp:92-151 | the in-place NOTIFY computes its function |
| `ControlMemory.WakeBound` | src/kernel/capability/notification_port.cpp:256-319 | waking the bound receiver in place computes its function |
| `ControlMemory.RevokeNotificationPort` | src/kernel/capability/notification_port.cpp:10-46 | the loop unlinks and releases every waiter in order, then the binding and the flag go; it computes the function of `ReleasedWaits.RevokeNtfReleases` |
| `ControlMemory.Resume` | src/kernel/capability/process_control_block.cpp:522-540 | the in-place RESUME computes its function |
| `ControlMemory.Suspend` | src/kernel/capability/process_control_block.cpp:566-617 | the in-place SUSPEND computes the function of `CallEffects.SuspendEffect` |
| `ControlMemory.Detach` | src/kernel/capability/process_control_block.cpp:542-564 | the process leaves the queues its fields name |
| `ControlMemory.RevokeProcess` | src/kernel/capability/process_control_block.cpp:629-698 | the in-place teardown computes the function of `ProcessControl.RevokeProcessKeeps` and `CallEffects.RevokeProcessEffect` |
| `KernelMemory.Kernel.constructor` | src/kernel/include/kernel/process/scheduler.hpp:59-76 | fresh objects, empty linked queues and upper bounds of 31 represent the blank kernel |
| `KernelMemory.Kernel.Schedule` | src/kernel/process/scheduler.cpp:13-53 | on linked ready queues, removes and returns the head of the highest non-empty queue of the core and makes its priority the bound; no other link moves |
| `KernelMemory.Kernel.TryDirectSchedule` | src/kernel/process/scheduler.cpp:55-103 | on linked ready queues, returns the target unless something more urgent is queued, and then queues the target and returns the more urgent head |
| `KernelMemory.Kernel.AddProcess` | src/kernel/process/scheduler.cpp:105-155 | links a ready, unqueued process behind the tail of its queue and raises the bound if needed; otherwise reports which condition failed |
| `KernelMemory.Kernel.RemoveProcess` | src/kernel/process/scheduler.cpp:157-209 | walks the 32 queues of the core in order, unlinks the process wherever it stands, and lowers the bound over empty queues |
| `IntrusiveQueue.RemoveHolds` | src/kernel/process/scheduler.cpp:169-194 | joining the neighbours of a queued process leaves linked queues without it and all other queues as they were |
| `IntrusiveQueue.PushHolds` | src/kernel/process/scheduler.cpp:134-154 | linking behind the tail leaves linked queues with one more process |
| `IntrusiveQueue.LinkedQueues.FindAndRemove` | src/kernel/process/scheduler.cpp:157-209 | the walk along the links finds the process exactly if it is in the queue, and removes it and nothing else |
| `Reclamation.RevokeSlot` | src/kernel/capability/capability_node_reclamation.cpp:16-57 | terminates on every forest and every containment of Nodes, by the number of live slots that are not being revoked; slots are only ever emptied and regions of Generics only ever restarted |
| `Reclamation.RemoveDescendants` | src/kernel/capability/capability_node_reclamation.cpp:38-50 | terminates by chain depth within that |
| `Reclamation.RemoveSlot` | src/kernel/capability/capability_node_reclamation.cpp:59-102 | terminates; success means the slot is empty |
| `Reclamation.EmptyNode` | src/kernel/capability/capability_node.cpp:291-330 | terminates although contained slots may hold this Node or its ancestors; what it empties is `Teardown.EmptyNodeComplete` |
| `ReclamationSafety.RevokeSound` | src/kernel/capability/capability_node_reclamation.cpp:16-57 | revoking any slot of a well-formed forest keeps it well formed, never uses an emptied slot, and leaves a pinned slot alone unless its Node is being finalised |
| `ReclamationSafety.RemoveSound` | src/kernel/capability/capability_node_reclamation.cpp:59-102 | the same for removing any slot |
| `ReclamationSafety.EmptyNodeSound` | src/kernel/capability/capability_node.cpp:291-330 | the same for a Node's own cleanup, also when Nodes contain each other; that the slots are then empty is `Teardown.EmptyNodeComplete` |
| `ReclamationSafety.ClearKeeps` | src/kernel/include/kernel/capability/capability_component.hpp:68-79 | unlinking a slot that no child depends on keeps the depth encoding and the alias groups |
| `Teardown.RevokeComplete` | src/kernel/capability/capability_node_reclamation.cpp:16-57 | whatever a revocation of any slot finalises anywhere in the recursion, also one that fails later, has no slot in use but one that names it, or, as a Generic, its watermark at the base; if it succeeds, the revoked object is finalised, or its finaliser is running, only the revoked slot itself may be left of its slots, and every object that lost its last name was finalised |
| `Teardown.RemoveComplete` | src/kernel/capability/capability_node_reclamation.cpp:59-102 | the same for removing any slot |
| `Teardown.EmptyNodeComplete` | src/kernel/capability/capability_node.cpp:291-330 | if a Node's cleanup succeeds, every slot of the Node but the revoked one is empty, also where Nodes contain each other |
| `Teardown.EmptyHolderComplete` | src/kernel/capability/process_control_block.cpp:660-698 | if a process's cleanup succeeds, every slot it owned is empty |
| `Teardown.RevokeEmpties` | src/kernel/capability/capability_node.cpp:291-330 | a successful revocation of a Node or process not yet being finalised finalises it and leaves none of its slots in use but the revoked one |
| `Teardown.RemoveEmpties` | src/kernel/capability/capability_node_reclamation.cpp:59-102 | a successful removal of the last name of a Node or process finalises it and leaves all its slots empty; the removal of another name only clears that slot |
| `TeardownSuccess.TeardownSucceeds` | src/kernel/capability/capability_node_reclamation.cpp:16-102 | where the slots can be ranked so that what was made from an object and what lies in it ranks below every slot that names it, names of the object in itself excepted, and no object below the slot refuses its cleanup, revoking and removing the slot succeed and finalise its object, which is then empty or, as a Generic, has its watermark at the base, and no object loses its last name unfinalised |
| `TeardownSuccess.NeverFromWithin` | src/kernel/capability/capability_node_reclamation.cpp:66-76 | a process that owns the slot through which it is revoked is never torn down, since that slot is pinned |
| `TeardownSuccess.ClearedBelow` | src/kernel/include/kernel/capability/capability_component.hpp:68-79 | what is below a slot after another was unlinked was below it before, or below its alias that went |
| `LeafRevoke.RevokeLeaf` | src/kernel/capability/capability_node_reclamation.cpp:38-56 | for leaf objects, revoking turns prefix, group, descendants and suffix into exactly prefix, group and suffix, and finalises every object once, each after all its descendants and the revoked object last |
| `LeafRevoke.RemoveExact` | src/kernel/capability/capability_node_reclamation.cpp:59-102 | removing a leaf drops one alias, or its whole subtree and the object |
| `Subtree.RevokeTrees` | src/kernel/capability/capability_node_reclamation.cpp:16-57 | for objects that are never copied: what survives the revocation still hangs below them, what was finalised has nothing below it, regions restart only for finalised Generics, and no Generic is asked to clean up while something is below it |
| `Subtree.RemoveTrees` | src/kernel/capability/capability_node_reclamation.cpp:59-102 | the same for removing a slot |
| `DerivationChain.HasSiblingIff` | src/kernel/include/kernel/capability/capability_component.hpp:107-111 | looking at the two neighbours tells exactly whether any other slot names the object |
| `DerivationChain.LastAliasOwnsTheObject` | src/kernel/capability/capability_node_reclamation.cpp:85-101 | removing a slot finalises its object exactly when it is the last alias, and then no slot names the object |
| `DerivationChain.CopyKeeps` | src/kernel/include/kernel/capability/capability_component.hpp:266-283 | copying keeps the forest well formed; what it makes is `SlotEffects.CopyEffect` |
| `DerivationChain.MoveKeeps` | src/kernel/include/kernel/capability/capability_component.hpp:232-264 | moving keeps the forest well formed; what it changes is `SlotEffects.MoveEffect` |
| `DerivationChain.ChildKeeps` | src/kernel/include/kernel/capability/capability_component.hpp:115-119 | inserting a newly made object keeps the forest well formed |
| `DerivationChain.RootKeeps` | src/kernel/include/kernel/capability/capability_component.hpp:53-63 | a slot in a chain of its own keeps the forest well formed |
| `SlotEffects.CopyEffect` | src/kernel/include/kernel/capability/capability_component.hpp:266-283 | COPY succeeds exactly if the destination is vacant; it then holds the same object at the same depth of the same chain, right behind the source and before what followed it, and every other slot and the order of the others are as before |
| `SlotEffects.CopyThenRemove` | src/kernel/include/kernel/capability/capability_component.hpp:266-283 | removing the copy brings back the forest as it was |
| `SlotEffects.MoveEffect` | src/kernel/include/kernel/capability/capability_component.hpp:232-264 | MOVE succeeds exactly if the destination is vacant; it then has the source's record and both its neighbours, the source is empty, and every other slot is as before |
| `SlotEffects.MoveBack` | src/kernel/include/kernel/capability/capability_component.hpp:232-264 | moving back brings back the forest as it was |
| `SlotEffects.ChildEffect` | src/kernel/include/kernel/capability/capability_component.hpp:115-119 | a new object comes one deeper than its parent, right behind the last alias of the parent; every other slot and the order of the others are as before |
| `SlotEffects.RootEffect` | src/kernel/include/kernel/capability/capability_component.hpp:53-63 | a root has depth zero and no neighbours; every other slot and the order of the others are as before |
| `DerivationChain.RunsStayWellFormed` | src/kernel/capability/capability_node_reclamation.cpp:16-102 | starting with no slots, every run of creating roots and children, copying, moving, removing and revoking leaves a well-formed forest that never used an emptied slot, in which the two neighbours of a slot tell exactly whether its object has another alias |
| `SlotMemory.Slots.ClearSlot` | src/kernel/include/kernel/capability/capability_component.hpp:53-79 | writing the links removes the slot from its chain and leaves every other chain as it was |
| `SlotMemory.Slots.LastAliasInGroup` | src/kernel/include/kernel/capability/capability_component.hpp:83-92 | the walk along the links finds the last alias |
| `SlotMemory.Slots.CreateRoot` | src/kernel/include/kernel/capability/capability_component.hpp:53-63 | configuring an empty, unlinked slot starts a chain of its own |
| `SlotMemory.Slots.HasSibling` | src/kernel/include/kernel/capability/capability_component.hpp:107-111 | the two links decide as the chain does |
| `SlotMemory.Slots.Insert` | src/kernel/include/kernel/capability/capability_component.hpp:127-150 | writes the four links around the inserted slot and no other |
| `SlotMemory.Slots.InsertChild` | src/kernel/include/kernel/capability/capability_component.hpp:115-119 | links the child behind all aliases of its parent |
| `SlotMemory.Slots.CopySlot` | src/kernel/include/kernel/capability/capability_component.hpp:266-283 | the in-place copy computes the function of `SlotEffects.CopyEffect`; an occupied destination refuses |
| `SlotMemory.Slots.MoveSlot` | src/kernel/include/kernel/capability/capability_component.hpp:232-264 | the in-place move computes the function of `SlotEffects.MoveEffect`; an occupied destination refuses |
| `SlotMemory.Slots.RevokeSlot` | src/kernel/capability/capability_node_reclamation.cpp:16-57 | the in-place recursive teardown on links computes `Reclamation.RevokeSlot` |
| `SlotMemory.Slots.RemoveSlot` | src/kernel/capability/capability_node_reclamation.cpp:59-102 | the in-place removal on links computes `Reclamation.RemoveSlot` |
| `SlotMemory.Slots.EmptyNode` | src/kernel/capability/capability_node.cpp:291-330 | the loop over a Node's slots computes the function of `Teardown.EmptyNodeComplete` |
| `SlotMemory.ClearLinks` | src/kernel/include/kernel/capability/capability_component.hpp:68-79 | after an unlink each link that led to the slot leads to what was behind it, and no other changes |
| `GenericAllocator.SoundIff` | src/kernel/capability/generic.cpp:92-107 | a request fails or takes an aligned block of the region above the watermark if and only if the aligned block ends below 2^64 |
| `GenericAllocator.AllTakenIff` | src/kernel/capability/generic.cpp:92-107 | a number of requests all succeed if and only if that many aligned blocks fit |
| `GenericAllocator.AcceptedIff` | src/kernel/capability/generic.cpp:73-81 | what fits is accepted, and what is accepted can be carved if and only if its size does not wrap |
| `GenericAllocator.AcceptedButImpossible` | src/kernel/capability/generic.cpp:73-81 | a request for 2^52 pages of one gigabyte is accepted and cannot be met |
| `GenericAllocator.FloorIsDivision` | src/liba9n/include/liba9n/common/calculate.hpp:51-59 | rounding by repeated subtraction is dividing and multiplying back |
| `GenericChain.RunsStayCarved` | src/kernel/capability/generic.cpp:275-353 | starting with no slots, in every run of creating, converting, copying, moving, removing and revoking, every live object hangs below the Generic it was carved from, live objects of one Generic lie in disjoint aligned blocks of its region below the watermark, and no cleanup of a Generic was ever refused |
| `Conversion.ConvertMakes` | src/kernel/capability/generic.cpp:275-353 | CONVERT of a request that fits into vacant, distinct slots puts every object into its slot, as a child of the Generic and in the next aligned block, moves the watermark behind the last one, and changes no other slot or region |
| `Conversion.ConvertGenericMakes` | src/kernel/include/kernel/capability/generic.hpp:161-171 | CONVERT into a Generic makes one child whose region is the next aligned block with nothing carved, and moves the watermark behind it |
| `GenericChain.NoChildNoLive` | src/kernel/capability/generic.cpp:497-510 | a Generic whose chain shows no child has no live object anywhere, so resetting its watermark is safe |
| `GenericChain.GenericNeverRefuses` | src/kernel/capability/generic.cpp:497-510 | whatever is removed or revoked, no Generic cleaned up anywhere in the recursion has a child left, so none refuses |
| `GenericChain.ReclaimKeeps` | src/kernel/capability/capability_node_reclamation.cpp:16-102 | any teardown that restarts only finalised Generics keeps live objects housed and disjoint |
| `MemoryRegions.RunsShareNothing` | src/kernel/capability/generic.cpp:275-353 | after every run in which Boot hands out disjoint regions, two live objects of the whole machine, carved from whatever Generics, share memory only if one of them was made from the other |
| `MemoryRegions.SharedMeansRelated` | src/kernel/capability/generic.cpp:92-107 | the same for any two slots of a state with these regions, by following the derivation upwards |
| `MemoryRegions.ApplyRegions` | src/kernel/capability/generic.cpp:275-353 | every action keeps root regions disjoint and the region of a carved Generic equal to its block |
| `GenericMemory.Generics.Convert` | src/kernel/capability/generic.cpp:275-353 | on linked slots, the conversion loop refuses exactly requests whose blocks do not fit, finds fault exactly with empty requests and slots that are not vacant and distinct, and otherwise makes every object as in `Conversion.ConvertMakes` |
| `GenericMemory.Generics.Revoke` | src/kernel/capability/capability_node_reclamation.cpp:16-57 | revoking on linked slots restarts every Generic where its own cleanup runs inside the recursion, keeps live objects housed and disjoint, and meets no refusal |
| `GenericMemory.Generics.Remove` | src/kernel/capability/capability_node_reclamation.cpp:59-102 | the same for removing a slot |
| `SlotMemory.Slots.Cleanup` | src/kernel/capability/generic.cpp:497-510 | in whatever state of a revocation it is reached, the cleanup refuses exactly a Generic whose links show a child, and otherwise returns its watermark to the base |
| `SlotMemory.Slots.HasChild` | src/kernel/include/kernel/capability/capability_component.hpp:101-105 | the two links read decide as the chain does |
| `GenericMemory.GenericIntoGenericIff` | src/kernel/include/kernel/capability/generic.hpp:161-171 | converting a Generic into a Generic, which configures both slots anew, leaves linked chains if and only if the slot had no neighbours |
| `GenericMemory.DanglingLinks` | src/kernel/include/kernel/capability/generic.hpp:161-171 | otherwise the memory represents no chains at all, since a neighbour still points to the slot |
| `Descriptor.RoundTrip` | src/kernel/capability/capability_node.cpp:259-289 | any path of at most 56 bits through any graph of Nodes, encoded under its depth, resolves to its last slot, whatever its ignored and trailing bits |
| `Descriptor.ResolvesOnlyWholePaths` | src/kernel/include/kernel/types.hpp:30-34 | whatever a descriptor resolves to is the end of a path of exactly the announced bits |
| `Descriptor.FoundHasPath` | src/kernel/capability/capability_node.cpp:259-289 | the Nodes a lookup visits form such a path |
| `Descriptor.FieldReadBack` | src/kernel/include/kernel/capability/capability_node.hpp:65-73 | an index is read back from its place, independent of all other bits |
| `Descriptor.Index` | src/kernel/include/kernel/capability/capability_node.hpp:65-91 | every computed index is below 2^radix |
| `StopProtocol.EveryInterleavingIsGood` | src/kernel/process/reclamation.cpp:33-150 | for every interleaving of cores the protocol invariant holds: one holder, requests open only while the holder waits for them, program counters account for executed calls |
| `StopProtocol.OneWriter` | src/kernel/process/lock.cpp:8-22 | kernel data and saved contexts change only in the hands of the lock holder, or of the one core serving its request while the holder waits, and never can two cores write |
| `StopProtocol.NoEntryWithOpenRequest` | src/kernel/include/kernel/process/lock.hpp:37-61 | no core takes the lock with a request to itself open |
| `StopProtocol.StoppedCleanly` | src/kernel/process/reclamation.cpp:93-150 | a stop that reported success left the process on no core, in no ready queue, announced nowhere, and with its program counter at the last executed call; that a stop gets there is `StopProgress.StopCompletes` |
| `StopProtocol.AbandonedCallIsNotExecuted` | src/kernel/kernelcall/kernel_call.cpp:78-84 | a call whose process is stopped while its core waits has no effect and is rewound once |
| `StopProtocol.RequestIsAnswered` | src/kernel/process/reclamation.cpp:49-91 | in every interleaving in which the addressed core takes seven turns towards an answer, whatever other cores do meanwhile, its open request is answered |
| `StopProgress.StopAsks` | src/kernel/process/reclamation.cpp:127-139 | if the process runs on another core, four steps after it left scheduling that core is asked to stop exactly this process, and nothing else changed |
| `StopProgress.StopCompletes` | src/kernel/process/reclamation.cpp:93-150 | from the start of a stop, in every interleaving in which the core that the protocol waits for, the stopper or the addressed one, gets thirteen turns and its switch succeeds, whatever other cores do meanwhile, there is a point at which the stopper has the process stopped cleanly |
| `StopProgress.AddressedMoves` | src/kernel/process/reclamation.cpp:49-91 | each turn of the addressed core while the request is open brings the stop closer to its end |
| `StopProgress.CallRuns` | src/kernel/kernelcall/kernel_call.cpp:20-53 | a call that finds the lock free is executed once and gives the lock back |
| `StopProtocol.ServeKeeps` | src/kernel/process/reclamation.cpp:66-82 | switching away from the target keeps the protocol invariant |
| `StopProtocol.PublishKeeps` | src/kernel/process/reclamation.cpp:84-91 | publishing the answer last keeps the protocol invariant |
| `StopProtocol.AskKeeps` | src/kernel/process/reclamation.cpp:127-139 | naming the target before opening the request keeps the protocol invariant |
| `TlbShootdown.LoadedIsOwned` | src/hal/aarch64/process/process_manager.cpp:36-60 | at every step of every interleaving of lock steps, stop requests, switches and updates, with reading and writing the owner word as separate accesses, a core with a root loaded is marked in that root |
| `TlbShootdown.UpdatesReachEveryUser` | src/kernel/capability/address_space.cpp:61-101 | when the interrupts of an update have all been sent every core that uses the root has flushed since or is told to, whatever failed before, and no user falls behind that update again |
| `TlbShootdown.SpreadGrows` | src/kernel/capability/address_space.cpp:61-101 | an update that reached every user stays so |
| `TlbShootdown.PermissionLasts` | src/kernel/process/lock.cpp:8-22 | no step of another core takes away a core's permission to write |
| `TlbShootdown.MarkLostWithoutLock` | src/hal/aarch64/process/process_manager.cpp:36-60 | without the lock two switches lose a mark: a concrete interleaving of two cores ends with an unmarked user |
| `TlbShootdown.ShootdownRemoteTlb` | src/kernel/capability/address_space.cpp:61-86 | the loop over the shifted word interrupts exactly the marked cores other than its own, once each, or reports that one refused |
| `TlbShootdown.SetBitIs` | src/hal/aarch64/process/process_manager.cpp:39-45 | marking a core changes its bit and no other |
| `TlbShootdown.ClearBitIs` | src/hal/aarch64/process/process_manager.cpp:49-58 | unmarking a core changes its bit and no other |
| `TlbEffects.SwitchEffect` | src/hal/aarch64/process/process_manager.cpp:36-60 | a whole context switch leaves the new root loaded and marked, the old one unmarked, and every other mark as it was |
| `TlbEffects.UpdateEffect` | src/kernel/capability/address_space.cpp:61-101 | a whole update whose interrupts are accepted counts as spread; the updating core has flushed if it uses the root, and exactly the other marked cores are told |
| `PageTable.MapsExactlyWhereSearchPoints` | src/hal/aarch64/memory/memory_manager.cpp:101-134 | a table can be mapped for an address at the depth the search names and at no other |
| `PageTable.MapGrows` | src/hal/aarch64/memory/memory_manager.cpp:257-289 | mapping a fresh zeroed table there succeeds, strictly lowers the next answer for the address, and raises no answer for any address |
| `PageTable.SearchStops` | src/hal/aarch64/memory/memory_manager.cpp:27-63 | where a search stops the walk finds all tables above and none below |
| `PageTable.DescriptorReadsBack` | src/hal/aarch64/memory/memory_manager.cpp:130-131 | a table descriptor leads to exactly its table if and only if the address has 48 bits |
| `PageTable.Tables.SearchUnsetDepth` | src/hal/aarch64/memory/memory_manager.cpp:257-289 | the loop computes the search |
| `PageTable.Tables.TraverseEntry` | src/hal/aarch64/memory/memory_manager.cpp:27-63 | the loop computes the walk |
| `PageTable.Tables.MapTable` | src/hal/aarch64/memory/memory_manager.cpp:101-134 | links the table or reports the error and changes nothing |
| `PageTable.Tables.ConfigureInitTables` | src/kernel/boot/init.cpp:749-771 | the loop terminates; it succeeds with every address up to the last reachable, or stops at an address under a larger mapping, or runs out of pages, and then all given pages are tables, fewer than the touched regions need, and an address still lacks one; no address becomes less reachable |
| `PageTable.FrugalRunsShort` | src/kernel/boot/init.cpp:749-771 | as long as an address up to the last lacks a table, fewer tables have been used than the 2 MB, 1 GB and 512 GB regions touched |
| `BootMemory.AddRange` | src/hal/aarch64/boot/boot_protocol.cpp:175-184 | appends the range widened to pages unless it is empty or the list is full |
| `BootMemory.Sort` | src/hal/aarch64/boot/boot_protocol.cpp:188-199 | the exchange sort orders the ranges and permutes them |
| `BootMemory.Merge` | src/hal/aarch64/boot/boot_protocol.cpp:201-214 | merging in place preserves the union and leaves separated ranges |
| `BootMemory.SortAndMerge` | src/hal/aarch64/boot/boot_protocol.cpp:186-215 | the same for any list of ranges |
| `BootMemory.AddKeeps` | src/hal/aarch64/boot/boot_protocol.cpp:590-616 | a new stretch extends the map without gaps and is joined with an entry of its kind |
| `BootMemory.OneEntryEach` | src/hal/aarch64/boot/boot_protocol.cpp:590-616 | every address below the end of the map lies in one entry, and entries ascend |
| `BootMemory.DrawRam` | src/hal/aarch64/boot/boot_protocol.cpp:640-663 | a RAM range is split into free and reserved stretches |
| `BootMemory.ConstructMemoryMap` | src/hal/aarch64/boot/boot_protocol.cpp:618-665 | RAM is FREE exactly outside reserved ranges, RESERVED inside, and DEVICE fills the gaps before and between; a map that did not run full reaches the end of RAM, and a full one is right as far as it goes |

## Left out

- Failing context switches and missing per-CPU data: the kernel machine takes every switch to succeed; only `StopProtocol` has a switch that fails.
- Hardware contexts: registers that carry no message register, floating-point state and the program counter are not part of the kernel machine; `StopProtocol` has the program counter of calls.
- Moving capability slots with a message: whether the named slots can be moved is a fact about them that the entry carries; the slots themselves are those of `SlotMemory`, which knows no processes.
- Fault message layouts: a fault message sets the info and identifier words and leaves the payload.
- The revocation of a notification port that removing a binding slot can trigger: removing a binding only clears it.
- CONFIGURE of address space and root Node, IDENTIFY, and READ_REGISTER, which writes only registers of its caller: thin checks.
- Interrupts that cannot be sent: waking a process of another core and stopping one can report an error after the state has changed; the kernel machine takes the interrupt to be sent.
- ProcessControl.WriteRegisters: of the general registers only those that carry message registers are part of the model.
- KernelEntry.HandleCall: the lookup of the descriptor is `Descriptor.Traverse`; the call takes its result, a capability or a failure.
- ControlMemory.StopProcess: performs a stop at once; the exchange with another core is in `StopProtocol`.
- Processes that change their core during a stop: in `StopProtocol` a process belongs to one core.
- GenericChain.RunsStayCarved: a Generic is converted into a Generic only from a slot without neighbours, since otherwise the code leaves no chains (`GenericMemory.GenericIntoGenericIff`), and sizes do not wrap (`GenericAllocator.AcceptedIff`).
- GenericMemory.Generics.Convert: counts of 2^31 and more, for which the signed loop counter of the source overflows, and the restriction of device memory to frames and Generics.
- LeafRevoke.RevokeLeaf: the exact resulting chain is stated for descendants without slots of their own whose cleanup succeeds; for Nodes and processes `Teardown` states which slots are empty and what is finalised, not in which order.
- TeardownSuccess.TeardownSucceeds: that a ranking exists is sufficient for success, not necessary.
- Reclamation.EmptyHolder: the slots a process owns are given up in order; the process part of its teardown is `ProcessControl.RevokeProcessKeeps`.
- Descriptor.Traverse: a lookup that consumes more than 64 bits shifts by a negative amount in the source; the model stops there with a result of its own.
- StopProtocol.RequestIsAnswered: says that turns spent on reacting suffice, not that a core gets turns.
- StopProgress.StopCompletes: the same; a stop whose interrupt cannot be sent or whose switch fails reports an error in `StopProtocol`.
- Rights checks, MINT attenuation, interrupt and IO ports, virtual CPUs, logging, parsing of device trees and ELF images, drivers and the x86_64 table walk: easy members or device access.
- Weak memory: steps of different cores interleave, but each core sees all writes in order.
