# lantern-kernel: a verified model

lantern-kernel is a small seL4-style microkernel: synchronous rendezvous IPC on endpoints,
`Call`/`Reply` links, notifications, a round-robin ready queue, capability tables, objects
retyped from Untyped memory, and frames mapped into Sv39 address spaces. This project models the
whole kernel as a transition system in Dafny and proves properties of every run of it. `dafny
verify dfyconfig.toml` checks the project.

## How the model is built

**The kernel as a value.** `State.Kernel` holds every object pool (as a finite map from index to
object), the page-table arena, the ready queue and the running thread. `Objects.Context` is the
register state, both in the trap frame and saved in a thread. For every handler of the kernel
there is a step function with the same branches, the same order of checks and the same error
codes (`Ipc`, `CNodes`, `Admin`, `Frames`, `Syscalls`). `Syscalls.Dispatch` is one trap with an
arbitrary trap frame, `Syscalls.Run` any sequence of traps. A failed `expect`, an `unreachable!`,
a failed `debug_assert!` or an arithmetic overflow is the outcome `Panic`, which is proved
unreachable.

**The kernel as it runs.** The `Queue`, `Pool`, `TrapFrames`, `Machine`, `IpcMachine`,
`AdminMachine`, `FrameMachine` and `SyscallMachine` modules hold the imperative code: a ring
buffer and a pool over arrays, a trap frame whose registers are copied in loops, and the mutable
`KernelState`, eight such pools, the arena and the scheduler, with the handlers that change it step
by step. `KernelState.Model` is the kernel value these arrays stand for. Each method is proved to do exactly
what its step function says, so `SyscallMachine.Dispatch` takes the mutable state through one step
of the transition system, and whatever is proved about runs holds of it. A handler requires of its
caller that its step function does not end in `Panic`; `SyscallMachine.Dispatch` requires the
invariant instead, and derives from it that no handler panics.

**The invariant.** `Invariants.Inv` states what the comments of the source rely on: each thread is
in exactly one place, once; queues of endpoints are never empty; `current` names the one running
thread; a reply link leads to a thread that waits for a reply, and no two links to the same one; a
notification with waiters has no pending signals; pools and allocators stay within their bounds.

**Effects.** The thirteen calls have only nine effects on threads (`Effects`) and seven on
capability slots (`SlotEffects`). The theorems about runs are proved effect by effect.

**What a call comes to.** `Traps` describes every trap a second time, without the step functions:
`Traps.RefusalOf` lists the conditions under which a call is refused, in the order of their priority, and
`Traps.Done` the effect of a call that is not. Both read the capabilities off the slots that the registers
name (`Designation`), and the queues and signals off the kernel (`IpcRefusals`, `IpcOutcomes`,
`AdminRefusals`). `Traps.TrapIsExact` proves that the step functions do just that, and `Permissions` says
what follows for each call in so many words.

**The page-table walk.** `lantern_hal` is not part of this model. A walk is an input of the trap
(`Frames.Walk`): whether the address is translated already, and how many of the offered spare
pages become branch tables, at most those offered. `branches` stands for the contents of the
page-table arena.

## Model

| member | source | states |
|---|---|---|
| Upkeep.RunKeepsInv | src/syscall.rs:74-114 | From any state that satisfies the invariant, every run of traps with arbitrary registers satisfies it again: exactly one place per thread, one running thread, one-shot reply links, normalized queues, calm notifications, pools within capacity. |
| Upkeep.StepKeepsInv | src/state.rs:69-137 | Every single trap keeps the invariant, whichever of the thirteen calls it is. |
| Placement.MoveKeepsThreads | src/state.rs:117-137 | Each of the nine effects keeps every thread in exactly the queue its state names, once, and never loses the running thread. |
| AdminEffects.HandlerBehaves | src/syscall.rs:93-109 | From a well-formed kernel a handler never panics; if it fails, no thread moves and the frame is untouched; if it succeeds, it has one effect that this call may have. |
| Totality.NoTrapPanics | src/error.rs:1-4 | In every run, no trap panics, whatever the registers say. |
| Totality.NoQueueOverflows | src/ipc.rs:204-208 | The `NotEnoughMemory` returns of the wait queues are unreachable: no IPC call ever reports it. |
| Invariants.QueueHasRoom | src/state.rs:136-136 | The pigeonhole argument: a queue that some thread is not in has room for it, so the ignored result of `push_back` is always true. |
| Totality.SwitchTargetsAreNotQueued | src/state.rs:69-76 | The unchecked precondition of `switch_to` holds at both call sites: its target is not in the ready queue; every other switch takes the head of the ready queue. |
| Totality.SendersTimeOut | src/ipc.rs:201-203 | `Send` and `Call` return `Timeout` if and only if the message is good, nobody receives and no other thread is ready. |
| Totality.ReceiversTimeOut | src/ipc.rs:277-279 | `Recv` returns `Timeout` if and only if nobody sends and no other thread is ready; `Wait` if and only if no signal is pending and no other thread is ready. |
| Traps.TrapIsExact | src/syscall.rs:74-114 | Every trap from any invariant state: it reports exactly the error that the slots, registers and queues call for, and the kernel is as it was but for the page or memory stated, or it has exactly the effect its call is for. |
| Traps.StatusIsExact | src/syscall.rs:93-113 | Any of the thirteen calls, or an unknown number, succeeds if and only if none of its conditions for refusal holds, and otherwise fails with the error of the first one that does. |
| Permissions.SendingTakesWrite | src/ipc.rs:143-154 | If `Send`, `NBSend` or `Call` succeeds, slot mr0 of the caller's CSpace holds a capability with Write for an existing endpoint; the first receiver of that endpoint reads its badge, or the caller waits there with it. |
| Permissions.ReceivingTakesRead | src/ipc.rs:218-295 | If `Recv` succeeds, slot mr0 holds a capability with Read for an existing endpoint; the caller has the badge of that endpoint's first sender, who leaves the queue, or waits there. |
| Permissions.EndpointTakesRight | src/ipc.rs:150-152 | With a capability that lacks the right, any IPC call is refused with `IllegalOperation`, with another kind of capability with `InvalidCapability`, and changes nothing, whatever its tag says. |
| Permissions.ReplySucceedsIff | src/ipc.rs:372-413 | `Reply` succeeds if and only if the tag is in order, the caller owes somebody a reply and, with a capability attached, that may be granted and the other side named an empty slot for it. |
| Permissions.DebtorCanAnswer | src/ipc.rs:390-411 | A plain `Reply` of a thread that owes one always succeeds: the caller runs with the payload and the debt is gone. |
| Permissions.SignalSucceedsIff | src/ipc.rs:430-455 | `Signal` succeeds if and only if slot mr0 holds a capability with Write for an existing notification; the first waiter then takes the pending bits and those of the badge in the slot, or all of them are pending. |
| Permissions.TakingSucceedsIff | src/ipc.rs:457-513 | `Poll` succeeds if and only if slot mr0 holds a capability with Read for an existing notification; `Wait` needs pending bits or another thread to run as well. What is pending is returned in mr0. |
| Permissions.NotificationTakesRight | src/ipc.rs:415-426 | Without the right no signal is given or taken: `IllegalOperation`, or `InvalidCapability` for another kind of capability, and nothing changes. |
| Permissions.CopySucceedsIff | src/cnode.rs:115-209 | `Copy` and the cross copy succeed if and only if the nodes are what the slots name, something is in the source slot and nothing in the target slot; then exactly that capability, badge and rights included, is put there and nothing else changes. |
| Permissions.MintSucceedsIff | src/cnode.rs:71-98 | `Mint` succeeds if and only if the source has every right requested and a kind that has rights, and the target slot is empty. |
| Permissions.ConfigureSucceedsIff | src/admin.rs:144-191 | `TCBConfigure` succeeds if and only if slots mr0 to mr3 hold a thread with Write, a node, a scheduling context and, unless mr3 is zero, an address space with Write; the thread has exactly these roots. |
| Permissions.MapSucceedsIff | src/frame.rs:84-165 | `Map` succeeds if and only if frame and address space are held with Write, the address is aligned and not translated, the frame has a mapping left and the arena the pages. |
| Permissions.RetypeSucceedsIff | src/admin.rs:41-131 | `UntypedRetype` succeeds if and only if the Untyped is held with Write and has budget left, the slot named is empty, and there is room for an object of that type. |
| Permissions.YieldRotates | src/syscall.rs:63-69 | `Yield` always succeeds: the caller goes behind the ready threads and the first of them runs, the caller itself if there are none. |
| IpcRefusals.SendStatus | src/ipc.rs:159-216 | The exact status of `Send` and `NBSend`, with the attached capability and the slot of the head receiver in the condition. |
| IpcRefusals.CallStatus | src/ipc.rs:300-359 | The exact status of `Call`, with both meanings of its extra capabilities. |
| IpcRefusals.RecvStatus | src/ipc.rs:218-295 | The exact status of `Recv`, with the slot it offers for the capability of the head sender. |
| IpcOutcomes.SendOutcome | src/ipc.rs:174-216 | A `Send` that is not refused delivers the message of its slots and registers to the head receiver, or leaves it with the sender, or drops it; queues, registers, slots and signals are stated exactly. |
| IpcOutcomes.CallOutcome | src/ipc.rs:320-358 | Likewise for `Call`, which hands over to the receiver or waits. |
| IpcOutcomes.RecvOutcome | src/ipc.rs:235-294 | Likewise for `Recv`, from a sender, from a caller, or waiting. |
| IpcOutcomes.ReplyOutcome | src/ipc.rs:390-412 | Likewise for `Reply`. |
| AdminRefusals.CNodeInvokeIsExact | src/cnode.rs:32-65 | Each operation on slots succeeds if and only if its conditions on the two slots hold, and the resulting kernel is an equation in the slots before. |
| AdminRefusals.CopyCrossOutcome | src/cnode.rs:180-209 | A cross copy installs exactly what is in the slot of the source node that slot mr1 leads to, or fails with the exact error. |
| AdminRefusals.MintOutcome | src/cnode.rs:71-98 | The exact error of `Mint`, or a capability to the same object with just the rights whose bits are requested and the badge above them. |
| AdminRefusals.ConfigureIsExact | src/admin.rs:144-191 | The exact status of `TCBConfigure`, and the whole kernel after it as an equation in the slots that the registers name. |
| AdminRefusals.MapIsExact | src/frame.rs:84-165 | The exact status of `Map`, and the whole kernel after it: the mapping, the cursor and the pages that became tables. |
| AdminRefusals.UnmapIsExact | src/frame.rs:171-192 | The exact status of `Unmap`, and that only the first mapping into that address space goes. |
| AdminRefusals.RetypeIsExact | src/admin.rs:41-131 | The exact status of `UntypedRetype`, and the whole kernel after it: the new object by its type number, its capability and the budget. |
| Designation.LookupFindsDesignated | src/state.rs:142-150 | A lookup is the content of the slot, `FailedLookup` without a CSpace, `InvalidCapability` if nothing is there. |
| Capabilities.PackedRights | src/cap.rs:35-58 | The rights in a packed word are those of its low byte, read as bits: Read, Write, Grant. |
| Fairness.BoundedWaiting | src/state.rs:96-112 | A thread at position i of the ready queue runs within 2(N-2)+3i+1 context switches of any run, with N threads at its start, although directed switches bypass the queue. |
| Fairness.StepAdvances | src/state.rs:77-112 | A ready thread keeps its place or moves up by one, and each context switch is paid for by the potential or by its position. |
| Fairness.MoveIsSwitch | src/ipc.rs:321-339 | Only a pop of the ready queue raises the potential, by at most two; every directed switch (`Call` rendezvous, `Reply`) lowers it. |
| Fifo.RunIsFifo | src/queue.rs:34-52 | Conservation for every queue of the kernel over any run: what was queued followed by what arrived is what left followed by what is queued. |
| Fifo.ServedInOrder | src/ipc.rs:235-274 | The thread at position i of any queue is the (i+1)-th to leave it, in any run. |
| Fifo.LeaverIsServed | src/ipc.rs:174-292 | A thread leaves a wait queue only by a call that names this very endpoint or notification; it then runs, is ready or awaits its reply. |
| Service.StepServes | src/ipc.rs:174-292 | Exactly the head leaves a wait queue, and it leaves if and only if the trap is a call that names this queue while somebody waits there, and the call succeeds. |
| Service.RunServes | src/ipc.rs:235-274 | Over any run, as many threads leave a wait queue as there are successful calls that serve it. |
| Service.ServedByItsCall | src/queue.rs:44-52 | The thread at position i of a wait queue is served by the successful call number i+1 on it, in any run: no earlier one, and that one exactly. |
| Delivery.WaitsUnchanged | src/object.rs:95-117 | The thread at position i of a wait queue keeps its state and all its registers, and moves up with each serving call, until its turn comes, in any run. |
| Delivery.SenderIsReceived | src/ipc.rs:235-274 | The sender at position i is received by the successful `Recv` number i+1, with exactly the badge, payload, tag and capability it blocked with, whatever happens in between; it is then ready, or is owed a reply. |
| Delivery.ReceiverIsServed | src/ipc.rs:174-191 | The receiver at position i gets exactly the message of the successful `Send`, `NBSend` or `Call` number i+1 in the registers it blocked with, and the capability in the slot it registered. |
| CallChains.RunKeepsAcyclic | src/ipc.rs:331-337 | Following `reply_to` links never leads back to the start, in any run. |
| CallChains.OnlyDebtorAnswers | src/ipc.rs:378-411 | However long a call goes unanswered, the one trap that ends the wait is a `Reply` by the thread that owed it from the start; after it nobody owes the caller anything. |
| CallChains.CallerIsLostIff | src/ipc.rs:264-270 | A thread that owes a reply loses its caller at a trap if and only if at that trap it takes another call: it receives a blocked `Call`, or is the head receiver of an endpoint that is called, and the attached capability can be placed. |
| CallChains.LostForEver | src/ipc.rs:331-337 | A caller whose debtor takes another call waits for a reply, owed by nobody, in every run from there. |
| CallChains.DebtLasts | src/ipc.rs:398-411 | In any run in which the debtor takes no other call, it owes the reply until the caller has it. |
| CallChains.OverwrittenCallerIsLost | src/ipc.rs:264-270 | If a trap makes a debtor owe a reply to another caller, the first caller still waits and nobody owes it a reply. |
| CallChains.OrphanWaitsForever | src/object.rs:156-159 | A caller that nobody owes a reply to is never resumed. |
| Rendezvous.MessageReachesReceiver | src/ipc.rs:174-191 | `Send` or `Call` to a waiting receiver puts the badge, the three payload words and the tag in its saved registers, with a zero where mr1 named a capability or slot, and the attached capability in the slot it registered. |
| Rendezvous.ReceiverTakesMessage | src/ipc.rs:235-262 | `Recv` from a waiting sender returns the badge, payload and tag the sender blocked with, the error flag cleared, and places the capability it attached. |
| Rendezvous.ReplyReachesCaller | src/ipc.rs:378-411 | A successful `Reply` resumes the caller with the payload, a zero for the badge and the replier's tag, and places the attached capability in the slot the call registered. |
| Rendezvous.OrderDoesNotMatter | src/ipc.rs:159-357 | For two traps in a row on an endpoint where nobody waits, either side may arrive first: the result, the slots, the endpoints and the sender's fate agree; the receiver's registers differ in mr1 and the error flag at most, and not at all if and only if the sender's error flag is clear and it is not a `Call` that registers a non-zero reply slot. |
| Delivery.AnyOrderDelivers | src/ipc.rs:159-357 | The same from any two kernels, behind any number of earlier waiters and with any run of other traps in between: the receiver's registers differ in mr1 and the error flag at most, under the same exact condition, and in both orders the capability lands and the sender is answered for alike. |
| Delivery.NextTrapIsSentFirst | src/ipc.rs:201-215 | The two traps in a row are the case of an empty run between them, exactly if the receiver succeeds. |
| Delivery.NextTrapIsReceivedFirst | src/ipc.rs:277-292 | Likewise when the receiver comes first. |
| Transparency.StepKeepsRegisters | src/object.rs:48-73 | A trap leaves the saved registers of a thread that is not running alone, unless it serves that thread; then they are its old ones with exactly the message of this trap delivered (badge, payload and tag to a receiver, payload and tag to a caller, the word in mr0 to a waiter). |
| Transparency.RunKeepsRegisters | src/object.rs:48-73 | Over any run a thread that does not run keeps all registers while inactive, ready, blocked in `Send` or waiting for a reply; one blocked in `Recv` or `Wait` keeps them until a single trap of the run serves it, and then has them with exactly what that trap delivered. |
| Transparency.StepSavesAndLoads | src/state.rs:77-112 | On a switch the outgoing thread's frame is saved unchanged, and the frame the trap returns to is the incoming thread's saved context, with the flag cleared if the trap was a `Yield`. |
| Transparency.SwitchRoundTrip | src/syscall.rs:63-69 | A thread switched out, at rest through any run and switched in again resumes with all its registers if it was ready or blocked in `Send`, with all but mr0 if it waited for a signal, and with only the message of the one trap that served it delivered if it was in `Recv` or `Call`; a `Yield` that resumes it clears the flag. |
| Signals.TakenIsWhatWasSignalled | src/ipc.rs:430-512 | After any run, the next word taken from a notification has exactly the bits of the badges signalled since the word before it was taken; a badge signalled is the one in the slot of the thread that signals. |
| Signals.StepAccounted | src/ipc.rs:466-487 | One trap loses no bit and repeats none: a taken word is the OR of all pending badges, and the pending signals are the OR of the badges not taken yet. |
| Signals.OrAllBits | src/ipc.rs:441-453 | The OR of several badges has a bit if and only if one of them has it. |
| Words.OrBit | src/ipc.rs:441-441 | OR of machine words sets exactly the bits either word has. |
| Failure.FailureIsClean | src/syscall.rs:111-113 | A failed call changes only the caller's mr0 and error flag; the kernel is unchanged if and only if the call is not one of three that leak, and then only an allocator cursor differs. |
| Failure.LeaksAlwaysFail | src/admin.rs:102-113 | The three leaking conditions (no room for the address space, no room for the frame, one spare page left of two) always end in an error, and always change the kernel. |
| Failure.SomeFailureLeaks | src/frame.rs:136-138 | A concrete well-formed kernel in which `Map` fails for want of memory and takes the last page of the arena with it. |
| Failure.RetypePanicsIff | src/object.rs:284-288 | In any kernel a retype panics if and only if it is valid, asks for a frame, and the cursor of the invoked Untyped plus the size of the frame is no machine word. |
| Witnesses.OrderCanShow | src/ipc.rs:314-317 | A concrete well-formed kernel in which a `Call` that registers a non-zero reply slot leaves the receiver other registers when it comes first than when it comes second. |
| Witnesses.CallerCanBeLost | src/ipc.rs:266-266 | A concrete well-formed kernel in which a server receives again before it replies, and its first caller waits for ever in every run. |
| Witnesses.UnmapCanMiss | src/frame.rs:171-192 | A concrete well-formed kernel in which a frame is mapped twice into one address space, so that `Map` followed by `Unmap` does not give the same kernel. |
| Witnesses.RetypeCanPanic | src/object.rs:286-286 | A kernel in order but for a range that reaches the top of the address space, in which retyping a small frame panics. |
| SlotEffects.HandlerSlots | src/ipc.rs:77-86 | Every call writes capability slots in one of seven ways, each tied to the capability, slot and node that justify it. |
| SlotEffects.AttenuateNarrows | src/cnode.rs:100-113 | Attenuation succeeds exactly for kinds that carry rights; the result names the same object with exactly the given rights. |
| SlotEffects.ExtraCapHeld | src/ipc.rs:25-50 | An attached capability is in the sender's CSpace at mr1 and carries GRANT. |
| Slots.StepKeepsLaw | src/cnode.rs:92-157 | A live capability is never replaced, only cleared by `Delete` or `Move` through a held node capability; an empty slot is filled only in the caller's own CSpace, in a node it controls, or in the slot registered by its partner: the head of the queue its call names, or the caller it answers. |
| Slots.RunKeepsCapability | src/cnode.rs:129-157 | A capability stays in its slot through any run in which nobody asks to delete it or move it away. |
| Authority.StepDerives | src/cnode.rs:78-113 | After a trap, every capability in a slot or in flight derives from one held before, with no more rights, or names an object just made. |
| Authority.RunDerives | src/admin.rs:74-126 | Over any run, a capability to an object that existed at the start derives from one held at the start. |
| Authority.NoRightIsGained | src/cap.rs:35-58 | No run gives anybody a right to an existing object that nobody had. |
| Confinement.StepKeepsSeparated | src/ipc.rs:143-154 | Two groups of threads, nodes and endpoints that no capability, CSpace, queue or reply link joins are not joined by any trap; what is made belongs to the group of the thread that made it. |
| Confinement.RunKeepsSeparated | src/admin.rs:74-126 | Such groups stay apart in every run. |
| Confinement.RunStaysInside | src/ipc.rs:77-86 | Over any run, each capability that a group holds to an object that existed at the start derives from one that the same group held at the start. |
| Confinement.GroupsExchangeNothing | src/cap.rs:35-58 | Two separated groups never exchange authority: in no run does either gain a right to an existing object that it did not have itself. |
| Authority.NodesNeverTravel | src/ipc.rs:21-31 | In any run a capability to a CNode never moves by a message, live or in flight. |
| Authority.StepInFlight | src/object.rs:110-117 | What a blocked sender has attached was looked up in its CSpace, with GRANT, at its own trap. |
| Authority.RunNothingDangles | src/state.rs:142-150 | In every run, whatever a capability, a thread (its CSpace, scheduling context and address space) or a frame mapping names has been allocated. |
| Authority.LookupIsExact | src/state.rs:139-150 | A lookup succeeds exactly with the capability in the slot, and reports `InvalidCapability` exactly if the slot is empty or out of range. |
| Authority.LookupsFindTheNode | src/state.rs:143-145 | `FailedLookup` is reported if and only if the thread has no CSpace. |
| Authority.StepKeepsObjects | src/cnode.rs:146-149 | No call destroys an object. |
| Administration.MintIsExact | src/cnode.rs:71-98 | A minted capability names the source's object with exactly the requested rights, a subset of the source's, and the requested badge if its kind has one; only an empty slot is written. |
| Administration.MoveConserves | src/cnode.rs:129-144 | A move neither copies nor destroys: the node holds the same multiset of capabilities, and no other node changes. |
| Administration.MoveBackRestores | src/cnode.rs:129-144 | Moving a capability there and back gives the same kernel. |
| Administration.DeleteUndoesCopy | src/cnode.rs:115-157 | Deleting a copy gives the same kernel as before the copy. |
| Administration.RetypeEndows | src/admin.rs:74-127 | A successful retype puts a full capability to a new object of the requested type in the empty slot the caller named, and takes one from that Untyped's budget. |
| Administration.ConfigureSetsRoots | src/admin.rs:177-187 | Configuration sets the three roots of one thread, admits it at the back of the ready queue if it was inactive, and changes nothing else: no other thread, no other part of the kernel, not the running thread. |
| Capabilities.RightsAreSets | src/cap.rs:35-71 | The bit operations on a rights byte (truncation, union, containment, subset) are the set operations the model uses. |
| Budget.RunConservesBudget | src/admin.rs:57-127 | The budgets of all Untypeds plus the number of live objects in all other pools is constant over any run. |
| Upkeep.NewObjectTidy | src/admin.rs:74-121 | Making an object adds exactly one live object within the capacity of its pool and costs no budget by itself; a failed attempt adds none. |
| Words.AlignUpRoundsUp | src/object.rs:284-288 | For every power of two the mask expression yields the least multiple at or above the cursor. |
| Memory.BumpCarves | src/object.rs:284-293 | For every size and every power-of-two alignment a bump hands out an aligned chunk at the first such address behind the old cursor, moves the cursor to its end and stays inside the range. |
| Memory.FramesNeverOverlap | src/admin.rs:106-115 | From disjoint Untyped ranges, in every run all frames are aligned to their size, inside one of the original ranges, and pairwise disjoint. |
| Memory.RunKeepsMemory | src/object.rs:262-294 | The bump cursors only move up in their own ranges, and every frame lies below the cursor of the Untyped it was carved from, in every run. |
| Arena.RunKeepsArena | src/object.rs:382-397 | In every run all address-space roots and branch tables are distinct aligned pages of the arena below its cursor. |
| Arena.MapCost | src/frame.rs:131-163 | A successful `Map` moves the cursor by exactly the tables its walk took, which are the next pages in a row, and records the mapping in the first free slot. |
| Arena.SparesInARow | src/frame.rs:135-138 | Taking spare pages succeeds if and only if that many are left, and takes them consecutively. |
| Arena.MapThenUnmap | src/frame.rs:171-192 | Mapping over existing branch tables and unmapping again gives the same kernel if and only if the frame's first mapping was not already into that address space. |
| Arena.MappingRunsCostNothing | src/frame.rs:119-130 | With two pages left, any run that makes no object and whose walks take no table (whatever frames, spaces and addresses, interleaved with any other calls) leaves the arena exactly as it was. |
| CleanPages.AllocatedPageIsClean | src/object.rs:382-397 | The page the arena hands out after any run has held no page table at any point of that run, so nothing has written to it. |
| Arena.RoundsCostNothing | src/frame.rs:171-192 | Any number of rounds that map a frame over existing branch tables and unmap it again give the same kernel. |
| Boot.FirstThreadEstablishesInv | src/lib.rs:96-113 | Entering the first thread establishes the invariant if and only if the thread waits nowhere, whether or not it is queued as ready already. |
| Boot.NeverStranded | src/lib.rs:90-113 | After any administrative calls at boot and any run afterwards, there is a running thread and the invariant holds. |
| Booted.SeedIsSound | src/state.rs:49-62 | The kernel boot code seeds, with one node, one thread and one Untyped, satisfies the premises of all theorems about runs: acyclic calls, nothing dangling, only grantable capabilities in flight, the arena and the frames in order. |
| Booted.BootCallKeepsSound | src/admin.rs:144-191 | Every administrative call at boot keeps these premises. |
| Booted.BootedRunsAreSound | src/lib.rs:90-113 | After any administrative calls at boot, the start of any thread that may be entered, and any run from there, the invariant and all these premises hold. |
| Boot.BootCallKeepsWellFormed | src/admin.rs:144-191 | The administrative handlers keep a kernel without a running thread well-formed and do not panic. |
| Boot.EmptyIsWellFormed | src/state.rs:49-62 | A new kernel is well-formed. |
| Pool.AllocFindsFreeSlot | src/pool.rs:31-39 | Allocation succeeds if and only if some slot is free, and yields an index that was free. |
| Pool.FreeThenAlloc | src/pool.rs:31-56 | A freed lowest index is the next one handed out, and refilling it restores the pool. |
| Pool.FirstFree | src/pool.rs:35-35 | The scan stops at the first free index: every index before it is taken. |
| Pool.Pool.constructor | src/pool.rs:14-16 | A new pool is the empty map. |
| Pool.Pool.Alloc | src/pool.rs:31-39 | The array scan takes the first free slot, and fails exactly if there is none. |
| Pool.Pool.Get | src/pool.rs:41-43 | Reading an index gives the value of the map, if there is one, also out of range. |
| Pool.Pool.Put | src/pool.rs:45-47 | Only an occupied slot can be written, and no other changes. |
| Pool.Pool.Free | src/pool.rs:50-56 | Freeing returns what the slot held and removes exactly that index. |
| Queue.ArrayQueue.constructor | src/queue.rs:13-15 | A new queue is empty. |
| Queue.ArrayQueue.IsEmpty | src/queue.rs:17-19 | Empty exactly if its sequence is. |
| Queue.ArrayQueue.Front | src/queue.rs:26-32 | The first element, without removing it. |
| Queue.ArrayQueue.PushBack | src/queue.rs:34-42 | Appends, unless the queue is at capacity, at any head position. |
| Queue.ArrayQueue.PopFront | src/queue.rs:44-52 | Takes the first element; exactly the cells of the live window stay occupied. |
| Queue.ArrayQueue.Remove | src/queue.rs:62-79 | The in-place wrap-around compaction removes exactly the first occurrence, keeps the order and reports whether there was one. |
| Queue.RemoveFirstSplits | src/queue.rs:55-56 | Removing the first occurrence leaves everything before and after it in order. |
| Queue.RemoveFirstAbsent | src/queue.rs:71-74 | Removing an absent element changes nothing. |
| Queue.KeepStep | src/queue.rs:75-77 | One step of the compaction: the element read moves to the write cursor, which never passes the read cursor, and no other live cell changes. |
| TrapFrames.TrapFrame.Zeroed | src/object.rs:29-36 | A zeroed frame. |
| TrapFrames.TrapFrame.Save | src/object.rs:48-58 | The copy loops yield exactly the registers of the frame. |
| TrapFrames.TrapFrame.Restore | src/object.rs:64-73 | The copy loops load exactly the snapshot. |
| TrapFrames.TrapFrame.Deliver | src/ipc.rs:257-262 | Writes badge, payload and tag, and clears the flag. |
| TrapFrames.TrapFrame.Succeed | src/abi.rs:45-49 | Clears the error flag and nothing else. |
| TrapFrames.TrapFrame.Fail | src/abi.rs:51-56 | Writes the error code to mr0 and sets the error flag, and nothing else. |
| TrapFrames.SaveRestoreRoundTrip | src/object.rs:48-73 | Saving one frame and restoring into another transfers it unchanged. |
| Machine.Scheduler.constructor | src/scheduler.rs:18-20 | No ready thread and no current one. |
| Machine.Scheduler.HasReady | src/scheduler.rs:22-24 | Whether the ready queue is non-empty. |
| Machine.Scheduler.RemoveReady | src/scheduler.rs:35-37 | Removes the thread from the ready queue if it is there. |
| Machine.KernelPageTables.Alloc | src/object.rs:389-397 | Takes the page at the cursor, or fails without effect when the arena is used up. |
| Machine.KernelPageTables.ReleaseLast | src/object.rs:378-380 | Gives the most recent pages back. |
| Machine.KernelState.constructor | src/state.rs:49-62 | The empty kernel. |
| Machine.KernelState.PutTcb | src/state.rs:117-137 | A write through a pool changes that one thread of the kernel the arrays stand for, if it exists, and nothing else. |
| Machine.KernelState.AllocTcb | src/admin.rs:87-90 | An allocation from the thread pool adds exactly the new thread at the first free index, or nothing if the pool is full. |
| Machine.KernelState.SettleSpares | src/frame.rs:158-160 | The walk links the first of the spare pages, and the others go back to the arena. |
| Machine.KernelState.SaveCurrent | src/state.rs:152-158 | Saves the frame as the running thread's context. |
| Machine.KernelState.SwitchTo | src/state.rs:77-85 | The directed switch of the transition system. |
| Machine.KernelState.BlockCurrent | src/state.rs:96-112 | Switches to the head of the ready queue, or does nothing and says so. |
| Machine.KernelState.MakeReady | src/state.rs:129-137 | Marks and queues a thread, once. |
| Machine.KernelState.LookupCap | src/state.rs:142-150 | The lookup of the transition system. |
| Machine.KernelState.EnterFirstThread | src/lib.rs:105-113 | Unqueues the thread, makes it current and running, and fills a fresh frame from its context. |
| IpcMachine.ResolveTransferableCap | src/ipc.rs:25-31 | Finds the capability in the thread's CSpace, and refuses one without GRANT. |
| IpcMachine.ExtractExtraCap | src/ipc.rs:39-50 | An attached capability is looked up only for `extra_caps == 1`, never for the reply-slot meaning of 2. |
| IpcMachine.ResolveEndpoint | src/ipc.rs:143-154 | Exactly the endpoint and badge of the capability in the slot, if it has the required rights, else the error for no CSpace, the wrong kind or the missing right. |
| IpcMachine.ResolveNotification | src/ipc.rs:415-426 | Exactly the notification and badge of the capability in the slot, if it has the required rights, else the error for no CSpace, the wrong kind or the missing right. |
| IpcMachine.PlaceTransferredCap | src/ipc.rs:77-86 | Fills the receiver's empty slot as the step function says, or fails without effect. |
| IpcMachine.BlockedReceiverDestSlot | src/ipc.rs:92-97 | The slot a thread blocked in `Recv` registered. |
| IpcMachine.BlockedCallerReplyDestSlot | src/ipc.rs:102-107 | The slot a thread blocked in `Call` registered. |
| IpcMachine.SetEndpointQueue | src/ipc.rs:109-113 | Writes the queue of an existing endpoint. |
| IpcMachine.DeliverPayload | src/ipc.rs:125-141 | Five register writes make one delivered message. |
| IpcMachine.DeliverToReceiver | src/ipc.rs:174-189 | Transfer first, then dequeue and deliver; a failed transfer leaves the state as it was. |
| IpcMachine.BlockSender | src/ipc.rs:201-215 | Queues and blocks the caller; the switch it ends with always happens. |
| IpcMachine.Send | src/ipc.rs:159-216 | Takes the state and frame where the step function `Ipc.Send` says. |
| IpcMachine.Recv | src/ipc.rs:218-295 | Takes the state and frame where the step function `Ipc.Recv` says. |
| IpcMachine.Call | src/ipc.rs:300-359 | Takes the state and frame where the step function `Ipc.Call` says. |
| IpcMachine.Reply | src/ipc.rs:372-413 | Takes the state and frame where the step function `Ipc.Reply` says; under the invariant it succeeds exactly if no condition of `IpcRefusals.ReplyRefusal` holds. |
| IpcMachine.Signal | src/ipc.rs:430-455 | Takes the state and frame where the step function `Ipc.Signal` says. |
| IpcMachine.Wait | src/ipc.rs:457-491 | Takes the state and frame where the step function `Ipc.Wait` says. |
| IpcMachine.Poll | src/ipc.rs:496-513 | Takes the state and frame where the step function `Ipc.Poll` says. |
| AdminMachine.Mint | src/cnode.rs:71-98 | Takes the state where `CNodes.Mint` says, or fails with its error and without effect. |
| AdminMachine.Copy | src/cnode.rs:115-127 | Takes the state where `CNodes.Copy` says, or fails without effect. |
| AdminMachine.MoveCap | src/cnode.rs:129-144 | Takes the state where `CNodes.MoveCap` says, or fails without effect. |
| AdminMachine.Delete | src/cnode.rs:150-158 | Takes the state where `CNodes.Delete` says, or fails without effect. |
| AdminMachine.CopyCross | src/cnode.rs:180-209 | Puts what is in the slot of the source node, and nothing else, into the slot of the target node, or fails with the exact error and without effect. |
| AdminMachine.CNodeInvoke | src/cnode.rs:32-65 | Takes the state and frame where `CNodes.Invoke` says. |
| AdminMachine.Bump | src/object.rs:284-293 | Advances the range of one Untyped, or leaves everything alone. |
| AdminMachine.NewObject | src/admin.rs:74-121 | Makes the object and the capability to it as `Admin.NewObject` says. |
| AdminMachine.UntypedRetype | src/admin.rs:41-131 | Takes the state and frame where `Admin.UntypedRetype` says. |
| AdminMachine.Configure | src/admin.rs:144-191 | Takes the state and frame where `Admin.Configure` says, and gives the thread exactly the roots that the slots name, or fails with the exact error. |
| FrameMachine.AllocSparePages | src/frame.rs:131-138 | The loop takes the spare pages one by one and keeps those taken before a failure. |
| FrameMachine.Map | src/frame.rs:84-165 | Takes the state and frame where `Frames.Map` says. |
| FrameMachine.Unmap | src/frame.rs:171-192 | Takes the state and frame where `Frames.Unmap` says. |
| FrameMachine.FrameInvoke | src/frame.rs:63-82 | Takes the state and frame where `Frames.Invoke` says. |
| SyscallMachine.YieldNow | src/syscall.rs:63-69 | Queues the caller, switches and clears the flag in the frame resumed; the switch always happens. |
| SyscallMachine.Handle | src/syscall.rs:93-109 | Selects the handler by syscall number. |
| SyscallMachine.Dispatch | src/syscall.rs:74-114 | Under the invariant, one trap takes the mutable state and frame through exactly one step of the transition system, without panicking, and the invariant holds again; what the step does is told by `Traps.RefusalOf`, `Traps.AfterRefusal` and `Traps.Done`. |

## Where the code and its comments disagree

The model follows the code.

- `recv` zeroes mr1 only for an attached capability, while `call` also zeroes it for a registered
  reply slot and says that a receiver must never see that slot (src/ipc.rs:258, src/ipc.rs:314-317).
  `Rendezvous.OrderDoesNotMatter` and `Delivery.AnyOrderDelivers` state exactly when the orders agree, and
  `Witnesses.OrderCanShow` is a case where they do not.
- `recv` clears the error flag of the delivered tag; `deliver_payload` and `reply` pass the
  sender's tag on as it is (src/ipc.rs:262, src/ipc.rs:139, src/ipc.rs:405).
- `yield_now` clears the flag in the frame of the thread that is resumed (src/syscall.rs:66-68).
- A server that accepts a second call before it replies overwrites its reply link
  (src/ipc.rs:266, src/ipc.rs:332): the first caller then waits for ever. `CallChains.CallerIsLostIff`
  says exactly when, and `Witnesses.CallerCanBeLost` shows it.
- `unmap` clears the first mapping into the address space, which need not be the one mapped last
  (src/frame.rs:171-192): `Arena.MapThenUnmap` states when the two undo each other, and
  `Witnesses.UnmapCanMiss` is a case where they do not.
- Some failing calls spend memory (src/admin.rs:102-103, src/admin.rs:109-113, src/frame.rs:136-138).
- No system call is to panic (src/error.rs:1-4), but with overflow checks retyping a frame from a range
  that reaches the top of the address space does (src/object.rs:286): `Failure.RetypePanicsIff` says
  exactly when, and `Witnesses.RetypeCanPanic` is a case.
- `lookup_cap` reports `InvalidCapability`, not `FailedLookup`, for a CPtr out of range
  (src/state.rs:139-147).
- `send` and `signal` only make the receiver ready; they do not switch to it as a comment says
  (src/state.rs:64-66).

## Left out

- The Sv39 page-table walk and the PTE encoding: they belong to `lantern_hal`, which is not part
  of this model; a walk enters as the number of tables it takes. That a walk takes no more pages
  than it is offered is its contract, and a larger number is read as the number offered.
- Page contents and the agreement of page tables with `mapped_at`: the outcome depends on the walk.
- `activate_address_space`, `enter_thread` and the trap assembly: no effect on the modelled state.
- The global `UnsafeCell` and `kernel_trap_handler`: the state is passed explicitly.
- The 16-bit width of object ids: every pool is far smaller, so no index is truncated.
- Pool capacities are the constants of src/limits.rs; the arena is a base address and an offset.
- Machine.KernelState: the queues stored by value in endpoints and notifications are sequences in
  the array cells; only the ready queue is the ring buffer itself.
- Machine.KernelPageTables.Alloc: does not say that the page is zero, because page contents are not
  modelled; `CleanPages.AllocatedPageIsClean` says that nothing has written to it.
- `Revoke`: always refused by the code, and so by the model.
- Scheduling budget and period: stored, never consulted.
- `Capability::object_type`, `PermFlags`, error-code tables: single-branch facts without a theorem.
- The boot loader: `Booted.Seed` is a kernel with one node, one thread and one Untyped; other objects
  it puts into the pools directly are part of the initial state, which is any well-formed kernel.
- Boot.NeverStranded: covers boot code that acts through the administrative handlers.
- Totality.NoTrapPanics: the invariant asks that Untyped ranges end a megapage below the top of the
  address space, because the cursor arithmetic of the source can overflow there;
  `Failure.RetypePanicsIff` says exactly when a retype panics without it.
