/** What a call takes and what it is good for, in so many words: the capability and the right it needs,
    the exact condition under which it succeeds, and what comes of it. `Designated(k, t, p)` is the
    content of slot `p` of the CSpace of thread `t`. */
module Permissions {
  import opened Limits
  import opened Words
  import opened Wrappers
  import opened Capabilities
  import opened Objects
  import opened State
  import opened Invariants
  import opened Syscalls
  import opened Designation
  import opened IpcRefusals
  import opened AdminRefusals
  import CNodes
  import Failure
  import Frames
  import Rendezvous
  import Traps

  predicate Succeeds(k: Kernel, tr: Trap)
    requires k.current.Some?
  {
    Handle(k, k.current.value, tr).status.Ok?
  }

  /** The call ends with this error and leaves the kernel as it was. */
  predicate Refused(k: Kernel, tr: Trap, e: SyscallError)
    requires k.current.Some?
  {
    Handle(k, k.current.value, tr).status == Err(e) && Step(k, tr) == k
  }

  // ------------------------------------------------------------------------ endpoints

  predicate Sends(n: Word) {
    n == SEND || n == NB_SEND || n == CALL
  }

  /** The right a call on an endpoint needs. */
  function RightToUse(n: Word): Right {
    if n == RECV then Read else Write
  }

  /** Without the right, nothing is sent or received, whatever else the call says. */
  lemma EndpointTakesRight(k: Kernel, tr: Trap)
    requires Inv(k) && (Sends(tr.frame.syscall) || tr.frame.syscall == RECV)
    requires HasCSpace(k, k.current.value)
    ensures var c := Designated(k, k.current.value, tr.frame.mrs[0]);
            && (!c.EndpointCap? ==> Refused(k, tr, InvalidCapability))
            && (c.EndpointCap? && RightToUse(tr.frame.syscall) !in c.endpointRights ==>
                  Refused(k, tr, IllegalOperation))
  {
    var (cur, f) := (k.current.value, tr.frame);
    hide Handle;
    hide WellFormed;
    Traps.StatusIsExact(k, tr);
    var r := EndpointRefusal(k, cur, f.mrs[0], RightToUse(f.syscall));
    if r.Some? {
      assert Traps.RefusalOf(k, cur, tr) == r;
      Unchanged(k, tr, r.value);
    }
  }

  /** A refused call changes nothing, unless it is one that allocates. */
  lemma Unchanged(k: Kernel, tr: Trap, e: SyscallError)
    requires Inv(k) && tr.frame.syscall != UNTYPED_RETYPE && tr.frame.syscall != FRAME_INVOKE
    requires Handle(k, k.current.value, tr).status == Err(e)
    ensures Refused(k, tr, e)
  {
    hide Handle;
    hide WellFormed;
    Failure.FailureIsClean(k, tr, e);
  }

  /** Success is the absence of a refusal, and then the call has its effect. */
  lemma SuccessIsDone(k: Kernel, tr: Trap)
    requires Inv(k)
    ensures var (cur, (k', f')) := (k.current.value, Dispatch(k, tr));
            && (Succeeds(k, tr) <==> Traps.RefusalOf(k, cur, tr).None?)
            && (Succeeds(k, tr) ==> Traps.Done(k, cur, tr, Outcome(k', f', Ok)))
  {
    hide Handle;
    hide WellFormed;
    hide Traps.RefusalOf;
    hide Traps.Done;
    Traps.HandlerIsExact(k, tr);
  }

  lemma RunningIsNotReady(k: Kernel)
    requires Inv(k)
    ensures k.current.value !in k.ready
  {
    NotIn(k, ReadyQueue, k.current.value);
  }

  predicate WaitsToSend(s: ThreadState, e: EndpointId, badge: Word, isCall: bool) {
    s.BlockedSend? && s.sendEndpoint == e && s.badge == badge && s.isCall == isCall
  }

  /** What the use of endpoint capability `c` comes to for a sender: its badge is what the first receiver
      reads, or what the sender waits with. */
  ghost predicate SentThrough(k: Kernel, k': Kernel, n: Word, c: Capability)
    requires c.EndpointCap? && k.current.Some?
  {
    var (cur, q) := (k.current.value, QueueAt(k, Receivers(c.endpoint)));
    if q != [] then
      && q[0] in k'.tcbs && k'.tcbs[q[0]].context.Mr(0) == c.badge
      && k'.tcbs[q[0]].state == (if n == CALL then Running else Ready)
    else if n == NB_SEND then k' == k
    else cur in k'.tcbs && WaitsToSend(k'.tcbs[cur].state, c.endpoint, c.badge, n == CALL)
  }

  /** Who sends holds a capability with Write for the endpoint it sends to, and sends the badge of that
      capability. */
  lemma SendingTakesWrite(k: Kernel, tr: Trap)
    requires Inv(k) && Sends(tr.frame.syscall) && Succeeds(k, tr)
    ensures var c := Designated(k, k.current.value, tr.frame.mrs[0]);
            && HasCSpace(k, k.current.value)
            && c.EndpointCap? && Write in c.endpointRights && c.endpoint in k.endpoints
            && SentThrough(k, Step(k, tr), tr.frame.syscall, c)
  {
    hide Handle;
    hide WellFormed;
    hide SentThrough;
    SuccessIsDone(k, tr);
    hide Traps.Done;
    hide Dispatch;
    hide DeliveryRefusal;
    if tr.frame.syscall == CALL { CallIsThrough(k, tr); } else { SendIsThrough(k, tr); }
  }

  lemma CallIsThrough(k: Kernel, tr: Trap)
    requires Inv(k) && tr.frame.syscall == CALL && Succeeds(k, tr)
    ensures var c := Designated(k, k.current.value, tr.frame.mrs[0]);
            c.EndpointCap? && SentThrough(k, Step(k, tr), CALL, c)
  {
    hide Handle;
    hide WellFormed;
    SuccessIsDone(k, tr);
    hide Dispatch;
    hide CallRefusal;
    RunningIsNotReady(k);
    hide Designated;
    hide Rendezvous.Landed;
  }

  lemma SendIsThrough(k: Kernel, tr: Trap)
    requires Inv(k) && (tr.frame.syscall == SEND || tr.frame.syscall == NB_SEND) && Succeeds(k, tr)
    ensures var c := Designated(k, k.current.value, tr.frame.mrs[0]);
            c.EndpointCap? && SentThrough(k, Step(k, tr), tr.frame.syscall, c)
  {
    hide Handle;
    hide WellFormed;
    SuccessIsDone(k, tr);
    hide Dispatch;
    hide SendRefusal;
    RunningIsNotReady(k);
    hide Designated;
    hide Rendezvous.Landed;
  }

  /** Who receives holds a capability for an endpoint with Read, and gets the message of the first sender
      of that endpoint, or waits at it. */
  lemma ReceivingTakesRead(k: Kernel, tr: Trap)
    requires Inv(k) && tr.frame.syscall == RECV && Succeeds(k, tr)
    ensures var (cur, (k', f')) := (k.current.value, Dispatch(k, tr));
            && HasCSpace(k, cur)
            && var c := Designated(k, cur, tr.frame.mrs[0]);
               && c.EndpointCap? && Read in c.endpointRights && c.endpoint in k.endpoints
               && var q := QueueAt(k, Senders(c.endpoint));
                  if q != [] then
                    && q[0] in k.tcbs && k.tcbs[q[0]].state.BlockedSend? && f'.Mr(0) == k.tcbs[q[0]].state.badge
                    && QueueAt(k', Senders(c.endpoint)) == q[1..]
                  else
                    && cur in k'.tcbs && k'.tcbs[cur].state.BlockedRecv?
                    && k'.tcbs[cur].state.recvEndpoint == c.endpoint
  {
    hide Handle;
    hide WellFormed;
    SuccessIsDone(k, tr);
    RunningIsNotReady(k);
    hide Designated;
    hide Rendezvous.Landed;
    hide LandRefusal;
  }

  // ---------------------------------------------------------------------------- reply

  /** The thread `t` waits for a reply and has named an empty slot of its CSpace for a capability. */
  predicate HasRoomForReply(k: Kernel, t: TcbId) {
    && t in k.tcbs && k.tcbs[t].state.BlockedReply? && k.tcbs[t].state.destSlot.Some?
    && HasCSpace(k, t) && k.tcbs[t].state.destSlot.value < CNODE_SLOTS
    && k.cnodes[k.tcbs[t].cspace.value][k.tcbs[t].state.destSlot.value] == Null
  }

  lemma CallerWaits(k: Kernel)
    requires Inv(k)
    ensures forall t | Owes(k, k.current.value, t) :: t in k.tcbs && k.tcbs[t].state.BlockedReply?
    ensures var cur := k.current.value;
            cur in k.tcbs && k.tcbs[cur].replyTo.Some? ==> Owes(k, cur, k.tcbs[cur].replyTo.value)
  {
    hide Placed;
    hide PoolsBounded;
  }

  lemma ReplySucceedsIff(k: Kernel, tr: Trap)
    requires Inv(k) && tr.frame.syscall == REPLY
    ensures var (cur, tag) := (k.current.value, tr.frame.tag);
            Succeeds(k, tr) <==>
              && tag.length == 0 && tag.extraCaps <= 1
              && cur in k.tcbs && k.tcbs[cur].replyTo.Some?
              && (tag.extraCaps == 1 ==>
                    && Grant in Designated(k, cur, tr.frame.mrs[1]).Rights()
                    && HasRoomForReply(k, k.tcbs[cur].replyTo.value))
  {
    hide Handle;
    hide WellFormed;
    hide Dispatch;
    SuccessIsDone(k, tr);
    hide Traps.Done;
    CallerWaits(k);
  }

  /** A plain reply always reaches the caller it is owed to: the caller runs, with the payload. */
  lemma DebtorCanAnswer(k: Kernel, tr: Trap, t: TcbId)
    requires Inv(k) && tr.frame.syscall == REPLY && tr.frame.tag.length == 0 && tr.frame.tag.extraCaps == 0
    requires k.current.value in k.tcbs && k.tcbs[k.current.value].replyTo == Some(t)
    ensures var (k', f') := Dispatch(k, tr);
            && Succeeds(k, tr) && k'.current == Some(t) && t in k'.tcbs && k'.tcbs[t].state == Running
            && f'.mrs == [0, tr.frame.mrs[1], tr.frame.mrs[2], tr.frame.mrs[3]] && f'.tag == tr.frame.tag
            && k'.tcbs[k.current.value].replyTo == None
  {
    hide Handle;
    hide WellFormed;
    SuccessIsDone(k, tr);
    hide Dispatch;
  }

  // -------------------------------------------------------------------- notifications

  /** Slot mr0 holds a capability for a notification that exists, with this right. */
  predicate NamesNotification(k: Kernel, cur: TcbId, f: Context, right: Right) {
    var c := Designated(k, cur, f.mrs[0]);
    c.NotificationCap? && right in c.notificationRights && c.notification in k.notifications
  }

  /** Signalling takes Write and nothing else; the bits of the badge in the slot go to the first waiter
      together with those pending, or become pending. */
  lemma SignalSucceedsIff(k: Kernel, tr: Trap)
    requires Inv(k) && tr.frame.syscall == SIGNAL
    ensures var (cur, k') := (k.current.value, Step(k, tr));
            && (Succeeds(k, tr) <==> NamesNotification(k, cur, tr.frame, Write))
            && (Succeeds(k, tr) ==>
                  var c := Designated(k, cur, tr.frame.mrs[0]);
                  var Notification(signals, q) := k.notifications[c.notification];
                  && c.notification in k'.notifications
                  && if q != [] then
                       && q[0] in k'.tcbs && k'.tcbs[q[0]].state == Ready
                       && k'.tcbs[q[0]].context.Mr(0) == Or(signals, c.badge)
                       && k'.notifications[c.notification] == Notification(0, q[1..])
                     else k'.notifications[c.notification] == Notification(Or(signals, c.badge), []))
  {
    hide Handle;
    hide WellFormed;
    hide Or;
    SuccessIsDone(k, tr);
    hide Dispatch;
    hide Designated;
  }

  /** Taking signals takes Read; a `Wait` also needs pending bits or another thread to run. */
  lemma TakingSucceedsIff(k: Kernel, tr: Trap)
    requires Inv(k) && (tr.frame.syscall == WAIT || tr.frame.syscall == POLL)
    ensures var (cur, (k', f')) := (k.current.value, Dispatch(k, tr));
            var (c, named) := (Designated(k, cur, tr.frame.mrs[0]), NamesNotification(k, cur, tr.frame, Read));
            && (named ==>
                  var signals := k.notifications[c.notification].signals;
                  && (Succeeds(k, tr) <==> tr.frame.syscall == POLL || signals != 0 || k.ready != [])
                  && (Succeeds(k, tr) && (tr.frame.syscall == POLL || signals != 0) ==> f'.Mr(0) == signals))
            && (!named ==> !Succeeds(k, tr))
  {
    hide Handle;
    hide WellFormed;
    SuccessIsDone(k, tr);
    hide Dispatch;
    hide Designated;
  }

  /** Without the right, no signal is given or taken. */
  lemma NotificationTakesRight(k: Kernel, tr: Trap)
    requires Inv(k) && HasCSpace(k, k.current.value)
    requires var n := tr.frame.syscall; n == SIGNAL || n == WAIT || n == POLL
    ensures var (c, right) :=
              (Designated(k, k.current.value, tr.frame.mrs[0]), if tr.frame.syscall == SIGNAL then Write else Read);
            && (!c.NotificationCap? ==> Refused(k, tr, InvalidCapability))
            && (c.NotificationCap? && right !in c.notificationRights ==> Refused(k, tr, IllegalOperation))
  {
    var (cur, f) := (k.current.value, tr.frame);
    hide Handle;
    hide WellFormed;
    Traps.StatusIsExact(k, tr);
    var r := NotificationRefusal(k, cur, f.mrs[0], if f.syscall == SIGNAL then Write else Read);
    if r.Some? {
      assert Traps.RefusalOf(k, cur, tr) == r;
      Unchanged(k, tr, r.value);
    }
  }

  // -------------------------------------------------------------------- administration

  /** The slot of the node exists and is empty. */
  predicate CanFill(k: Kernel, n: CNodeId, s: Word) {
    n in k.cnodes && s < CNODE_SLOTS && k.cnodes[n][s] == Null
  }

  predicate CanRead(k: Kernel, n: CNodeId, s: Word) {
    n in k.cnodes && s < CNODE_SLOTS && k.cnodes[n][s] != Null
  }

  /** A cross copy puts what is in slot mr2 of the node that slot mr1 names, badge and rights included,
      into slot mr3 of the node that slot mr0 names; a copy does so within one node. */
  lemma CopySucceedsIff(k: Kernel, tr: Trap)
    requires Inv(k) && tr.frame.syscall == CNODE_INVOKE
    requires tr.frame.tag.labelId == CNodes.LABEL_COPY || tr.frame.tag.labelId == CNodes.LABEL_COPY_CROSS
    ensures var (cur, mrs, k') := (k.current.value, tr.frame.mrs, Step(k, tr));
            var (cross, target) := (tr.frame.tag.labelId == CNodes.LABEL_COPY_CROSS, Designated(k, cur, mrs[0]));
            var source := if cross then Designated(k, cur, mrs[1]) else target;
            var (src, dest) := if cross then (mrs[2], mrs[3]) else (mrs[1], mrs[2]);
            && (Succeeds(k, tr) <==>
                  && target.CNodeCap? && source.CNodeCap?
                  && CanRead(k, source.cnode, src) && CanFill(k, target.cnode, dest))
            && (Succeeds(k, tr) ==>
                  var t := target.cnode;
                  k' == k.(cnodes := k.cnodes[t := k.cnodes[t][dest := k.cnodes[source.cnode][src]]]))
  {
    hide Handle;
    hide WellFormed;
    SuccessIsDone(k, tr);
    hide Dispatch;
    hide Designated;
  }

  /** Minting takes a capability of a kind that has rights, and all rights requested. */
  lemma MintSucceedsIff(k: Kernel, tr: Trap)
    requires Inv(k) && tr.frame.syscall == CNODE_INVOKE && tr.frame.tag.labelId == CNodes.LABEL_MINT
    ensures var (target, mrs) := (Designated(k, k.current.value, tr.frame.mrs[0]), tr.frame.mrs);
            Succeeds(k, tr) <==>
              && target.CNodeCap? && CanRead(k, target.cnode, mrs[1]) && CanFill(k, target.cnode, mrs[2])
              && !HasNoRights(k.cnodes[target.cnode][mrs[1]])
              && forall r :: Requests(mrs[3], r) ==> r in k.cnodes[target.cnode][mrs[1]].Rights()
  {
    hide Handle;
    hide WellFormed;
    SuccessIsDone(k, tr);
    hide Traps.Done;
    hide Dispatch;
    hide Designated;
    hide Requests;
  }

  /** Configuring a thread takes Write on it and on its address space, a node and a scheduling context. */
  lemma ConfigureSucceedsIff(k: Kernel, tr: Trap)
    requires Inv(k) && tr.frame.syscall == TCB_CONFIGURE
    ensures var (cur, mrs, k') := (k.current.value, tr.frame.mrs, Step(k, tr));
            var (thread, node) := (Designated(k, cur, mrs[0]), Designated(k, cur, mrs[1]));
            var (sched, space) := (Designated(k, cur, mrs[2]), Designated(k, cur, mrs[3]));
            && (Succeeds(k, tr) <==>
                  && thread.TcbCap? && Write in thread.tcbRights && thread.tcb in k.tcbs
                  && node.CNodeCap? && sched.SchedContextCap?
                  && (mrs[3] != 0 ==> space.VSpaceCap? && Write in space.vspaceRights && space.vspace in k.vspaces))
            && (Succeeds(k, tr) ==>
                  && thread.tcb in k'.tcbs
                  && k'.tcbs[thread.tcb].cspace == Some(node.cnode)
                  && k'.tcbs[thread.tcb].schedContext == Some(sched.sched)
                  && k'.tcbs[thread.tcb].addressSpace
                       == if mrs[3] == 0 then None else Some(k.vspaces[space.vspace].root))
  {
    hide Handle;
    hide WellFormed;
    SuccessIsDone(k, tr);
    hide Dispatch;
    hide Designated;
  }

  /** Mapping takes Write on the frame and on the address space, an aligned address where nothing is
      translated, a mapping slot of the frame, and pages for the tables. */
  lemma MapSucceedsIff(k: Kernel, tr: Trap)
    requires Inv(k) && tr.frame.syscall == FRAME_INVOKE && tr.frame.tag.labelId == Frames.LABEL_MAP
    ensures var (cur, mrs) := (k.current.value, tr.frame.mrs);
            var (frame, space) := (Designated(k, cur, mrs[0]), Designated(k, cur, mrs[1]));
            Succeeds(k, tr) <==>
              && frame.FrameCap? && Write in frame.frameRights && frame.frame in k.frames
              && space.VSpaceCap? && Write in space.vspaceRights && space.vspace in k.vspaces
              && !tr.walk.translated
              && var fr := k.frames[frame.frame];
                 && (fr.mappedAt[0].None? || fr.mappedAt[1].None?)
                 && mrs[2] % fr.size.Bytes() == 0
                 && k.pageTables.next + SparesFor(fr.size) * PAGE_SIZE <= MAX_KERNEL_PAGE_TABLES * PAGE_SIZE
  {
    hide Handle;
    hide WellFormed;
    SuccessIsDone(k, tr);
    hide Traps.Done;
    hide Dispatch;
    hide Designated;
  }

  /** Retyping takes Write on an Untyped with budget left, an empty slot, and room for the object. */
  lemma RetypeSucceedsIff(k: Kernel, tr: Trap)
    requires Inv(k) && tr.frame.syscall == UNTYPED_RETYPE
    ensures var (cur, mrs) := (k.current.value, tr.frame.mrs);
            var untyped := Designated(k, cur, mrs[0]);
            Succeeds(k, tr) <==>
              && untyped.UntypedCap? && Write in untyped.untypedRights && untyped.untyped in k.untypeds
              && k.untypeds[untyped.untyped].remaining > 0
              && mrs[2] < CNODE_SLOTS && Designated(k, cur, mrs[2]) == Null
              && ObjectRefusal(k, k.untypeds[untyped.untyped], mrs[1]) == None
  {
    hide Handle;
    hide WellFormed;
    SuccessIsDone(k, tr);
    hide Traps.Done;
    hide Dispatch;
    hide Designated;
    hide RoomRefusal;
    hide RangeRefusal;
  }

  // ------------------------------------------------------------------------------ yield

  /** `Yield` always succeeds: the caller goes behind the ready threads and the first of them runs. */
  lemma YieldRotates(k: Kernel, tr: Trap)
    requires Inv(k) && tr.frame.syscall == YIELD
    ensures var (cur, k') := (k.current.value, Step(k, tr));
            && Succeeds(k, tr)
            && k'.current == Some((k.ready + [cur])[0]) && k'.ready == (k.ready + [cur])[1..]
            && k'.cnodes == k.cnodes && k'.notifications == k.notifications
  {
    hide Handle;
    hide WellFormed;
    SuccessIsDone(k, tr);
    hide Dispatch;
  }
}
