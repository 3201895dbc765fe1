/** The IPC fast path as it runs, on the mutable kernel state and trap frame (src/ipc.rs). Each
    method does what its step function in `Ipc` says, wherever that does not panic; under the
    invariant it never does. */
module IpcMachine {
  import opened Limits
  import opened Words
  import opened Wrappers
  import opened Capabilities
  import opened Objects
  import opened TrapFrames
  import opened State
  import opened Machine
  import Ipc
  import IpcEffects
  import IpcRefusals
  import opened Designation
  import opened Invariants

  /** How a handler's result appears in an `Outcome`. */
  function StatusOf(r: Result<(), SyscallError>): Status {
    match r
    case Success(_) => Ok
    case Failure(e) => Err(e)
  }

  // ---------------------------------------------------------------- decoding

  method ResolveTransferableCap(state: KernelState, thread: TcbId, cptr: CPtr)
    returns (r: Result<Capability, SyscallError>)
    requires state.Valid()
    ensures r == Ipc.ResolveTransferableCap(state.Model(), thread, cptr)
  {
    hide KernelState.Valid;
    hide KernelState.Model;
    var cap :- state.LookupCap(thread, cptr);
    if Grant !in cap.Rights() {
      return Failure(IllegalOperation);
    }
    r := Success(cap);
  }

  method ExtractExtraCap(state: KernelState, current: TcbId, frame: TrapFrame)
    returns (r: Result<Option<Capability>, SyscallError>)
    requires state.Valid() && frame.Valid()
    ensures r == Ipc.ExtractExtraCap(state.Model(), current, frame.View())
  {
    hide KernelState.Valid;
    hide KernelState.Model;
    if frame.tag.extraCaps == 1 {
      var cap :- ResolveTransferableCap(state, current, frame.mrs[1]);
      r := Success(Some(cap));
    } else {
      r := Success(None);
    }
  }

  method ResolveEndpoint(state: KernelState, current: TcbId, cptr: CPtr, required: Rights)
    returns (r: Result<Ipc.EndpointTarget, SyscallError>)
    requires state.Valid()
    ensures r == Ipc.ResolveEndpoint(state.Model(), current, cptr, required)
    ensures var (k, c) := (state.Model(), Designated(state.Model(), current, cptr));
            r == if !HasCSpace(k, current) then Failure(FailedLookup)
                 else if !c.EndpointCap? then Failure(InvalidCapability)
                 else if required <= c.endpointRights then Success(Ipc.EndpointTarget(c.endpoint, c.badge))
                 else Failure(IllegalOperation)
  {
    hide KernelState.Valid;
    hide KernelState.Model;
    LookupFindsDesignated(state.Model(), current, cptr);
    var cap :- state.LookupCap(current, cptr);
    match cap
    case EndpointCap(id, badge, rights) =>
      r := if required <= rights then Success(Ipc.EndpointTarget(id, badge)) else Failure(IllegalOperation);
    case _ =>
      r := Failure(InvalidCapability);
  }

  method ResolveNotification(state: KernelState, current: TcbId, cptr: CPtr, required: Rights)
    returns (r: Result<Ipc.NotificationTarget, SyscallError>)
    requires state.Valid()
    ensures r == Ipc.ResolveNotification(state.Model(), current, cptr, required)
    ensures var (k, c) := (state.Model(), Designated(state.Model(), current, cptr));
            r == if !HasCSpace(k, current) then Failure(FailedLookup)
                 else if !c.NotificationCap? then Failure(InvalidCapability)
                 else if required <= c.notificationRights then Success(Ipc.NotificationTarget(c.notification, c.badge))
                 else Failure(IllegalOperation)
  {
    hide KernelState.Valid;
    hide KernelState.Model;
    LookupFindsDesignated(state.Model(), current, cptr);
    var cap :- state.LookupCap(current, cptr);
    match cap
    case NotificationCap(id, badge, rights) =>
      r := if required <= rights then Success(Ipc.NotificationTarget(id, badge)) else Failure(IllegalOperation);
    case _ =>
      r := Failure(InvalidCapability);
  }

  // --------------------------------------------------------------- transfers

  method PlaceTransferredCap(state: KernelState, receiver: TcbId, dest: CPtr, cap: Capability)
    returns (r: Result<(), SyscallError>)
    requires state.Valid()
    modifies state.Repr
    ensures state.Valid()
    ensures var spec := Ipc.PlaceTransferredCap(old(state.Model()), receiver, dest, cap);
            if spec.Success? then r == Success(()) && state.Model() == spec.value
            else r == Failure(spec.error) && state.Model() == old(state.Model())
  {
    hide KernelState.Valid;
    hide KernelState.Model;
    var tcb := state.GetTcb(receiver);
    if tcb.None? || tcb.value.cspace.None? {
      return Failure(FailedLookup);
    }
    var n := tcb.value.cspace.value;
    var cnode := state.GetCNode(n);
    if cnode.None? {
      return Failure(FailedLookup);
    }
    if dest >= CNODE_SLOTS {
      return Failure(RangeError);
    }
    if cnode.value[dest] != Null {
      return Failure(IllegalOperation);
    }
    state.SetSlot(n, dest, cap);
    r := Success(());
  }

  /** Places an attached capability, if there is one, in the registered slot. */
  method Transfer(state: KernelState, receiver: TcbId, dest: Option<CPtr>, extra: Option<Capability>)
    returns (r: Result<(), SyscallError>)
    requires state.Valid()
    modifies state.Repr
    ensures state.Valid()
    ensures var spec := Ipc.Transfer(old(state.Model()), receiver, dest, extra);
            if spec.Success? then r == Success(()) && state.Model() == spec.value
            else r == Failure(spec.error) && state.Model() == old(state.Model())
  {
    hide KernelState.Valid;
    hide KernelState.Model;
    if extra.None? {
      return Success(());
    }
    if dest.None? {
      return Failure(IllegalOperation);
    }
    r := PlaceTransferredCap(state, receiver, dest.value, extra.value);
  }

  method BlockedReceiverDestSlot(state: KernelState, t: TcbId) returns (dest: Option<CPtr>)
    requires state.Valid()
    ensures dest == Ipc.BlockedReceiverDestSlot(state.Model(), t)
  {
    hide KernelState.Valid;
    hide KernelState.Model;
    var tcb := state.GetTcb(t);
    if tcb.Some? && tcb.value.state.BlockedRecv? {
      dest := tcb.value.state.recvDestSlot;
    } else {
      dest := None;
    }
  }

  method BlockedCallerReplyDestSlot(state: KernelState, t: TcbId) returns (dest: Option<CPtr>)
    requires state.Valid()
    ensures dest == Ipc.BlockedCallerReplyDestSlot(state.Model(), t)
  {
    hide KernelState.Valid;
    hide KernelState.Model;
    var tcb := state.GetTcb(t);
    if tcb.Some? && tcb.value.state.BlockedReply? {
      dest := tcb.value.state.destSlot;
    } else {
      dest := None;
    }
  }

  method SetEndpointQueue(state: KernelState, id: EndpointId, queue: EndpointQueue)
    requires state.Valid()
    modifies state.Repr
    ensures state.Valid() && state.Model() == Ipc.SetEndpointQueue(old(state.Model()), id, queue)
    ensures state.Model().ready == old(state.Model()).ready
  {
    hide KernelState.Valid;
    hide KernelState.Model;
    state.PutEndpoint(id, Endpoint(queue));
  }

  method SetSignals(state: KernelState, id: NotificationId, signals: Word, waiters: seq<TcbId>)
    requires state.Valid()
    modifies state.Repr
    ensures state.Valid() && state.Model() == Ipc.SetSignals(old(state.Model()), id, signals, waiters)
  {
    hide KernelState.Valid;
    hide KernelState.Model;
    state.PutNotification(id, Notification(signals, waiters));
  }

  /** Writes a message into the saved registers of a thread. */
  method DeliverPayload(state: KernelState, t: TcbId, badge: Word, p: Payload, tag: MessageTag)
    requires state.Valid()
    modifies state.Repr
    ensures state.Valid() && state.Model() == Ipc.DeliverPayload(old(state.Model()), t, badge, p, tag)
  {
    hide KernelState.Valid;
    hide KernelState.Model;
    var tcb := state.GetTcb(t);
    if tcb.Some? {
      var c := tcb.value.context;
      c := c.SetMr(0, badge);
      c := c.SetMr(1, p.mr1);
      c := c.SetMr(2, p.mr2);
      c := c.SetMr(3, p.mr3);
      c := c.(tag := tag);
      assert c.mrs == [badge, p.mr1, p.mr2, p.mr3];
      state.SetContext(t, c);
    }
  }

  // ------------------------------------------------------------------- Send, Call

  /** The transfer is validated and done before the receiver leaves the queue. */
  method DeliverToReceiver(state: KernelState, m: Ipc.Message, tag: MessageTag, waiters: seq<TcbId>)
    returns (r: Result<(), SyscallError>)
    requires state.Valid() && waiters != []
    modifies state.Repr
    ensures state.Valid()
    ensures var spec := Ipc.DeliverToReceiver(old(state.Model()), m, tag, waiters);
            if spec.Success? then r == Success(()) && state.Model() == spec.value
            else r == Failure(spec.error) && state.Model() == old(state.Model())
  {
    hide KernelState.Valid;
    hide KernelState.Model;
    var receiver := waiters[0];
    var dest := BlockedReceiverDestSlot(state, receiver);
    var _ :- Transfer(state, receiver, dest, m.extraCap);
    SetEndpointQueue(state, m.endpoint, Ipc.Normalize(RecvQueue(waiters[1..])));
    DeliverPayload(state, receiver, m.badge, m.payload, tag);
    r := Success(());
  }

  /** The running thread blocks, and the next ready thread runs; some thread is ready. */
  method Park(state: KernelState, frame: TrapFrame, current: TcbId, s: ThreadState)
    requires state.Valid() && frame.Valid() && frame.Repr !! state.Repr && state.Model().ready != []
    modifies state.Repr, frame.Repr
    ensures state.Valid()
    ensures Outcome(state.Model(), frame.View(), Ok)
         == Ipc.Park(State.SetState(old(state.Model()), current, s), old(frame.View()))
  {
    hide KernelState.Valid;
    hide KernelState.Model;
    hide State.BlockCurrent;
    state.SetState(current, s);
    var switched := state.BlockCurrent(frame);
    assert switched;
  }

  method BlockSender(state: KernelState, current: TcbId, frame: TrapFrame, m: Ipc.Message, isCall: bool)
    returns (r: Result<(), SyscallError>)
    requires state.Valid() && frame.Valid() && frame.Repr !! state.Repr
    requires m.endpoint in state.Model().endpoints && !state.Model().endpoints[m.endpoint].queue.RecvQueue?
    modifies state.Repr, frame.Repr
    ensures state.Valid()
    ensures Outcome(state.Model(), frame.View(), StatusOf(r))
         == Ipc.BlockSender(old(state.Model()), current, old(frame.View()), m, isCall)
  {
    hide KernelState.Valid;
    hide KernelState.Model;
    hide Ipc.Park;
    hide Ipc.SetEndpointQueue;
    hide State.SetState;
    var some := state.HasReady();
    if !some {
      return Failure(Timeout);
    }
    var endpoint := state.GetEndpoint(m.endpoint);
    var queue := endpoint.value.queue;
    var q := if queue.SendQueue? then queue.senders else [];
    if !HasRoom(q) {
      return Failure(NotEnoughMemory);
    }
    SetEndpointQueue(state, m.endpoint, SendQueue(PushBack(q, current)));
    Park(state, frame, current, BlockedSend(m.endpoint, m.badge, isCall, m.extraCap, m.replyDestSlot));
    r := Success(());
  }

  method DecodeSend(state: KernelState, current: TcbId, cptr: CPtr, frame: TrapFrame)
    returns (r: Result<Ipc.Message, SyscallError>)
    requires state.Valid() && frame.Valid()
    ensures r == Ipc.DecodeSend(state.Model(), current, cptr, frame.View())
  {
    hide KernelState.Valid;
    hide KernelState.Model;
    var to :- ResolveEndpoint(state, current, cptr, {Write});
    if !FastPathOnly(frame.tag) {
      return Failure(TruncatedMessage);
    }
    var extra :- ExtractExtraCap(state, current, frame);
    var endpoint := state.GetEndpoint(to.endpoint);
    if endpoint.None? {
      return Failure(InvalidCapability);
    }
    var payload := Payload(if extra.Some? then 0 else frame.mrs[1], frame.mrs[2], frame.mrs[3]);
    r := Success(Ipc.Message(to.endpoint, to.badge, extra, None, payload));
  }

  /** The receiver gets the message and is ready; the sender goes on. */
  method SendToReceiver(state: KernelState, frame: TrapFrame, m: Ipc.Message, waiters: seq<TcbId>)
    returns (r: Result<(), SyscallError>)
    requires state.Valid() && frame.Valid() && frame.Repr !! state.Repr && waiters != []
    modifies state.Repr, frame.Repr
    ensures state.Valid()
    ensures var spec := Ipc.DeliverToReceiver(old(state.Model()), m, old(frame.View()).tag, waiters);
            if spec.Success? then
              && r == Success(()) && state.Model() == State.MakeReady(spec.value, waiters[0])
              && frame.View() == ReplySuccess(old(frame.View()))
            else
              && r == Failure(spec.error) && state.Model() == old(state.Model())
              && frame.View() == old(frame.View())
  {
    hide KernelState.Valid;
    hide KernelState.Model;
    hide Ipc.DeliverToReceiver;
    hide State.MakeReady;
    var _ :- DeliverToReceiver(state, m, frame.tag, waiters);
    state.MakeReady(waiters[0]);
    frame.Succeed();
    r := Success(());
  }

  method Send(state: KernelState, current: TcbId, cptr: CPtr, frame: TrapFrame, nonblocking: bool)
    returns (r: Result<(), SyscallError>)
    requires state.Valid() && frame.Valid() && frame.Repr !! state.Repr
    requires !Ipc.Send(state.Model(), current, cptr, frame.View(), nonblocking).status.Panic?
    modifies state.Repr, frame.Repr
    ensures state.Valid()
    ensures Outcome(state.Model(), frame.View(), StatusOf(r))
         == Ipc.Send(old(state.Model()), current, cptr, old(frame.View()), nonblocking)
  {
    hide KernelState.Valid;
    hide KernelState.Model;
    hide Ipc.DecodeSend;
    hide Ipc.DeliverToReceiver;
    hide Ipc.BlockSender;
    hide State.MakeReady;
    var m :- DecodeSend(state, current, cptr, frame);
    var endpoint := state.GetEndpoint(m.endpoint);
    match endpoint.value.queue
    case RecvQueue(waiters) =>
      assert waiters != [];
      r := SendToReceiver(state, frame, m, waiters);
    case _ =>
      if nonblocking {
        frame.Succeed();
        r := Success(());
      } else {
        r := BlockSender(state, current, frame, m, false);
      }
  }

  method DecodeCall(state: KernelState, current: TcbId, cptr: CPtr, frame: TrapFrame)
    returns (r: Result<Ipc.Message, SyscallError>)
    requires state.Valid() && frame.Valid()
    ensures r == Ipc.DecodeCall(state.Model(), current, cptr, frame.View())
  {
    hide KernelState.Valid;
    hide KernelState.Model;
    var to :- ResolveEndpoint(state, current, cptr, {Write});
    if !CallTag(frame.tag) {
      return Failure(TruncatedMessage);
    }
    var extra :- ExtractExtraCap(state, current, frame);
    var slot := if frame.tag.extraCaps == 2 then Some(frame.mrs[1]) else None;
    var endpoint := state.GetEndpoint(to.endpoint);
    if endpoint.None? {
      return Failure(InvalidCapability);
    }
    var payload := Payload(if extra.Some? || slot.Some? then 0 else frame.mrs[1], frame.mrs[2], frame.mrs[3]);
    r := Success(Ipc.Message(to.endpoint, to.badge, extra, slot, payload));
  }

  /** The receiver owes the caller a reply, and runs. */
  method HandOver(state: KernelState, current: TcbId, frame: TrapFrame, receiver: TcbId, slot: Option<CPtr>)
    requires state.Valid() && frame.Valid() && frame.Repr !! state.Repr
    modifies state.Repr, frame.Repr
    ensures state.Valid()
    ensures Outcome(state.Model(), frame.View(), Ok)
         == Ipc.HandOver(old(state.Model()), current, old(frame.View()), receiver, slot)
  {
    hide KernelState.Valid;
    hide KernelState.Model;
    state.SetReplyTo(receiver, Some(current));
    state.SetState(current, BlockedReply(slot));
    state.SwitchTo(frame, receiver);
  }

  method Call(state: KernelState, current: TcbId, cptr: CPtr, frame: TrapFrame) returns (r: Result<(), SyscallError>)
    requires state.Valid() && frame.Valid() && frame.Repr !! state.Repr
    requires !Ipc.Call(state.Model(), current, cptr, frame.View()).status.Panic?
    modifies state.Repr, frame.Repr
    ensures state.Valid()
    ensures Outcome(state.Model(), frame.View(), StatusOf(r))
         == Ipc.Call(old(state.Model()), current, cptr, old(frame.View()))
  {
    hide KernelState.Valid;
    hide KernelState.Model;
    hide Ipc.DecodeCall;
    hide Ipc.DeliverToReceiver;
    hide Ipc.BlockSender;
    hide Ipc.HandOver;
    var m :- DecodeCall(state, current, cptr, frame);
    var endpoint := state.GetEndpoint(m.endpoint);
    match endpoint.value.queue
    case RecvQueue(waiters) =>
      assert waiters != [];
      var _ :- DeliverToReceiver(state, m, frame.tag, waiters);
      HandOver(state, current, frame, waiters[0], m.replyDestSlot);
      r := Success(());
    case _ =>
      r := BlockSender(state, current, frame, m, true);
  }

  // ------------------------------------------------------------------------- Recv

  method DecodeRecv(state: KernelState, current: TcbId, cptr: CPtr, frame: TrapFrame)
    returns (r: Result<Ipc.Reception, SyscallError>)
    requires state.Valid() && frame.Valid()
    ensures r == Ipc.DecodeRecv(state.Model(), current, cptr, frame.View())
  {
    hide KernelState.Valid;
    hide KernelState.Model;
    var from :- ResolveEndpoint(state, current, cptr, {Read});
    if !FastPathOnly(frame.tag) {
      return Failure(TruncatedMessage);
    }
    var endpoint := state.GetEndpoint(from.endpoint);
    if endpoint.None? {
      return Failure(InvalidCapability);
    }
    r := Success(Ipc.Reception(from.endpoint, if frame.tag.extraCaps == 1 then Some(frame.mrs[1]) else None));
  }

  /** After a `Call` the receiver owes the sender a reply; after a `Send` the sender is ready. */
  method ReleaseSender(state: KernelState, current: TcbId, id: EndpointId, waiters: seq<TcbId>,
                       isCall: bool, replySlot: Option<CPtr>)
    requires state.Valid() && waiters != []
    modifies state.Repr
    ensures state.Valid()
    ensures state.Model() == Ipc.ReleaseSender(old(state.Model()), current, id, waiters, isCall, replySlot)
  {
    hide KernelState.Valid;
    hide KernelState.Model;
    SetEndpointQueue(state, id, Ipc.Normalize(SendQueue(waiters[1..])));
    var sender := waiters[0];
    if isCall {
      state.SetReplyTo(current, Some(sender));
      state.SetState(sender, BlockedReply(replySlot));
    } else {
      state.MakeReady(sender);
    }
  }

  method ReceiveFromSender(state: KernelState, current: TcbId, frame: TrapFrame, id: EndpointId,
                           dest: Option<CPtr>, waiters: seq<TcbId>)
    returns (r: Result<(), SyscallError>)
    requires state.Valid() && frame.Valid() && frame.Repr !! state.Repr && waiters != []
    modifies state.Repr, frame.Repr
    ensures state.Valid()
    ensures Outcome(state.Model(), frame.View(), StatusOf(r))
         == Ipc.ReceiveFromSender(old(state.Model()), current, old(frame.View()), id, dest, waiters)
  {
    hide KernelState.Valid;
    hide KernelState.Model;
    hide Ipc.Transfer;
    hide Ipc.ReleaseSender;
    var sender := waiters[0];
    var blocked := state.GetTcb(sender);
    if blocked.None? {
      return Failure(FailedLookup);
    }
    var tcb := blocked.value;
    match tcb.state
    case BlockedSend(_, badge, isCall, extra, replySlot) =>
      IpcEffects.TransferTouchesSlotsOnly(state.Model(), current, dest, extra);
      var _ :- Transfer(state, current, dest, extra);
      var mr1 := if extra.Some? then 0 else tcb.context.Mr(1);
      frame.Deliver(badge, Payload(mr1, tcb.context.Mr(2), tcb.context.Mr(3)), tcb.context.tag);
      ReleaseSender(state, current, id, waiters, isCall, replySlot);
      r := Success(());
    case _ =>
      r := Failure(IllegalOperation);
  }

  method BlockReceiver(state: KernelState, current: TcbId, frame: TrapFrame, id: EndpointId, dest: Option<CPtr>)
    returns (r: Result<(), SyscallError>)
    requires state.Valid() && frame.Valid() && frame.Repr !! state.Repr
    requires id in state.Model().endpoints && !state.Model().endpoints[id].queue.SendQueue?
    modifies state.Repr, frame.Repr
    ensures state.Valid()
    ensures Outcome(state.Model(), frame.View(), StatusOf(r))
         == Ipc.BlockReceiver(old(state.Model()), current, old(frame.View()), id, dest)
  {
    hide KernelState.Valid;
    hide KernelState.Model;
    hide Ipc.Park;
    hide Ipc.SetEndpointQueue;
    hide State.SetState;
    var some := state.HasReady();
    if !some {
      return Failure(Timeout);
    }
    var endpoint := state.GetEndpoint(id);
    var queue := endpoint.value.queue;
    var q := if queue.RecvQueue? then queue.receivers else [];
    if !HasRoom(q) {
      return Failure(NotEnoughMemory);
    }
    SetEndpointQueue(state, id, RecvQueue(PushBack(q, current)));
    Park(state, frame, current, BlockedRecv(id, dest));
    r := Success(());
  }

  method Recv(state: KernelState, current: TcbId, cptr: CPtr, frame: TrapFrame) returns (r: Result<(), SyscallError>)
    requires state.Valid() && frame.Valid() && frame.Repr !! state.Repr
    requires !Ipc.Recv(state.Model(), current, cptr, frame.View()).status.Panic?
    modifies state.Repr, frame.Repr
    ensures state.Valid()
    ensures Outcome(state.Model(), frame.View(), StatusOf(r))
         == Ipc.Recv(old(state.Model()), current, cptr, old(frame.View()))
  {
    hide KernelState.Valid;
    hide KernelState.Model;
    var from :- DecodeRecv(state, current, cptr, frame);
    var endpoint := state.GetEndpoint(from.endpoint);
    match endpoint.value.queue
    case SendQueue(waiters) =>
      assert waiters != [];
      r := ReceiveFromSender(state, current, frame, from.endpoint, from.destSlot, waiters);
    case _ =>
      r := BlockReceiver(state, current, frame, from.endpoint, from.destSlot);
  }

  // ------------------------------------------------------------------------ Reply

  method DecodeReply(state: KernelState, current: TcbId, frame: TrapFrame)
    returns (r: Result<Ipc.Answer, SyscallError>)
    requires state.Valid() && frame.Valid()
    ensures r == Ipc.DecodeReply(state.Model(), current, frame.View())
  {
    hide KernelState.Valid;
    hide KernelState.Model;
    if !FastPathOnly(frame.tag) {
      return Failure(TruncatedMessage);
    }
    var extra :- ExtractExtraCap(state, current, frame);
    var tcb := state.GetTcb(current);
    if tcb.None? || tcb.value.replyTo.None? {
      return Failure(IllegalOperation);
    }
    var payload := Payload(if extra.Some? then 0 else frame.mrs[1], frame.mrs[2], frame.mrs[3]);
    r := Success(Ipc.Answer(tcb.value.replyTo.value, extra, payload));
  }

  method Reply(state: KernelState, current: TcbId, frame: TrapFrame) returns (r: Result<(), SyscallError>)
    requires state.Valid() && frame.Valid() && frame.Repr !! state.Repr
    modifies state.Repr, frame.Repr
    ensures state.Valid()
    ensures Outcome(state.Model(), frame.View(), StatusOf(r))
         == Ipc.Reply(old(state.Model()), current, old(frame.View()))
    ensures var k := old(state.Model());
            Inv(k) && k.current == Some(current) ==>
              StatusOf(r) == IpcRefusals.StatusOf(IpcRefusals.ReplyRefusal(k, current, old(frame.View())))
  {
    hide KernelState.Valid;
    hide KernelState.Model;
    hide WellFormed;
    hide IpcRefusals.ReplyRefusal;
    ghost var k := state.Model();
    if Inv(k) && k.current == Some(current) { IpcRefusals.ReplyStatus(k, frame.View()); }
    var answer :- DecodeReply(state, current, frame);
    var dest := BlockedCallerReplyDestSlot(state, answer.target);
    var _ :- Transfer(state, answer.target, dest, answer.extraCap);
    r := AnswerCaller(state, current, frame, answer.target, answer.payload);
  }

  /** The link is consumed first; the caller gets the message and runs, the replier is ready. */
  method AnswerCaller(state: KernelState, current: TcbId, frame: TrapFrame, target: TcbId, payload: Payload)
    returns (r: Result<(), SyscallError>)
    requires state.Valid() && frame.Valid() && frame.Repr !! state.Repr
    modifies state.Repr, frame.Repr
    ensures state.Valid()
    ensures Outcome(state.Model(), frame.View(), StatusOf(r))
         == Ipc.AnswerCaller(old(state.Model()), current, old(frame.View()), target, payload)
  {
    hide KernelState.Valid;
    hide KernelState.Model;
    state.SetReplyTo(current, None);
    var tcb := state.GetTcb(target);
    if tcb.None? {
      return Failure(IllegalOperation);
    }
    DeliverPayload(state, target, 0, payload, frame.tag);
    state.MakeReady(current);
    state.SwitchTo(frame, target);
    r := Success(());
  }

  // ---------------------------------------------------------------- notifications

  /** The head waiter becomes ready with all the bits there are. */
  method WakeWaiter(state: KernelState, id: NotificationId, badge: Word)
    requires state.Valid() && id in state.Model().notifications && state.Model().notifications[id].waiters != []
    modifies state.Repr
    ensures state.Valid() && state.Model() == Ipc.WakeWaiter(old(state.Model()), id, badge)
  {
    hide KernelState.Valid;
    hide KernelState.Model;
    var found := state.GetNotification(id);
    var notification := found.value;
    var waiter := notification.waiters[0];
    var delivered := Or(notification.signals, badge);
    SetSignals(state, id, 0, notification.waiters[1..]);
    var tcb := state.GetTcb(waiter);
    if tcb.Some? {
      state.SetContext(waiter, tcb.value.context.SetMr(0, delivered));
    }
    state.MakeReady(waiter);
  }

  method Signal(state: KernelState, current: TcbId, cptr: CPtr, frame: TrapFrame) returns (r: Result<(), SyscallError>)
    requires state.Valid() && frame.Valid() && frame.Repr !! state.Repr
    modifies state.Repr, frame.Repr
    ensures state.Valid()
    ensures Outcome(state.Model(), frame.View(), StatusOf(r))
         == Ipc.Signal(old(state.Model()), current, cptr, old(frame.View()))
  {
    hide KernelState.Valid;
    hide KernelState.Model;
    var to :- ResolveNotification(state, current, cptr, {Write});
    var found := state.GetNotification(to.notification);
    if found.None? {
      return Failure(InvalidCapability);
    }
    var notification := found.value;
    if notification.waiters != [] {
      WakeWaiter(state, to.notification, to.badge);
    } else {
      SetSignals(state, to.notification, Or(notification.signals, to.badge), notification.waiters);
    }
    frame.Succeed();
    r := Success(());
  }

  method BlockWaiter(state: KernelState, current: TcbId, frame: TrapFrame, id: NotificationId)
    returns (r: Result<(), SyscallError>)
    requires state.Valid() && frame.Valid() && frame.Repr !! state.Repr
    requires id in state.Model().notifications
    modifies state.Repr, frame.Repr
    ensures state.Valid()
    ensures Outcome(state.Model(), frame.View(), StatusOf(r))
         == Ipc.BlockWaiter(old(state.Model()), current, old(frame.View()), id)
  {
    hide KernelState.Valid;
    hide KernelState.Model;
    hide Ipc.Park;
    hide State.SetState;
    var some := state.HasReady();
    if !some {
      return Failure(Timeout);
    }
    var found := state.GetNotification(id);
    var notification := found.value;
    if !HasRoom(notification.waiters) {
      return Failure(NotEnoughMemory);
    }
    SetSignals(state, id, notification.signals, PushBack(notification.waiters, current));
    Park(state, frame, current, BlockedWait(id));
    r := Success(());
  }

  method Wait(state: KernelState, current: TcbId, cptr: CPtr, frame: TrapFrame) returns (r: Result<(), SyscallError>)
    requires state.Valid() && frame.Valid() && frame.Repr !! state.Repr
    modifies state.Repr, frame.Repr
    ensures state.Valid()
    ensures Outcome(state.Model(), frame.View(), StatusOf(r))
         == Ipc.Wait(old(state.Model()), current, cptr, old(frame.View()))
  {
    hide KernelState.Valid;
    hide KernelState.Model;
    var from :- ResolveNotification(state, current, cptr, {Read});
    var found := state.GetNotification(from.notification);
    if found.None? {
      return Failure(InvalidCapability);
    }
    var notification := found.value;
    if notification.signals != 0 {
      frame.SetMr(0, notification.signals);
      SetSignals(state, from.notification, 0, notification.waiters);
      frame.Succeed();
      return Success(());
    }
    r := BlockWaiter(state, current, frame, from.notification);
  }

  method Poll(state: KernelState, current: TcbId, cptr: CPtr, frame: TrapFrame) returns (r: Result<(), SyscallError>)
    requires state.Valid() && frame.Valid() && frame.Repr !! state.Repr
    modifies state.Repr, frame.Repr
    ensures state.Valid()
    ensures Outcome(state.Model(), frame.View(), StatusOf(r))
         == Ipc.Poll(old(state.Model()), current, cptr, old(frame.View()))
  {
    hide KernelState.Valid;
    hide KernelState.Model;
    var from :- ResolveNotification(state, current, cptr, {Read});
    var found := state.GetNotification(from.notification);
    if found.None? {
      return Failure(InvalidCapability);
    }
    var notification := found.value;
    if notification.signals != 0 {
      SetSignals(state, from.notification, 0, notification.waiters);
    }
    frame.SetMr(0, notification.signals);
    frame.Succeed();
    r := Success(());
  }
}
