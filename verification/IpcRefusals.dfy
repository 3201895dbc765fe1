/** When an IPC call is refused, and with which error, read off the capability slots, the registers and
    the queues: each `...Refusal` lists the conditions of one call in the order of their priority, and a
    call succeeds exactly if there is none. */
module IpcRefusals {
  import opened Limits
  import opened Words
  import opened Wrappers
  import opened Capabilities
  import opened Objects
  import opened State
  import opened Ipc
  import opened Invariants
  import opened Effects
  import opened IpcEffects
  import opened Designation

  type Refusal = Option<SyscallError>

  function StatusOf(r: Refusal): Status {
    match r
    case None => Ok
    case Some(e) => Err(e)
  }

  // ------------------------------------------------------------------- the conditions

  /** Using an endpoint takes a capability for one, with the right to send or to receive. */
  function EndpointRefusal(k: Kernel, cur: TcbId, p: CPtr, right: Right): Refusal {
    var c := Designated(k, cur, p);
    if !HasCSpace(k, cur) then Some(FailedLookup)
    else if !c.EndpointCap? then Some(InvalidCapability)
    else if right !in c.endpointRights then Some(IllegalOperation)
    else None
  }

  function NotificationRefusal(k: Kernel, cur: TcbId, p: CPtr, right: Right): Refusal {
    var c := Designated(k, cur, p);
    if !HasCSpace(k, cur) then Some(FailedLookup)
    else if !c.NotificationCap? then Some(InvalidCapability)
    else if right !in c.notificationRights then Some(IllegalOperation)
    else if c.notification !in k.notifications then Some(InvalidCapability)
    else None
  }

  /** Attaching a capability takes one that may be granted. */
  function AttachRefusal(k: Kernel, cur: TcbId, f: Context): Refusal {
    if f.tag.extraCaps != 1 then None
    else if !HasCSpace(k, cur) then Some(FailedLookup)
    else if Designated(k, cur, f.mrs[1]) == Null then Some(InvalidCapability)
    else if Grant !in Designated(k, cur, f.mrs[1]).Rights() then Some(IllegalOperation)
    else None
  }

  /** A capability lands in an empty slot that the other side has named. */
  function LandRefusal(k: Kernel, t: TcbId, dest: Option<CPtr>): Refusal {
    if dest.None? then Some(IllegalOperation)
    else if !HasCSpace(k, t) then Some(FailedLookup)
    else if dest.value >= CNODE_SLOTS then Some(RangeError)
    else if Designated(k, t, dest.value) != Null then Some(IllegalOperation)
    else None
  }

  /** The slot a thread in this state has named for a capability. */
  function NamedSlot(s: ThreadState): Option<CPtr> {
    match s
    case BlockedRecv(_, slot) => slot
    case BlockedReply(slot) => slot
    case _ => None
  }

  /** What `Send` and `Call` need before they look at the queue; `maxCaps` is 1 or 2. */
  function OfferRefusal(k: Kernel, cur: TcbId, f: Context, maxCaps: nat): Refusal {
    var r := EndpointRefusal(k, cur, f.mrs[0], Write);
    if r.Some? then r
    else if f.tag.length != 0 || f.tag.extraCaps > maxCaps then Some(TruncatedMessage)
    else if AttachRefusal(k, cur, f).Some? then AttachRefusal(k, cur, f)
    else if Designated(k, cur, f.mrs[0]).endpoint !in k.endpoints then Some(InvalidCapability)
    else None
  }

  /** A receiver that waits must take the attached capability; a sender that blocks must leave
      somebody to run. */
  function DeliveryRefusal(k: Kernel, f: Context, e: EndpointId, blocks: bool): Refusal {
    var q := QueueAt(k, Receivers(e));
    if q == [] then
      if blocks && k.ready == [] then Some(Timeout) else None
    else if f.tag.extraCaps == 1 && q[0] in k.tcbs then
      LandRefusal(k, q[0], NamedSlot(k.tcbs[q[0]].state))
    else None
  }

  function SendRefusal(k: Kernel, cur: TcbId, f: Context, blocks: bool): Refusal {
    var r := OfferRefusal(k, cur, f, 1);
    if r.Some? then r else DeliveryRefusal(k, f, Designated(k, cur, f.mrs[0]).endpoint, blocks)
  }

  /** `Call` also understands two extra capabilities, which name a slot for the reply. */
  function CallRefusal(k: Kernel, cur: TcbId, f: Context): Refusal {
    var r := OfferRefusal(k, cur, f, 2);
    if r.Some? then r else DeliveryRefusal(k, f, Designated(k, cur, f.mrs[0]).endpoint, true)
  }

  /** The slot a receiver names for a capability. */
  function OfferedSlot(f: Context): Option<CPtr> {
    if f.tag.extraCaps == 1 then Some(f.mrs[1]) else None
  }

  function RecvRefusal(k: Kernel, cur: TcbId, f: Context): Refusal {
    var r := EndpointRefusal(k, cur, f.mrs[0], Read);
    if r.Some? then r
    else if f.tag.length != 0 || f.tag.extraCaps > 1 then Some(TruncatedMessage)
    else
      var e := Designated(k, cur, f.mrs[0]).endpoint;
      var q := QueueAt(k, Senders(e));
      if e !in k.endpoints then Some(InvalidCapability)
      else if q != [] then
        if q[0] in k.tcbs && k.tcbs[q[0]].state.BlockedSend? && k.tcbs[q[0]].state.extraCap.Some?
        then LandRefusal(k, cur, OfferedSlot(f)) else None
      else if k.ready == [] then Some(Timeout)
      else None
  }

  function ReplyRefusal(k: Kernel, cur: TcbId, f: Context): Refusal {
    if f.tag.length != 0 || f.tag.extraCaps > 1 then Some(TruncatedMessage)
    else if AttachRefusal(k, cur, f).Some? then AttachRefusal(k, cur, f)
    else if cur !in k.tcbs || k.tcbs[cur].replyTo.None? then Some(IllegalOperation)
    else
      var t := k.tcbs[cur].replyTo.value;
      if f.tag.extraCaps == 1 && t in k.tcbs then LandRefusal(k, t, NamedSlot(k.tcbs[t].state)) else None
  }

  function SignalRefusal(k: Kernel, cur: TcbId, f: Context): Refusal {
    NotificationRefusal(k, cur, f.mrs[0], Write)
  }

  function PollRefusal(k: Kernel, cur: TcbId, f: Context): Refusal {
    NotificationRefusal(k, cur, f.mrs[0], Read)
  }

  function WaitRefusal(k: Kernel, cur: TcbId, f: Context): Refusal {
    var r := NotificationRefusal(k, cur, f.mrs[0], Read);
    if r.Some? then r
    else if k.notifications[Designated(k, cur, f.mrs[0]).notification].signals == 0 && k.ready == []
    then Some(Timeout)
    else None
  }

  // ---------------------------------------------------------------- what a message is

  /** The message of a sender that is not refused, as its slots and registers have it. */
  function Offered(k: Kernel, cur: TcbId, f: Context): Message
    requires Designated(k, cur, f.mrs[0]).EndpointCap?
  {
    var c := Designated(k, cur, f.mrs[0]);
    Message(c.endpoint, c.badge,
            if f.tag.extraCaps == 1 then Some(Designated(k, cur, f.mrs[1])) else None,
            if f.tag.extraCaps == 2 then Some(f.mrs[1]) else None,
            Payload(if f.tag.extraCaps == 0 then f.mrs[1] else 0, f.mrs[2], f.mrs[3]))
  }

  lemma AttachIsExact(k: Kernel, cur: TcbId, f: Context)
    ensures var r := AttachRefusal(k, cur, f);
            ExtractExtraCap(k, cur, f) ==
              if r.Some? then Failure(r.value)
              else Success(if f.tag.extraCaps == 1 then Some(Designated(k, cur, f.mrs[1])) else None)
  {
    LookupFindsDesignated(k, cur, f.mrs[1]);
    hide LookupCap;
  }

  lemma EndpointIsExact(k: Kernel, cur: TcbId, p: CPtr, right: Right)
    ensures var r, c := EndpointRefusal(k, cur, p, right), Designated(k, cur, p);
            && (r.None? ==> c.EndpointCap?)
            && (ResolveEndpoint(k, cur, p, {right})
                == if r.Some? then Failure(r.value) else Success(EndpointTarget(c.endpoint, c.badge)))
  {
    LookupFindsDesignated(k, cur, p);
    hide LookupCap;
  }

  lemma NotificationIsExact(k: Kernel, cur: TcbId, p: CPtr, right: Right)
    ensures var r, c := NotificationRefusal(k, cur, p, right), Designated(k, cur, p);
            && (r.None? ==> c.NotificationCap? && c.notification in k.notifications)
            && (r.None? ==>
                  ResolveNotification(k, cur, p, {right}) == Success(NotificationTarget(c.notification, c.badge)))
            && (r.Some? ==>
                  || ResolveNotification(k, cur, p, {right}) == Failure(r.value)
                  || (ResolveNotification(k, cur, p, {right}) == Success(NotificationTarget(c.notification, c.badge))
                      && c.NotificationCap? && c.notification !in k.notifications && r.value == InvalidCapability))
  {
    LookupFindsDesignated(k, cur, p);
    hide LookupCap;
  }

  lemma TransferIsExact(k: Kernel, t: TcbId, dest: Option<CPtr>, extra: Option<Capability>)
    ensures var r := if extra.Some? then LandRefusal(k, t, dest) else None;
            && (r.Some? ==> Transfer(k, t, dest, extra) == Failure(r.value))
            && (r.None? ==> Transfer(k, t, dest, extra).Success?)
  {
  }

  lemma OfferIsExact(k: Kernel, cur: TcbId, f: Context)
    ensures var r := OfferRefusal(k, cur, f, 1);
            && (r.None? ==> Designated(k, cur, f.mrs[0]).EndpointCap? && f.tag.extraCaps <= 1)
            && (DecodeSend(k, cur, f.Mr(0), f)
                == if r.Some? then Failure(r.value) else Success(Offered(k, cur, f)))
    ensures var r := OfferRefusal(k, cur, f, 2);
            && (r.None? ==> Designated(k, cur, f.mrs[0]).EndpointCap?)
            && (DecodeCall(k, cur, f.Mr(0), f)
                == if r.Some? then Failure(r.value) else Success(Offered(k, cur, f)))
  {
    EndpointIsExact(k, cur, f.mrs[0], Write);
    AttachIsExact(k, cur, f);
    hide ResolveEndpoint;
    hide ExtractExtraCap;
    hide AttachRefusal;
    hide EndpointRefusal;
    hide Designated;
  }

  lemma ReceptionIsExact(k: Kernel, cur: TcbId, f: Context)
    ensures var r, c := EndpointRefusal(k, cur, f.mrs[0], Read), Designated(k, cur, f.mrs[0]);
            && (r.None? ==> c.EndpointCap?)
            && (DecodeRecv(k, cur, f.Mr(0), f)
                == if r.Some? then Failure(r.value)
                   else if f.tag.length != 0 || f.tag.extraCaps > 1 then Failure(TruncatedMessage)
                   else if c.endpoint !in k.endpoints then Failure(InvalidCapability)
                   else Success(Reception(c.endpoint, OfferedSlot(f))))
  {
    EndpointIsExact(k, cur, f.mrs[0], Read);
    hide ResolveEndpoint;
    hide EndpointRefusal;
    hide Designated;
  }

  // -------------------------------------------------------------------- the statuses

  lemma BlockSenderStatus(k: Kernel, f: Context, m: Message, isCall: bool)
    requires Inv(k) && m.endpoint in k.endpoints && !k.endpoints[m.endpoint].queue.RecvQueue?
    ensures BlockSender(k, k.current.value, f, m, isCall).status == if k.ready == [] then Err(Timeout) else Ok
  {
    hide Does;
    hide Placed;
    hide Park;
    BlockSenderEffect(k, f, m, isCall);
  }

  lemma BlockReceiverStatus(k: Kernel, f: Context, e: EndpointId, dest: Option<CPtr>)
    requires Inv(k) && e in k.endpoints && !k.endpoints[e].queue.SendQueue?
    ensures BlockReceiver(k, k.current.value, f, e, dest).status == if k.ready == [] then Err(Timeout) else Ok
  {
    hide Does;
    hide Placed;
    hide Park;
    BlockReceiverEffect(k, f, e, dest);
  }

  /** The message of a sender can be handed to the head receiver unless its capability cannot land. */
  lemma DeliverStatus(k: Kernel, f: Context, m: Message, q: seq<TcbId>)
    requires Inv(k) && m.endpoint in k.endpoints && k.endpoints[m.endpoint].queue == RecvQueue(q)
    requires m.extraCap.Some? <==> f.tag.extraCaps == 1
    ensures q != []
    ensures var (r, d) := (DeliveryRefusal(k, f, m.endpoint, true), DeliverToReceiver(k, m, f.tag, q));
            if r.Some? then d == Failure(r.value) else d.Success?
  {
    hide PoolsBounded;
    hide Linked;
    HeadOf(k, Receivers(m.endpoint));
    hide Placed;
    TransferIsExact(k, q[0], BlockedReceiverDestSlot(k, q[0]), m.extraCap);
    hide Transfer;
    hide LandRefusal;
  }

  lemma SendStatus(k: Kernel, f: Context, nonblocking: bool)
    requires Inv(k)
    ensures Send(k, k.current.value, f.mrs[0], f, nonblocking).status
         == StatusOf(SendRefusal(k, k.current.value, f, !nonblocking))
  {
    hide DecodeSend;
    hide OfferRefusal;
    hide DeliverToReceiver;
    hide BlockSender;
    hide MakeReady;
    hide LandRefusal;
    hide Placed;
    hide Linked;
    hide PoolsBounded;
    var cur := k.current.value;
    OfferIsExact(k, cur, f);
    var d := DecodeSend(k, cur, f.Mr(0), f);
    if d.Success? {
      match k.endpoints[d.value.endpoint].queue
      case RecvQueue(q) => DeliverStatus(k, f, d.value, q);
      case _ => BlockSenderStatus(k, f, d.value, false);
    }
  }

  lemma CallStatus(k: Kernel, f: Context)
    requires Inv(k)
    ensures Call(k, k.current.value, f.mrs[0], f).status == StatusOf(CallRefusal(k, k.current.value, f))
  {
    hide DecodeCall;
    hide OfferRefusal;
    hide DeliverToReceiver;
    hide BlockSender;
    hide SwitchTo;
    hide LandRefusal;
    hide Placed;
    hide Linked;
    hide PoolsBounded;
    var cur := k.current.value;
    OfferIsExact(k, cur, f);
    var d := DecodeCall(k, cur, f.Mr(0), f);
    if d.Success? {
      match k.endpoints[d.value.endpoint].queue
      case RecvQueue(q) => DeliverStatus(k, f, d.value, q);
      case _ => BlockSenderStatus(k, f, d.value, true);
    }
  }

  lemma RecvStatus(k: Kernel, f: Context)
    requires Inv(k)
    ensures Recv(k, k.current.value, f.mrs[0], f).status == StatusOf(RecvRefusal(k, k.current.value, f))
  {
    hide DecodeRecv;
    hide EndpointRefusal;
    hide Designated;
    hide Transfer;
    hide ReleaseSender;
    hide BlockReceiver;
    hide LandRefusal;
    hide Placed;
    hide Linked;
    hide PoolsBounded;
    var cur := k.current.value;
    ReceptionIsExact(k, cur, f);
    var d := DecodeRecv(k, cur, f.Mr(0), f);
    if d.Success? {
      var Reception(e, dest) := d.value;
      match k.endpoints[e].queue
      case SendQueue(q) =>
        HeadOf(k, Senders(e));
        TransferIsExact(k, cur, dest, k.tcbs[q[0]].state.extraCap);
      case _ => BlockReceiverStatus(k, f, e, dest);
    }
  }

  lemma ReplyStatus(k: Kernel, f: Context)
    requires Inv(k)
    ensures Reply(k, k.current.value, f).status == StatusOf(ReplyRefusal(k, k.current.value, f))
  {
    hide AttachRefusal;
    hide ExtractExtraCap;
    hide Designated;
    hide Transfer;
    hide AnswerCaller;
    hide LandRefusal;
    hide Placed;
    hide PoolsBounded;
    var cur := k.current.value;
    AttachIsExact(k, cur, f);
    var d := DecodeReply(k, cur, f);
    if d.Success? {
      var t := d.value.target;
      assert Owes(k, cur, t);
      var dest := BlockedCallerReplyDestSlot(k, t);
      TransferIsExact(k, t, dest, d.value.extraCap);
      TransferTouchesSlotsOnly(k, t, dest, d.value.extraCap);
      var r := Transfer(k, t, dest, d.value.extraCap);
      if r.Success? { AnswerCallerEffect(k, r.value, f, t, d.value.payload); }
    }
  }

  lemma SignalStatus(k: Kernel, cur: TcbId, f: Context)
    ensures Signal(k, cur, f.mrs[0], f).status == StatusOf(SignalRefusal(k, cur, f))
  {
    hide ResolveNotification;
    hide NotificationRefusal;
    hide WakeWaiter;
    hide SetSignals;
    hide Or;
    NotificationIsExact(k, cur, f.mrs[0], Write);
  }

  lemma PollStatus(k: Kernel, cur: TcbId, f: Context)
    ensures Poll(k, cur, f.mrs[0], f).status == StatusOf(PollRefusal(k, cur, f))
  {
    hide ResolveNotification;
    hide NotificationRefusal;
    hide SetSignals;
    NotificationIsExact(k, cur, f.mrs[0], Read);
  }

  lemma WaitStatus(k: Kernel, f: Context)
    requires Inv(k)
    ensures Wait(k, k.current.value, f.mrs[0], f).status == StatusOf(WaitRefusal(k, k.current.value, f))
  {
    hide ResolveNotification;
    hide NotificationRefusal;
    hide SetSignals;
    hide Does;
    hide Park;
    hide Placed;
    hide Linked;
    hide PoolsBounded;
    var cur := k.current.value;
    NotificationIsExact(k, cur, f.mrs[0], Read);
    if NotificationRefusal(k, cur, f.mrs[0], Read).None? {
      BlockWaiterEffect(k, f, Designated(k, cur, f.mrs[0]).notification);
    }
  }
}
