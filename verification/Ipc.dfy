/** The IPC fast path as step functions (src/ipc.rs): `Send`/`NBSend`/`Recv`/`Call`/`Reply`
    on endpoints, `Signal`/`Wait`/`Poll` on notifications. */
module Ipc {
  import opened Limits
  import opened Words
  import opened Wrappers
  import opened Capabilities
  import opened Objects
  import opened State

  function Fail(k: Kernel, f: Context, e: SyscallError): Outcome {
    Outcome(k, f, Err(e))
  }

  // ---------------------------------------------------------------- decoding

  /** The capability a message attaches must carry GRANT. */
  function ResolveTransferableCap(k: Kernel, thread: TcbId, cptr: CPtr): Result<Capability, SyscallError> {
    var cap :- LookupCap(k, thread, cptr);
    if Grant in cap.Rights() then Success(cap) else Failure(IllegalOperation)
  }

  function ExtractExtraCap(k: Kernel, cur: TcbId, f: Context): Result<Option<Capability>, SyscallError> {
    if f.tag.extraCaps == 1 then
      var cap :- ResolveTransferableCap(k, cur, f.Mr(1));
      Success(Some(cap))
    else
      Success(None)
  }

  /** `Call` only: `mr1` names the caller's slot for a capability the reply may attach. */
  function CallReplyDestSlot(f: Context): Option<CPtr> {
    if f.tag.extraCaps == 2 then Some(f.Mr(1)) else None
  }

  /** `mr1` is not payload when it named a capability or a slot. */
  function PayloadWords(f: Context, mr1Spent: bool): Payload {
    Payload(if mr1Spent then 0 else f.Mr(1), f.Mr(2), f.Mr(3))
  }

  datatype EndpointTarget = EndpointTarget(endpoint: EndpointId, badge: Word)
  datatype NotificationTarget = NotificationTarget(notification: NotificationId, badge: Word)

  function ResolveEndpoint(k: Kernel, cur: TcbId, cptr: CPtr, required: Rights)
    : Result<EndpointTarget, SyscallError>
  {
    var cap :- LookupCap(k, cur, cptr);
    match cap
    case EndpointCap(id, badge, rights) =>
      if required <= rights then Success(EndpointTarget(id, badge)) else Failure(IllegalOperation)
    case _ => Failure(InvalidCapability)
  }

  function ResolveNotification(k: Kernel, cur: TcbId, cptr: CPtr, required: Rights)
    : Result<NotificationTarget, SyscallError>
  {
    var cap :- LookupCap(k, cur, cptr);
    match cap
    case NotificationCap(id, badge, rights) =>
      if required <= rights then Success(NotificationTarget(id, badge)) else Failure(IllegalOperation)
    case _ => Failure(InvalidCapability)
  }

  /** What `Send` and `Call` read from the caller before they look at the queue. */
  datatype Message = Message(
    endpoint: EndpointId, badge: Word, extraCap: Option<Capability>, replyDestSlot: Option<CPtr>,
    payload: Payload)

  function DecodeSend(k: Kernel, cur: TcbId, cptr: CPtr, f: Context): (r: Result<Message, SyscallError>)
    ensures r.Success? ==> r.value.endpoint in k.endpoints
  {
    var to :- ResolveEndpoint(k, cur, cptr, {Write});
    if !FastPathOnly(f.tag) then Failure(TruncatedMessage)
    else
      var extra :- ExtractExtraCap(k, cur, f);
      if to.endpoint !in k.endpoints then Failure(InvalidCapability)
      else Success(Message(to.endpoint, to.badge, extra, None, PayloadWords(f, extra.Some?)))
  }

  function DecodeCall(k: Kernel, cur: TcbId, cptr: CPtr, f: Context): (r: Result<Message, SyscallError>)
    ensures r.Success? ==> r.value.endpoint in k.endpoints
  {
    var to :- ResolveEndpoint(k, cur, cptr, {Write});
    if !CallTag(f.tag) then Failure(TruncatedMessage)
    else
      var extra :- ExtractExtraCap(k, cur, f);
      var slot := CallReplyDestSlot(f);
      if to.endpoint !in k.endpoints then Failure(InvalidCapability)
      else Success(Message(to.endpoint, to.badge, extra, slot, PayloadWords(f, extra.Some? || slot.Some?)))
  }

  /** The endpoint and the slot a receiver registers for an incoming capability. */
  datatype Reception = Reception(endpoint: EndpointId, destSlot: Option<CPtr>)

  function DecodeRecv(k: Kernel, cur: TcbId, cptr: CPtr, f: Context): (r: Result<Reception, SyscallError>)
    ensures r.Success? ==> r.value.endpoint in k.endpoints
  {
    var from :- ResolveEndpoint(k, cur, cptr, {Read});
    if !FastPathOnly(f.tag) then Failure(TruncatedMessage)
    else if from.endpoint !in k.endpoints then Failure(InvalidCapability)
    else Success(Reception(from.endpoint, if f.tag.extraCaps == 1 then Some(f.Mr(1)) else None))
  }

  /** The thread a reply goes to, the capability it attaches and its payload. */
  datatype Answer = Answer(target: TcbId, extraCap: Option<Capability>, payload: Payload)

  function DecodeReply(k: Kernel, cur: TcbId, f: Context): Result<Answer, SyscallError> {
    if !FastPathOnly(f.tag) then Failure(TruncatedMessage)
    else
      var extra :- ExtractExtraCap(k, cur, f);
      if cur !in k.tcbs || k.tcbs[cur].replyTo.None? then Failure(IllegalOperation)
      else Success(Answer(k.tcbs[cur].replyTo.value, extra, PayloadWords(f, extra.Some?)))
  }

  // ---------------------------------------------------------------- transfers

  function PlaceTransferredCap(k: Kernel, receiver: TcbId, dest: CPtr, cap: Capability)
    : Result<Kernel, SyscallError>
  {
    if receiver !in k.tcbs || k.tcbs[receiver].cspace.None? || k.tcbs[receiver].cspace.value !in k.cnodes
    then Failure(FailedLookup)
    else
      var n := k.tcbs[receiver].cspace.value;
      if dest >= CNODE_SLOTS then Failure(RangeError)
      else if k.cnodes[n][dest] != Null then Failure(IllegalOperation)
      else Success(SetSlot(k, n, dest, cap))
  }

  /** Places an attached capability, if there is one, in the registered slot. */
  function Transfer(k: Kernel, receiver: TcbId, dest: Option<CPtr>, extra: Option<Capability>)
    : Result<Kernel, SyscallError>
  {
    if extra.None? then Success(k)
    else if dest.None? then Failure(IllegalOperation)
    else PlaceTransferredCap(k, receiver, dest.value, extra.value)
  }

  function BlockedReceiverDestSlot(k: Kernel, t: TcbId): Option<CPtr> {
    if t in k.tcbs && k.tcbs[t].state.BlockedRecv? then k.tcbs[t].state.recvDestSlot else None
  }

  function BlockedCallerReplyDestSlot(k: Kernel, t: TcbId): Option<CPtr> {
    if t in k.tcbs && k.tcbs[t].state.BlockedReply? then k.tcbs[t].state.destSlot else None
  }

  // ------------------------------------------------------------------- queues

  function SetEndpointQueue(k: Kernel, id: EndpointId, q: EndpointQueue): Kernel {
    if id in k.endpoints then k.(endpoints := k.endpoints[id := Endpoint(q)]) else k
  }

  function Normalize(q: EndpointQueue): EndpointQueue {
    match q
    case SendQueue(s) => if s == [] then Empty else q
    case RecvQueue(r) => if r == [] then Empty else q
    case Empty => Empty
  }

  function DeliverPayload(k: Kernel, t: TcbId, badge: Word, p: Payload, tag: MessageTag): Kernel {
    if t in k.tcbs then SetContext(k, t, k.tcbs[t].context.Deliver(badge, p, tag)) else k
  }

  /** Blocking ends with a switch; the caller has already checked that one is possible. */
  function Park(k: Kernel, f: Context): Outcome {
    var (k', f', switched) := BlockCurrent(k, f);
    Outcome(k', f', if switched then Ok else Panic)
  }

  // ----------------------------------------------------------------- send/call

  /** A receiver is waiting: the transfer is validated first, then the head receiver leaves
      the queue with the message in its saved registers. */
  function DeliverToReceiver(k: Kernel, m: Message, tag: MessageTag, waiters: seq<TcbId>)
    : Result<Kernel, SyscallError>
    requires waiters != []
  {
    var r := waiters[0];
    var k1 :- Transfer(k, r, BlockedReceiverDestSlot(k, r), m.extraCap);
    var k2 := SetEndpointQueue(k1, m.endpoint, Normalize(RecvQueue(waiters[1..])));
    Success(DeliverPayload(k2, r, m.badge, m.payload, tag))
  }

  /** No receiver is waiting: the caller joins the send queue and blocks. */
  function BlockSender(k: Kernel, cur: TcbId, f: Context, m: Message, isCall: bool): Outcome
    requires m.endpoint in k.endpoints && !k.endpoints[m.endpoint].queue.RecvQueue?
  {
    var queue := k.endpoints[m.endpoint].queue;
    var q := if queue.SendQueue? then queue.senders else [];
    if k.ready == [] then Fail(k, f, Timeout)
    else if !HasRoom(q) then Fail(k, f, NotEnoughMemory)
    else
      var k1 := SetEndpointQueue(k, m.endpoint, SendQueue(PushBack(q, cur)));
      var k2 := SetState(k1, cur, BlockedSend(m.endpoint, m.badge, isCall, m.extraCap, m.replyDestSlot));
      Park(k2, f)
  }

  function Send(k: Kernel, cur: TcbId, cptr: CPtr, f: Context, nonblocking: bool): Outcome {
    match DecodeSend(k, cur, cptr, f)
    case Failure(e) => Fail(k, f, e)
    case Success(m) =>
      match k.endpoints[m.endpoint].queue
      case RecvQueue(waiters) =>
        if waiters == [] then Outcome(k, f, Panic)
        else
          (match DeliverToReceiver(k, m, f.tag, waiters)
           case Failure(e) => Fail(k, f, e)
           case Success(k1) => Outcome(MakeReady(k1, waiters[0]), ReplySuccess(f), Ok))
      case _ =>
        if nonblocking then Outcome(k, ReplySuccess(f), Ok)
        else BlockSender(k, cur, f, m, false)
  }

  /** The receiver owes the caller a reply, and runs. */
  function HandOver(k: Kernel, cur: TcbId, f: Context, receiver: TcbId, slot: Option<CPtr>): Outcome {
    var k1 := SetState(SetReplyTo(k, receiver, Some(cur)), cur, BlockedReply(slot));
    var (k2, f2) := SwitchTo(k1, f, receiver);
    Outcome(k2, f2, Ok)
  }

  function Call(k: Kernel, cur: TcbId, cptr: CPtr, f: Context): Outcome {
    match DecodeCall(k, cur, cptr, f)
    case Failure(e) => Fail(k, f, e)
    case Success(m) =>
      match k.endpoints[m.endpoint].queue
      case RecvQueue(waiters) =>
        if waiters == [] then Outcome(k, f, Panic)
        else
          (match DeliverToReceiver(k, m, f.tag, waiters)
           case Failure(e) => Fail(k, f, e)
           case Success(k1) =>
             HandOver(k1, cur, f, waiters[0], m.replyDestSlot))
      case _ => BlockSender(k, cur, f, m, true)
  }

  // ---------------------------------------------------------------------- recv

  /** The head sender leaves the queue: after a `Call` it waits for the reply the receiver now
      owes it, after a `Send` it is ready. */
  function ReleaseSender(k: Kernel, cur: TcbId, id: EndpointId, waiters: seq<TcbId>,
                         isCall: bool, replySlot: Option<CPtr>): Kernel
    requires waiters != []
  {
    var k1 := SetEndpointQueue(k, id, Normalize(SendQueue(waiters[1..])));
    var s := waiters[0];
    if isCall then SetState(SetReplyTo(k1, cur, Some(s)), s, BlockedReply(replySlot))
    else MakeReady(k1, s)
  }

  /** A sender is waiting: its message is read from its saved registers. */
  function ReceiveFromSender(k: Kernel, cur: TcbId, f: Context, id: EndpointId, dest: Option<CPtr>,
                             waiters: seq<TcbId>): Outcome
    requires waiters != []
  {
    var s := waiters[0];
    if s !in k.tcbs then Fail(k, f, FailedLookup)
    else
      match k.tcbs[s].state
      case BlockedSend(_, badge, isCall, extra, replySlot) =>
        (match Transfer(k, cur, dest, extra)
         case Failure(e) => Fail(k, f, e)
         case Success(k1) =>
           var from := k.tcbs[s].context;
           Outcome(ReleaseSender(k1, cur, id, waiters, isCall, replySlot),
                   ReplySuccess(f.Deliver(badge, PayloadWords(from, extra.Some?), from.tag)), Ok))
      case _ => Fail(k, f, IllegalOperation)
  }

  function BlockReceiver(k: Kernel, cur: TcbId, f: Context, id: EndpointId, dest: Option<CPtr>): Outcome
    requires id in k.endpoints && !k.endpoints[id].queue.SendQueue?
  {
    var queue := k.endpoints[id].queue;
    var q := if queue.RecvQueue? then queue.receivers else [];
    if k.ready == [] then Fail(k, f, Timeout)
    else if !HasRoom(q) then Fail(k, f, NotEnoughMemory)
    else
      var k1 := SetEndpointQueue(k, id, RecvQueue(PushBack(q, cur)));
      Park(SetState(k1, cur, BlockedRecv(id, dest)), f)
  }

  function Recv(k: Kernel, cur: TcbId, cptr: CPtr, f: Context): Outcome {
    match DecodeRecv(k, cur, cptr, f)
    case Failure(e) => Fail(k, f, e)
    case Success(Reception(id, dest)) =>
      match k.endpoints[id].queue
      case SendQueue(waiters) =>
        if waiters == [] then Outcome(k, f, Panic)
        else ReceiveFromSender(k, cur, f, id, dest, waiters)
      case _ => BlockReceiver(k, cur, f, id, dest)
  }

  // --------------------------------------------------------------------- reply

  /** The link is consumed, the caller gets its answer and runs; the replier becomes ready. */
  function AnswerCaller(k: Kernel, cur: TcbId, f: Context, target: TcbId, payload: Payload): Outcome {
    var k1 := SetReplyTo(k, cur, None);
    if target !in k1.tcbs then Fail(k1, f, IllegalOperation)
    else
      var k2 := DeliverPayload(k1, target, 0, payload, f.tag);
      var (k3, f3) := SwitchTo(MakeReady(k2, cur), f, target);
      Outcome(k3, f3, Ok)
  }

  function Reply(k: Kernel, cur: TcbId, f: Context): Outcome {
    match DecodeReply(k, cur, f)
    case Failure(e) => Fail(k, f, e)
    case Success(Answer(target, extra, payload)) =>
      match Transfer(k, target, BlockedCallerReplyDestSlot(k, target), extra)
      case Failure(e) => Fail(k, f, e)
      case Success(k1) => AnswerCaller(k1, cur, f, target, payload)
  }

  // ------------------------------------------------------------- notifications

  function SetSignals(k: Kernel, id: NotificationId, signals: Word, waiters: seq<TcbId>): Kernel {
    if id in k.notifications
    then k.(notifications := k.notifications[id := Notification(signals, waiters)])
    else k
  }

  /** The head waiter becomes ready with the pending signals and the new badge in `mr0`. */
  function WakeWaiter(k: Kernel, id: NotificationId, badge: Word): Kernel
    requires id in k.notifications && k.notifications[id].waiters != []
  {
    var n := k.notifications[id];
    var w := n.waiters[0];
    var k1 := SetSignals(k, id, 0, n.waiters[1..]);
    var k2 := if w in k1.tcbs
              then SetContext(k1, w, k1.tcbs[w].context.SetMr(0, Or(n.signals, badge)))
              else k1;
    MakeReady(k2, w)
  }

  function Signal(k: Kernel, cur: TcbId, cptr: CPtr, f: Context): Outcome {
    match ResolveNotification(k, cur, cptr, {Write})
    case Failure(e) => Fail(k, f, e)
    case Success(NotificationTarget(id, badge)) =>
      if id !in k.notifications then Fail(k, f, InvalidCapability)
      else if k.notifications[id].waiters != [] then
        Outcome(WakeWaiter(k, id, badge), ReplySuccess(f), Ok)
      else
        var n := k.notifications[id];
        Outcome(SetSignals(k, id, Or(n.signals, badge), n.waiters), ReplySuccess(f), Ok)
  }

  function BlockWaiter(k: Kernel, cur: TcbId, f: Context, id: NotificationId): Outcome
    requires id in k.notifications
  {
    var n := k.notifications[id];
    if k.ready == [] then Fail(k, f, Timeout)
    else if !HasRoom(n.waiters) then Fail(k, f, NotEnoughMemory)
    else
      var k1 := SetSignals(k, id, n.signals, PushBack(n.waiters, cur));
      Park(SetState(k1, cur, BlockedWait(id)), f)
  }

  function Wait(k: Kernel, cur: TcbId, cptr: CPtr, f: Context): Outcome {
    match ResolveNotification(k, cur, cptr, {Read})
    case Failure(e) => Fail(k, f, e)
    case Success(NotificationTarget(id, _)) =>
      if id !in k.notifications then Fail(k, f, InvalidCapability)
      else
        var n := k.notifications[id];
        if n.signals != 0 then
          Outcome(SetSignals(k, id, 0, n.waiters), ReplySuccess(f.SetMr(0, n.signals)), Ok)
        else BlockWaiter(k, cur, f, id)
  }

  function Poll(k: Kernel, cur: TcbId, cptr: CPtr, f: Context): Outcome {
    match ResolveNotification(k, cur, cptr, {Read})
    case Failure(e) => Fail(k, f, e)
    case Success(NotificationTarget(id, _)) =>
      if id !in k.notifications then Fail(k, f, InvalidCapability)
      else
        var n := k.notifications[id];
        Outcome(if n.signals != 0 then SetSignals(k, id, 0, n.waiters) else k,
                ReplySuccess(f.SetMr(0, n.signals)), Ok)
  }
}
