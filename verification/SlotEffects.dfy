/** The effect a system call has on the capability slots: at most one slot is filled and at most
    one is cleared, and what fills a slot comes from somewhere. */
module SlotEffects {
  import opened Limits
  import opened Words
  import opened Wrappers
  import opened Capabilities
  import opened Objects
  import opened State
  import opened Ipc
  import opened Syscalls
  import opened IpcEffects
  import Admin
  import CNodes
  import Frames
  import Pool
  import Rendezvous

  // ---------------------------------------------------------------- what is named

  datatype ObjectName =
    | CNodeNamed(cnode: CNodeId)
    | UntypedNamed(untyped: UntypedId)
    | EndpointNamed(endpoint: EndpointId)
    | NotificationNamed(notification: NotificationId)
    | TcbNamed(tcb: TcbId)
    | SchedContextNamed(sched: SchedContextId)
    | ReplyNamed(caller: TcbId)
    | VSpaceNamed(vspace: VSpaceId)
    | FrameNamed(frame: FrameId)

  /** The object a capability designates. */
  function Names(c: Capability): Option<ObjectName> {
    match c
    case Null => None
    case CNodeCap(id) => Some(CNodeNamed(id))
    case UntypedCap(id, _) => Some(UntypedNamed(id))
    case EndpointCap(id, _, _) => Some(EndpointNamed(id))
    case NotificationCap(id, _, _) => Some(NotificationNamed(id))
    case TcbCap(id, _) => Some(TcbNamed(id))
    case SchedContextCap(id, _) => Some(SchedContextNamed(id))
    case ReplyCap(t) => Some(ReplyNamed(t))
    case VSpaceCap(id, _) => Some(VSpaceNamed(id))
    case FrameCap(id, _) => Some(FrameNamed(id))
  }

  predicate Allocated(k: Kernel, o: ObjectName) {
    match o
    case CNodeNamed(id) => id in k.cnodes
    case UntypedNamed(id) => id in k.untypeds
    case EndpointNamed(id) => id in k.endpoints
    case NotificationNamed(id) => id in k.notifications
    case TcbNamed(id) => id in k.tcbs
    case ReplyNamed(id) => id in k.tcbs
    case SchedContextNamed(id) => id in k.schedContexts
    case VSpaceNamed(id) => id in k.vspaces
    case FrameNamed(id) => id in k.frames
  }

  /** `c` gives no more authority than `d`: the same object, and no right that `d` lacks. */
  predicate Derived(c: Capability, d: Capability) {
    Names(c) == Names(d) && c.Rights() <= d.Rights()
  }

  /** A capability to an object that the step has allocated. */
  predicate NamesNew(k: Kernel, k': Kernel, c: Capability) {
    Names(c).Some? && !Allocated(k, Names(c).value) && Allocated(k', Names(c).value)
  }

  predicate InSlot(k: Kernel, n: CNodeId, s: Word, c: Capability) {
    c != Null && n in k.cnodes && s < CNODE_SLOTS && k.cnodes[n][s] == c
  }

  /** A blocked sender has attached `c` to its message. */
  predicate InFlight(k: Kernel, t: TcbId, c: Capability) {
    t in k.tcbs && k.tcbs[t].state.BlockedSend? && k.tcbs[t].state.extraCap == Some(c)
  }

  // ------------------------------------------------------------------ the effects

  /** A capability put in a slot. */
  datatype SlotWrite = SlotWrite(node: CNodeId, slot: Word, cap: Capability)

  datatype SlotEffect =
    | Untouched
    | Granted(to: TcbId, w: SlotWrite)
    | Collected(sender: TcbId, w: SlotWrite)
    | Installed(w: SlotWrite, source: CNodeId, from: Word)
    | Relocated(w: SlotWrite, from: Word)
    | Cleared(node: CNodeId, slot: Word)
    | Endowed(w: SlotWrite)

  predicate CanFill(k: Kernel, w: SlotWrite) {
    w.node in k.cnodes && w.slot < CNODE_SLOTS && k.cnodes[w.node][w.slot] == Null && w.cap != Null
  }

  predicate Fills(k: Kernel, k': Kernel, w: SlotWrite) {
    CanFill(k, w) && k'.cnodes == k.cnodes[w.node := k.cnodes[w.node][w.slot := w.cap]]
  }

  predicate CSpaceIs(k: Kernel, t: TcbId, n: CNodeId) {
    t in k.tcbs && k.tcbs[t].cspace == Some(n)
  }

  /** A thread that waits for a message or a reply has registered slot `s`. */
  predicate Registered(k: Kernel, t: TcbId, s: Word) {
    && t in k.tcbs
    && match k.tcbs[t].state
       case BlockedRecv(_, dest) => dest == Some(s)
       case BlockedReply(dest) => dest == Some(s)
       case _ => false
  }

  /** Slot `p` of the thread's CSpace holds a capability to node `n`. */
  predicate Controls(k: Kernel, t: TcbId, p: CPtr, n: CNodeId) {
    LookupCap(k, t, p) == Success(CNodeCap(n))
  }

  /** The running thread `cur` grants a capability of its own to its partner, which waits and has
      registered the slot for it. */
  predicate Grants(cur: TcbId, f: Context, to: TcbId, w: SlotWrite, k: Kernel, k': Kernel) {
    && Fills(k, k', w) && Partner(k, cur, f, to) && CSpaceIs(k, to, w.node) && Registered(k, to, w.slot)
    && f.tag.extraCaps == 1 && LookupCap(k, cur, f.Mr(1)) == Success(w.cap) && Grant in w.cap.Rights()
  }

  /** The running thread takes the capability its partner, a blocked sender, attached, into the slot
      it names. */
  predicate Collects(cur: TcbId, f: Context, from: TcbId, w: SlotWrite, k: Kernel, k': Kernel) {
    && Fills(k, k', w) && Partner(k, cur, f, from) && CSpaceIs(k, cur, w.node)
    && f.tag.extraCaps == 1 && f.Mr(1) == w.slot && InFlight(k, from, w.cap)
  }

  /** Mint or copy into a node the thread controls, from a slot of a node it controls. */
  predicate Installs(cur: TcbId, f: Context, w: SlotWrite, source: CNodeId, from: Word, k: Kernel, k': Kernel) {
    && Fills(k, k', w) && Controls(k, cur, f.Mr(0), w.node)
    && (source == w.node || Controls(k, cur, f.Mr(1), source))
    && source in k.cnodes && from < CNODE_SLOTS && Derived(w.cap, k.cnodes[source][from])
  }

  predicate Relocates(cur: TcbId, f: Context, w: SlotWrite, from: Word, k: Kernel, k': Kernel) {
    && f.tag.labelId == CNodes.LABEL_MOVE
    && CanFill(k, w) && Controls(k, cur, f.Mr(0), w.node) && f.Mr(1) == from
    && from < CNODE_SLOTS && w.cap == k.cnodes[w.node][from]
    && k'.cnodes == k.cnodes[w.node := k.cnodes[w.node][w.slot := w.cap][from := Null]]
  }

  predicate Clears(cur: TcbId, f: Context, n: CNodeId, s: Word, k: Kernel, k': Kernel) {
    && f.tag.labelId == CNodes.LABEL_DELETE
    && Controls(k, cur, f.Mr(0), n) && f.Mr(1) == s
    && n in k.cnodes && s < CNODE_SLOTS
    && k'.cnodes == k.cnodes[n := k.cnodes[n][s := Null]]
  }

  /** `m` has the nodes of `k`, and perhaps new empty ones. */
  ghost predicate NodesAdded(k: Kernel, m: map<CNodeId, CNode>) {
    && k.cnodes.Keys <= m.Keys
    && forall n | n in m :: m[n] == if n in k.cnodes then k.cnodes[n] else EmptyCNode()
  }

  /** A capability to a new object in the thread's own CSpace. */
  ghost predicate Endows(cur: TcbId, f: Context, w: SlotWrite, k: Kernel, k': Kernel) {
    && CanFill(k, w) && CSpaceIs(k, cur, w.node) && f.Mr(2) == w.slot && NamesNew(k, k', w.cap)
    && w.node in k'.cnodes && k'.cnodes[w.node] == k.cnodes[w.node][w.slot := w.cap]
    && NodesAdded(k, k'.cnodes[w.node := k.cnodes[w.node]])
  }

  ghost predicate Writes(x: SlotEffect, cur: TcbId, f: Context, k: Kernel, k': Kernel) {
    match x
    case Untouched => k'.cnodes == k.cnodes
    case Granted(to, w) => Grants(cur, f, to, w, k, k')
    case Collected(from, w) => Collects(cur, f, from, w, k, k')
    case Installed(w, source, from) => Installs(cur, f, w, source, from, k, k')
    case Relocated(w, from) => Relocates(cur, f, w, from, k, k')
    case Cleared(n, s) => Clears(cur, f, n, s, k, k')
    case Endowed(w) => Endows(cur, f, w, k, k')
  }

  predicate WrittenBy(n: Word, x: SlotEffect) {
    match x
    case Untouched => true
    case Granted(_, _) => n == SEND || n == NB_SEND || n == CALL || n == REPLY
    case Collected(_, _) => n == RECV
    case Installed(_, _, _) | Relocated(_, _) | Cleared(_, _) => n == CNODE_INVOKE
    case Endowed(_) => n == UNTYPED_RETYPE
  }

  /** Call `n` has written the slots in some way it can. */
  ghost predicate WritesSlots(n: Word, cur: TcbId, f: Context, k: Kernel, k': Kernel) {
    exists x :: Writes(x, cur, f, k, k') && WrittenBy(n, x)
  }

  lemma Unwritten(n: Word, cur: TcbId, f: Context, k: Kernel, k': Kernel)
    requires k'.cnodes == k.cnodes
    ensures WritesSlots(n, cur, f, k, k')
  {
    assert Writes(Untouched, cur, f, k, k');
  }

  // ------------------------------------------------------------------- transfers

  /** The capability a message attaches is in the sender's CSpace and carries GRANT. */
  lemma ExtraCapHeld(k: Kernel, cur: TcbId, f: Context)
    ensures var r := ExtractExtraCap(k, cur, f);
            r.Success? && r.value.Some? ==>
              && f.tag.extraCaps == 1 && LookupCap(k, cur, f.Mr(1)) == Success(r.value.value)
              && Grant in r.value.value.Rights() && r.value.value != Null
  {
  }

  lemma TransferGrants(k: Kernel, k': Kernel, cur: TcbId, f: Context, to: TcbId, dest: Option<CPtr>,
                       extra: Option<Capability>)
    requires Rendezvous.Landed(k, k', to, dest, extra)
    requires ExtractExtraCap(k, cur, f) == Success(extra)
    requires dest.Some? ==> Registered(k, to, dest.value)
    requires f.syscall == SEND || f.syscall == NB_SEND || f.syscall == CALL || f.syscall == REPLY
    requires Partner(k, cur, f, to)
    ensures WritesSlots(f.syscall, cur, f, k, k')
  {
    ExtraCapHeld(k, cur, f);
    hide Partner;
    hide LookupCap;
    if extra.Some? {
      var x := Granted(to, SlotWrite(k.tcbs[to].cspace.value, dest.value, extra.value));
      assert Writes(x, cur, f, k, k') && WrittenBy(f.syscall, x);
    } else {
      Unwritten(f.syscall, cur, f, k, k');
    }
  }

  lemma DeliverKeepsOtherSlots(k: Kernel, m: Message, tag: MessageTag, q: seq<TcbId>)
    requires q != []
    ensures var r := DeliverToReceiver(k, m, tag, q);
            r.Success? ==> Rendezvous.Landed(k, r.value, q[0], BlockedReceiverDestSlot(k, q[0]), m.extraCap)
  {
    var dest := BlockedReceiverDestSlot(k, q[0]);
    Rendezvous.TransferLands(k, q[0], dest, m.extraCap);
    var r := DeliverToReceiver(k, m, tag, q);
    if r.Success? {
      Rendezvous.LandedFrame(k, Transfer(k, q[0], dest, m.extraCap).value, r.value, q[0], dest, m.extraCap);
    }
  }

  lemma BlockSenderSlots(k: Kernel, cur: TcbId, f: Context, m: Message, isCall: bool)
    requires m.endpoint in k.endpoints && !k.endpoints[m.endpoint].queue.RecvQueue?
    ensures BlockSender(k, cur, f, m, isCall).k.cnodes == k.cnodes
  {
    hide BlockCurrent;
  }

  lemma HandOverSlots(k: Kernel, cur: TcbId, f: Context, receiver: TcbId, slot: Option<CPtr>)
    ensures HandOver(k, cur, f, receiver, slot).k.cnodes == k.cnodes
  {
    hide SwitchTo;
  }

  /** A message that reaches the head receiver grants the capability it attaches. */
  lemma DeliverySlots(k: Kernel, k': Kernel, cur: TcbId, f: Context, m: Message, q: seq<TcbId>)
    requires f.syscall == SEND || f.syscall == NB_SEND || f.syscall == CALL
    requires q != [] && Partner(k, cur, f, q[0]) && ExtractExtraCap(k, cur, f) == Success(m.extraCap)
    requires DeliverToReceiver(k, m, f.tag, q).Success?
    requires k'.cnodes == DeliverToReceiver(k, m, f.tag, q).value.cnodes
    ensures WritesSlots(f.syscall, cur, f, k, k')
  {
    hide Partner;
    hide LookupCap;
    DeliverKeepsOtherSlots(k, m, f.tag, q);
    hide DeliverToReceiver;
    var dest := BlockedReceiverDestSlot(k, q[0]);
    Rendezvous.LandedFrame(k, DeliverToReceiver(k, m, f.tag, q).value, k', q[0], dest, m.extraCap);
    TransferGrants(k, k', cur, f, q[0], dest, m.extraCap);
  }

  lemma DecodedExtraCap(k: Kernel, cur: TcbId, f: Context)
    ensures var d := DecodeSend(k, cur, f.Mr(0), f);
            d.Success? ==> ExtractExtraCap(k, cur, f) == Success(d.value.extraCap)
    ensures var d := DecodeCall(k, cur, f.Mr(0), f);
            d.Success? ==> ExtractExtraCap(k, cur, f) == Success(d.value.extraCap)
  {
    hide LookupCap;
  }

  lemma SendSlots(k: Kernel, cur: TcbId, f: Context, nonblocking: bool)
    requires f.syscall == if nonblocking then NB_SEND else SEND
    ensures WritesSlots(f.syscall, cur, f, k, Send(k, cur, f.Mr(0), f, nonblocking).k)
  {
    DecodedExtraCap(k, cur, f);
    hide DecodeSend;
    hide DeliverToReceiver;
    hide BlockSender;
    hide MakeReady;
    hide WritesSlots;
    var o := Send(k, cur, f.Mr(0), f, nonblocking);
    var d := DecodeSend(k, cur, f.Mr(0), f);
    if d.Success? && k.endpoints[d.value.endpoint].queue.RecvQueue? {
      var q := k.endpoints[d.value.endpoint].queue.receivers;
      if q != [] && DeliverToReceiver(k, d.value, f.tag, q).Success? {
        DeliverySlots(k, o.k, cur, f, d.value, q);
      } else {
        Unwritten(f.syscall, cur, f, k, o.k);
      }
    } else {
      if d.Success? { BlockSenderSlots(k, cur, f, d.value, false); }
      Unwritten(f.syscall, cur, f, k, o.k);
    }
  }

  lemma CallSlots(k: Kernel, cur: TcbId, f: Context)
    requires f.syscall == CALL
    ensures WritesSlots(CALL, cur, f, k, Call(k, cur, f.Mr(0), f).k)
  {
    DecodedExtraCap(k, cur, f);
    hide DecodeCall;
    hide DeliverToReceiver;
    hide BlockSender;
    hide HandOver;
    hide WritesSlots;
    var o := Call(k, cur, f.Mr(0), f);
    var d := DecodeCall(k, cur, f.Mr(0), f);
    if d.Success? && k.endpoints[d.value.endpoint].queue.RecvQueue? {
      var q := k.endpoints[d.value.endpoint].queue.receivers;
      if q != [] && DeliverToReceiver(k, d.value, f.tag, q).Success? {
        HandOverSlots(DeliverToReceiver(k, d.value, f.tag, q).value, cur, f, q[0], d.value.replyDestSlot);
        DeliverySlots(k, o.k, cur, f, d.value, q);
      } else {
        Unwritten(CALL, cur, f, k, o.k);
      }
    } else {
      if d.Success? { BlockSenderSlots(k, cur, f, d.value, true); }
      Unwritten(CALL, cur, f, k, o.k);
    }
  }

  lemma RecvSlots(k: Kernel, cur: TcbId, f: Context)
    requires f.syscall == RECV
    ensures WritesSlots(RECV, cur, f, k, Recv(k, cur, f.Mr(0), f).k)
  {
    hide LookupCap;
    hide ReceiveFromSender;
    hide WritesSlots;
    var o := Recv(k, cur, f.Mr(0), f);
    var d := DecodeRecv(k, cur, f.Mr(0), f);
    if d.Success? && k.endpoints[d.value.endpoint].queue.SendQueue? && k.endpoints[d.value.endpoint].queue.senders != [] {
      var Reception(id, dest) := d.value;
      assert Partner(k, cur, f, k.endpoints[id].queue.senders[0]);
      CollectSlots(k, cur, f, id, dest, k.endpoints[id].queue.senders);
    } else {
      Unwritten(RECV, cur, f, k, o.k);
    }
  }

  lemma CollectSlots(k: Kernel, cur: TcbId, f: Context, id: EndpointId, dest: Option<CPtr>, q: seq<TcbId>)
    requires q != [] && dest == (if f.tag.extraCaps == 1 then Some(f.Mr(1)) else None) && Partner(k, cur, f, q[0])
    ensures WritesSlots(RECV, cur, f, k, ReceiveFromSender(k, cur, f, id, dest, q).k)
  {
    hide Partner;
    var s := q[0];
    var k' := ReceiveFromSender(k, cur, f, id, dest, q).k;
    if s in k.tcbs && k.tcbs[s].state.BlockedSend? && Transfer(k, cur, dest, k.tcbs[s].state.extraCap).Success? {
      var st := k.tcbs[s].state;
      Rendezvous.TransferLands(k, cur, dest, st.extraCap);
      var k1 := Transfer(k, cur, dest, st.extraCap).value;
      Rendezvous.ReleaseKeepsSlots(k1, cur, id, q, st.isCall, st.replyDestSlot);
      Rendezvous.LandedFrame(k, k1, k', cur, dest, st.extraCap);
      LandedCollects(k, k', cur, f, s, dest);
    } else {
      Unwritten(RECV, cur, f, k, k');
    }
  }

  lemma LandedCollects(k: Kernel, k': Kernel, cur: TcbId, f: Context, s: TcbId, dest: Option<CPtr>)
    requires s in k.tcbs && k.tcbs[s].state.BlockedSend? && Partner(k, cur, f, s)
    requires dest == (if f.tag.extraCaps == 1 then Some(f.Mr(1)) else None)
    requires Rendezvous.Landed(k, k', cur, dest, k.tcbs[s].state.extraCap)
    ensures WritesSlots(RECV, cur, f, k, k')
  {
    hide Partner;
    var extra := k.tcbs[s].state.extraCap;
    if extra.Some? && extra.value != Null {
      assert Writes(Collected(s, SlotWrite(k.tcbs[cur].cspace.value, dest.value, extra.value)), cur, f, k, k');
    } else {
      if extra.Some? {
        var n := k.tcbs[cur].cspace.value;
        assert k.cnodes[n][dest.value := Null] == k.cnodes[n];
      }
      Unwritten(RECV, cur, f, k, k');
    }
  }

  lemma AnswerKeepsSlots(k: Kernel, cur: TcbId, f: Context, t: TcbId, payload: Payload)
    ensures AnswerCaller(k, cur, f, t, payload).k.cnodes == k.cnodes
  {
    assert OnlyThreads(k, SetReplyTo(k, cur, None));
  }

  lemma ReplySlots(k: Kernel, cur: TcbId, f: Context)
    requires f.syscall == REPLY
    ensures WritesSlots(REPLY, cur, f, k, Reply(k, cur, f).k)
  {
    var o := Reply(k, cur, f);
    var d := DecodeReply(k, cur, f);
    if d.Success? && Transfer(k, d.value.target, BlockedCallerReplyDestSlot(k, d.value.target), d.value.extraCap).Success? {
      var Answer(t, extra, payload) := d.value;
      var dest := BlockedCallerReplyDestSlot(k, t);
      Rendezvous.TransferLands(k, t, dest, extra);
      var k1 := Transfer(k, t, dest, extra).value;
      AnswerKeepsSlots(k1, cur, f, t, payload);
      hide AnswerCaller;
      hide Transfer;
      Rendezvous.LandedFrame(k, k1, o.k, t, dest, extra);
      TransferGrants(k, o.k, cur, f, t, dest, extra);
    } else {
      Unwritten(REPLY, cur, f, k, o.k);
    }
  }

  lemma BlockWaiterSlots(k: Kernel, cur: TcbId, f: Context, id: NotificationId)
    requires id in k.notifications
    ensures BlockWaiter(k, cur, f, id).k.cnodes == k.cnodes
  {
    var n := k.notifications[id];
    if k.ready != [] && HasRoom(n.waiters) {
      var k2 := SetState(SetSignals(k, id, n.signals, PushBack(n.waiters, cur)), cur, BlockedWait(id));
      assert OnlyThreads(k2, Park(k2, f).k);
    }
  }

  lemma WakeWaiterSlots(k: Kernel, id: NotificationId, badge: Word)
    requires id in k.notifications && k.notifications[id].waiters != []
    ensures WakeWaiter(k, id, badge).cnodes == k.cnodes
  {
    hide Or;
    var n := k.notifications[id];
    var k1 := SetSignals(k, id, 0, n.waiters[1..]);
    assert OnlyThreads(k1, WakeWaiter(k, id, badge));
  }

  lemma SignalSlots(k: Kernel, cur: TcbId, cptr: CPtr, f: Context)
    ensures Signal(k, cur, cptr, f).k.cnodes == k.cnodes
  {
    hide Or;
    hide LookupCap;
    var d := ResolveNotification(k, cur, cptr, {Write});
    if d.Success? && d.value.notification in k.notifications && k.notifications[d.value.notification].waiters != [] {
      WakeWaiterSlots(k, d.value.notification, d.value.badge);
      hide WakeWaiter;
    }
  }

  lemma WaitSlots(k: Kernel, cur: TcbId, cptr: CPtr, f: Context)
    ensures Wait(k, cur, cptr, f).k.cnodes == k.cnodes
  {
    hide LookupCap;
    var d := ResolveNotification(k, cur, cptr, {Read});
    if d.Success? && d.value.notification in k.notifications {
      BlockWaiterSlots(k, cur, f, d.value.notification);
      hide BlockWaiter;
    }
  }

  lemma PollSlots(k: Kernel, cur: TcbId, cptr: CPtr, f: Context)
    ensures Poll(k, cur, cptr, f).k.cnodes == k.cnodes
  {
    var d := ResolveNotification(k, cur, cptr, {Read});
    hide ResolveNotification;
    hide ReplySuccess;
    if d.Success? && d.value.notification in k.notifications {
      var n := k.notifications[d.value.notification];
      assert SetSignals(k, d.value.notification, 0, n.waiters).cnodes == k.cnodes;
      hide SetSignals;
    }
  }

  // -------------------------------------------------------------- administration

  /** A lookup never yields the empty capability. */
  lemma ReadSlotInSlot(k: Kernel, n: CNodeId, s: Word)
    ensures var r := CNodes.ReadSlot(k, n, s); r.Success? ==> InSlot(k, n, s, r.value)
  {
  }

  lemma FillSlotFills(k: Kernel, n: CNodeId, s: Word, c: Capability)
    ensures var r := CNodes.FillSlot(k, n, s, c); r.Success? && c != Null ==> Fills(k, r.value, SlotWrite(n, s, c))
  {
  }

  /** Minting never widens: the result names the same object with a subset of the rights. */
  lemma AttenuateNarrows(source: Capability, rights: Rights, badge: Word)
    ensures var r := CNodes.Attenuate(source, rights, badge);
            && (r.Success? <==> !source.Null? && !source.CNodeCap? && !source.ReplyCap?)
            && (r.Success? ==>
                  && r.value != Null && Names(r.value) == Names(source) && r.value.Rights() == rights
                  && (rights <= source.Rights() ==> Derived(r.value, source)))
  {
  }

  lemma MintSlots(k: Kernel, cur: TcbId, f: Context, target: CNodeId)
    requires Controls(k, cur, f.Mr(0), target)
    ensures var r := CNodes.Mint(k, target, f.Mr(1), f.Mr(2), f.Mr(3));
            r.Success? ==> WritesSlots(CNODE_INVOKE, cur, f, k, r.value)
  {
    hide LookupCap;
    hide RightsOfWord;
    var r := CNodes.Mint(k, target, f.Mr(1), f.Mr(2), f.Mr(3));
    if r.Success? {
      var source := CNodes.ReadSlot(k, target, f.Mr(1)).value;
      var rights := RightsOfWord(f.Mr(3));
      ReadSlotInSlot(k, target, f.Mr(1));
      AttenuateNarrows(source, rights, f.Mr(3) / 256);
      var minted := CNodes.Attenuate(source, rights, f.Mr(3) / 256).value;
      FillSlotFills(k, target, f.Mr(2), minted);
      assert Writes(Installed(SlotWrite(target, f.Mr(2), minted), target, f.Mr(1)), cur, f, k, r.value);
    }
  }

  lemma CopySlots(k: Kernel, cur: TcbId, f: Context, target: CNodeId)
    requires Controls(k, cur, f.Mr(0), target)
    ensures var r := CNodes.Copy(k, target, f.Mr(1), f.Mr(2));
            r.Success? ==> WritesSlots(CNODE_INVOKE, cur, f, k, r.value)
  {
    hide LookupCap;
    var r := CNodes.Copy(k, target, f.Mr(1), f.Mr(2));
    if r.Success? {
      var source := CNodes.ReadSlot(k, target, f.Mr(1)).value;
      ReadSlotInSlot(k, target, f.Mr(1));
      FillSlotFills(k, target, f.Mr(2), source);
      assert Writes(Installed(SlotWrite(target, f.Mr(2), source), target, f.Mr(1)), cur, f, k, r.value);
    }
  }

  lemma CopyCrossSlots(k: Kernel, cur: TcbId, f: Context, target: CNodeId)
    requires Controls(k, cur, f.Mr(0), target)
    ensures var r := CNodes.CopyCross(k, cur, target, f.Mr(1), f.Mr(2), f.Mr(3));
            r.Success? ==> WritesSlots(CNODE_INVOKE, cur, f, k, r.value)
  {
    var r := CNodes.CopyCross(k, cur, target, f.Mr(1), f.Mr(2), f.Mr(3));
    if r.Success? {
      var sourceId := CNodes.ResolveCNode(k, cur, f.Mr(1)).value;
      assert Controls(k, cur, f.Mr(1), sourceId);
      hide LookupCap;
      var source := CNodes.ReadSlot(k, sourceId, f.Mr(2)).value;
      ReadSlotInSlot(k, sourceId, f.Mr(2));
      FillSlotFills(k, target, f.Mr(3), source);
      assert Writes(Installed(SlotWrite(target, f.Mr(3), source), sourceId, f.Mr(2)), cur, f, k, r.value);
    }
  }

  lemma MoveSlots(k: Kernel, cur: TcbId, f: Context, target: CNodeId)
    requires Controls(k, cur, f.Mr(0), target) && f.tag.labelId == CNodes.LABEL_MOVE
    ensures var r := CNodes.MoveCap(k, target, f.Mr(1), f.Mr(2));
            r.Success? ==> WritesSlots(CNODE_INVOKE, cur, f, k, r.value)
  {
    hide LookupCap;
    var r := CNodes.MoveCap(k, target, f.Mr(1), f.Mr(2));
    if r.Success? {
      var source := CNodes.ReadSlot(k, target, f.Mr(1)).value;
      ReadSlotInSlot(k, target, f.Mr(1));
      FillSlotFills(k, target, f.Mr(2), source);
      var k1 := CNodes.FillSlot(k, target, f.Mr(2), source).value;
      assert r.value == SetSlot(k1, target, f.Mr(1), Null);
      assert r.value.cnodes
          == k.cnodes[target := k.cnodes[target][f.Mr(2) := source][f.Mr(1) := Null]];
      assert Writes(Relocated(SlotWrite(target, f.Mr(2), source), f.Mr(1)), cur, f, k, r.value);
    }
  }

  lemma DeleteSlots(k: Kernel, cur: TcbId, f: Context, target: CNodeId)
    requires Controls(k, cur, f.Mr(0), target) && f.tag.labelId == CNodes.LABEL_DELETE
    ensures var r := CNodes.Delete(k, target, f.Mr(1));
            r.Success? ==> WritesSlots(CNODE_INVOKE, cur, f, k, r.value)
  {
    hide LookupCap;
    var r := CNodes.Delete(k, target, f.Mr(1));
    if r.Success? {
      assert Writes(Cleared(target, f.Mr(1)), cur, f, k, r.value);
    }
  }

  lemma CNodeInvokeSlots(k: Kernel, cur: TcbId, f: Context)
    ensures WritesSlots(CNODE_INVOKE, cur, f, k, CNodes.Invoke(k, cur, f.Mr(0), f).k)
  {
    var k' := CNodes.Invoke(k, cur, f.Mr(0), f).k;
    var d := CNodes.ResolveCNode(k, cur, f.Mr(0));
    if d.Success? && CNodes.Operate(k, cur, d.value, f).Success? {
      var op := f.tag.labelId;
      assert Controls(k, cur, f.Mr(0), d.value);
      assert CNodes.Operate(k, cur, d.value, f) == Success(k');
      OperateSlots(k, cur, f, d.value);
    } else {
      Unwritten(CNODE_INVOKE, cur, f, k, k');
    }
  }

  lemma OperateSlots(k: Kernel, cur: TcbId, f: Context, target: CNodeId)
    requires Controls(k, cur, f.Mr(0), target)
    ensures var r := CNodes.Operate(k, cur, target, f);
            r.Success? ==> WritesSlots(CNODE_INVOKE, cur, f, k, r.value)
  {
    hide WritesSlots;
    hide Controls;
    var op := f.tag.labelId;
    if op == CNodes.LABEL_MINT {
      MintSlots(k, cur, f, target);
    } else if op == CNodes.LABEL_COPY {
      CopySlots(k, cur, f, target);
    } else if op == CNodes.LABEL_MOVE {
      MoveSlots(k, cur, f, target);
    } else if op == CNodes.LABEL_DELETE {
      DeleteSlots(k, cur, f, target);
    } else if op == CNodes.LABEL_COPY_CROSS {
      CopyCrossSlots(k, cur, f, target);
    }
  }

  /** The nodes stay when an object is made, up to a new empty one. */
  lemma NewObjectAddsNodes(k: Kernel, u: UntypedId, t: ObjectType)
    requires u in k.untypeds
    ensures var c := Admin.NewObject(k, u, t);
            && (c.Made? ==> NodesAdded(k, c.k.cnodes))
            && (c.NotMade? ==> c.k.cnodes == k.cnodes)
  {
    hide Admin.NewFrame;
    hide Admin.NewVSpace;
    hide NodesAdded;
    hide Pool.AllocIndex;
    var c := Admin.NewObject(k, u, t);
    NewVSpaceIsNamed(k);
    NewFrameIsNamed(k, u, Small);
    NewFrameIsNamed(k, u, Mega);
    if t.CNodeType? && c.Made? {
      NewNodeIsAdded(k, c.cap.cnode);
    } else {
      SameNodes(k, c);
    }
  }

  /** The new object is named by the capability to it. */
  lemma NewObjectIsNamed(k: Kernel, u: UntypedId, t: ObjectType)
    requires u in k.untypeds
    ensures var c := Admin.NewObject(k, u, t); c.Made? ==> NamesNew(k, c.k, c.cap)
  {
    hide Admin.NewFrame;
    hide Admin.NewVSpace;
    hide Pool.AllocIndex;
    match t
    case VSpaceType => NewVSpaceIsNamed(k);
    case FrameSmallType => NewFrameIsNamed(k, u, Small);
    case FrameMegaType => NewFrameIsNamed(k, u, Mega);
    case _ =>
  }

  lemma NewNodeIsAdded(k: Kernel, i: CNodeId)
    requires i !in k.cnodes
    ensures NodesAdded(k, k.cnodes[i := EmptyCNode()])
  {
  }

  lemma SameNodes(k: Kernel, c: Admin.Created)
    ensures c.Made? && c.k.cnodes == k.cnodes ==> NodesAdded(k, c.k.cnodes)
  {
  }

  lemma NewVSpaceIsNamed(k: Kernel)
    ensures var c := Admin.NewVSpace(k);
            && (c.Made? ==> NamesNew(k, c.k, c.cap))
            && (c.Made? || c.NotMade? ==> c.k.cnodes == k.cnodes)
  {
  }

  lemma AddFrameIsNamed(k: Kernel, paddr: Address, size: FrameSize)
    ensures var c := Admin.AddFrame(k, paddr, size);
            && (c.Made? ==> c.cap.FrameCap? && c.cap.frame !in k.frames && c.cap.frame in c.k.frames)
            && !c.MakePanic? && c.k.cnodes == k.cnodes
  {
  }

  lemma NewFrameIsNamed(k: Kernel, u: UntypedId, size: FrameSize)
    requires u in k.untypeds
    ensures var c := Admin.NewFrame(k, u, size);
            && (c.Made? ==> NamesNew(k, c.k, c.cap))
            && (c.Made? || c.NotMade? ==> c.k.cnodes == k.cnodes)
  {
    var b := BumpUntyped(k.untypeds[u], size.Bytes(), size.Bytes());
    hide BumpUntyped;
    hide Admin.AddFrame;
    if b.Bumped? {
      AddFrameIsNamed(k.(untypeds := k.untypeds[u := b.untyped]), b.paddr, size);
    }
  }

  lemma RetypeSlots(k: Kernel, cur: TcbId, f: Context)
    ensures WritesSlots(UNTYPED_RETYPE, cur, f, k, Admin.UntypedRetype(k, cur, f.Mr(0), f).k)
  {
    hide LookupCap;
    var k' := Admin.UntypedRetype(k, cur, f.Mr(0), f).k;
    var d := Admin.DecodeRetype(k, cur, f.Mr(0), f);
    if d.Success? {
      var r := d.value;
      NewObjectIsNamed(k, r.untyped, r.objectType);
      NewObjectAddsNodes(k, r.untyped, r.objectType);
      var c := Admin.NewObject(k, r.untyped, r.objectType);
      hide Admin.NewObject;
      if c.Made? {
        EndowedSlots(k, c.k, cur, f, r, c.cap);
      } else {
        Unwritten(UNTYPED_RETYPE, cur, f, k, k');
      }
    } else {
      Unwritten(UNTYPED_RETYPE, cur, f, k, k');
    }
  }

  lemma EndowedSlots(k: Kernel, k1: Kernel, cur: TcbId, f: Context, r: Admin.Retyping, cap: Capability)
    requires Admin.DecodeRetype(k, cur, f.Mr(0), f) == Success(r)
    requires NamesNew(k, k1, cap) && NodesAdded(k, k1.cnodes)
    requires r.untyped in k1.untypeds && k1.untypeds[r.untyped].remaining > 0
    ensures WritesSlots(UNTYPED_RETYPE, cur, f, k,
                        Admin.SpendBudget(SetSlot(k1, r.cnode, r.dest, cap), r.untyped))
  {
    hide LookupCap;
    var k' := Admin.SpendBudget(SetSlot(k1, r.cnode, r.dest, cap), r.untyped);
    var w := SlotWrite(r.cnode, r.dest, cap);
    assert k'.cnodes[w.node := k.cnodes[w.node]] == k1.cnodes;
    SpendKeepsNames(k, k1, r, cap);
    assert Writes(Endowed(w), cur, f, k, k');
  }

  lemma SpendKeepsNames(k: Kernel, k1: Kernel, r: Admin.Retyping, cap: Capability)
    requires NamesNew(k, k1, cap) && r.cnode in k1.cnodes && r.dest < CNODE_SLOTS
    requires r.untyped in k1.untypeds && k1.untypeds[r.untyped].remaining > 0
    ensures NamesNew(k, Admin.SpendBudget(SetSlot(k1, r.cnode, r.dest, cap), r.untyped), cap)
  {
  }

  lemma OtherAdministrationSlots(k: Kernel, cur: TcbId, tr: Trap)
    ensures Admin.Configure(k, cur, tr.frame.Mr(0), tr.frame).k.cnodes == k.cnodes
    ensures Frames.Invoke(k, cur, tr.frame.Mr(0), tr.frame, tr.walk).k.cnodes == k.cnodes
  {
    hide Admin.DecodeConfigure;
  }

  lemma YieldSlots(k: Kernel, cur: TcbId, f: Context)
    ensures YieldNow(k, cur, f).k.cnodes == k.cnodes
  {
    assert OnlyThreads(MakeReady(k, cur), YieldNow(k, cur, f).k);
  }

  // ------------------------------------------------------------------ every call

  lemma HandlerSlots(k: Kernel, cur: TcbId, tr: Trap)
    ensures WritesSlots(tr.frame.syscall, cur, tr.frame, k, Handle(k, cur, tr).k)
  {
    hide WritesSlots;
    hide Send;
    hide Recv;
    hide Call;
    hide Reply;
    hide Signal;
    hide Wait;
    hide Poll;
    hide YieldNow;
    hide CNodes.Invoke;
    hide Admin.UntypedRetype;
    hide Admin.Configure;
    hide Frames.Invoke;
    var f := tr.frame;
    var n, cptr := f.syscall, f.Mr(0);
    var k' := Handle(k, cur, tr).k;
    if n == SEND {
      SendSlots(k, cur, f, false);
    } else if n == NB_SEND {
      SendSlots(k, cur, f, true);
    } else if n == RECV {
      RecvSlots(k, cur, f);
    } else if n == CALL {
      CallSlots(k, cur, f);
    } else if n == REPLY {
      ReplySlots(k, cur, f);
    } else if n == CNODE_INVOKE {
      CNodeInvokeSlots(k, cur, f);
    } else if n == UNTYPED_RETYPE {
      RetypeSlots(k, cur, f);
    } else {
      SignalSlots(k, cur, cptr, f);
      WaitSlots(k, cur, cptr, f);
      PollSlots(k, cur, cptr, f);
      OtherAdministrationSlots(k, cur, tr);
      YieldSlots(k, cur, f);
      Unwritten(n, cur, f, k, k');
    }
  }
}
