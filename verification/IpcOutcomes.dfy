/** What each IPC call that is not refused does, read off the capability slots, the registers and the
    queues: to the threads, the frame, the slots and the signals. */
module IpcOutcomes {
  import opened Words
  import opened Wrappers
  import opened Capabilities
  import opened Objects
  import opened State
  import opened Ipc
  import opened IpcEffects
  import opened Invariants
  import opened Effects
  import opened Syscalls
  import opened Designation
  import opened IpcRefusals
  import AdminEffects
  import Delivery
  import Rendezvous
  import Service
  import Signals
  import SlotEffects

  /** The capability of a message, if it has one, has landed in the slot the other side named. */
  ghost predicate Lands(k: Kernel, k': Kernel, t: TcbId, dest: Option<CPtr>, extra: Option<Capability>) {
    Rendezvous.Landed(k, k', t, dest, extra)
  }

  /** The head receiver `r` gets message `m` with tag `tag` in the registers it saved. */
  function Delivered(k: Kernel, r: TcbId, m: Message, tag: MessageTag): Context
    requires r in k.tcbs
  {
    k.tcbs[r].context.(mrs := [m.badge, m.payload.mr1, m.payload.mr2, m.payload.mr3], tag := tag)
  }

  /** `Send` and `NBSend` wake the head receiver with the message; without one, `Send` waits with it and
      `NBSend` does nothing. */
  ghost predicate SendDone(k: Kernel, cur: TcbId, f: Context, blocks: bool, o: Outcome)
    requires Designated(k, cur, f.mrs[0]).EndpointCap?
  {
    var m := Offered(k, cur, f);
    var q := QueueAt(k, Receivers(m.endpoint));
    && o.k.notifications == k.notifications
    && if q != [] then
         && q[0] in k.tcbs && Does(Woken(Receivers(m.endpoint), q[0], Delivered(k, q[0], m, f.tag)), k, f, o.k, o.frame)
         && Lands(k, o.k, q[0], NamedSlot(k.tcbs[q[0]].state), m.extraCap) && o.frame == ReplySuccess(f)
       else if blocks then
         && Does(Parked(Senders(m.endpoint), BlockedSend(m.endpoint, m.badge, false, m.extraCap, None)),
                 k, f, o.k, o.frame)
         && o.k.cnodes == k.cnodes
       else o.k == k && o.frame == ReplySuccess(f)
  }

  /** `Call` hands over to the head receiver with the message; without one it waits with it. */
  ghost predicate CallDone(k: Kernel, cur: TcbId, f: Context, o: Outcome)
    requires Designated(k, cur, f.mrs[0]).EndpointCap?
  {
    var m := Offered(k, cur, f);
    var q := QueueAt(k, Receivers(m.endpoint));
    && o.k.notifications == k.notifications
    && if q != [] then
         && q[0] in k.tcbs
         && Does(Called(m.endpoint, q[0], m.replyDestSlot, Delivered(k, q[0], m, f.tag)), k, f, o.k, o.frame)
         && Lands(k, o.k, q[0], NamedSlot(k.tcbs[q[0]].state), m.extraCap)
       else
         && Does(Parked(Senders(m.endpoint), BlockedSend(m.endpoint, m.badge, true, m.extraCap, m.replyDestSlot)),
                 k, f, o.k, o.frame)
         && o.k.cnodes == k.cnodes
  }

  /** `Recv` takes the message of the head sender, which is then ready, or owed a reply; without one it
      waits. */
  ghost predicate RecvDone(k: Kernel, cur: TcbId, f: Context, o: Outcome)
    requires Designated(k, cur, f.mrs[0]).EndpointCap?
  {
    var e := Designated(k, cur, f.mrs[0]).endpoint;
    var q := QueueAt(k, Senders(e));
    && o.k.notifications == k.notifications
    && if q != [] then
         && q[0] in k.tcbs && k.tcbs[q[0]].state.BlockedSend?
         && var (st, c) := (k.tcbs[q[0]].state, k.tcbs[q[0]].context);
            && Does(if st.isCall then AcceptedCall(e, q[0], st.replyDestSlot) else Woken(Senders(e), q[0], c),
                    k, f, o.k, o.frame)
            && Lands(k, o.k, cur, OfferedSlot(f), st.extraCap)
            && o.frame == f.(mrs := [st.badge, if st.extraCap.Some? then 0 else c.mrs[1], c.mrs[2], c.mrs[3]],
                             tag := c.tag.(error := false))
       else
         && Does(Parked(Receivers(e), BlockedRecv(e, OfferedSlot(f))), k, f, o.k, o.frame)
         && o.k.cnodes == k.cnodes
  }

  /** `Reply` runs the caller with the answer. */
  ghost predicate ReplyDone(k: Kernel, cur: TcbId, f: Context, o: Outcome)
    requires cur in k.tcbs && k.tcbs[cur].replyTo.Some?
  {
    var t := k.tcbs[cur].replyTo.value;
    && o.k.notifications == k.notifications && t in k.tcbs
    && Does(Replied(t, k.tcbs[t].context.(
              mrs := [0, if f.tag.extraCaps == 1 then 0 else f.mrs[1], f.mrs[2], f.mrs[3]], tag := f.tag)),
            k, f, o.k, o.frame)
    && Lands(k, o.k, t, NamedSlot(k.tcbs[t].state),
             if f.tag.extraCaps == 1 then Some(Designated(k, cur, f.mrs[1])) else None)
  }

  /** The kernel with other signals pending at `n`. */
  function WithSignals(k: Kernel, n: NotificationId, signals: Word): Kernel
    requires n in k.notifications
  {
    k.(notifications := k.notifications[n := k.notifications[n].(signals := signals)])
  }

  /** `Signal` wakes the head waiter with the pending bits and those of the badge, or leaves them all
      pending. */
  ghost predicate SignalDone(k: Kernel, cur: TcbId, f: Context, o: Outcome)
    requires Designated(k, cur, f.mrs[0]).NotificationCap?
    requires Designated(k, cur, f.mrs[0]).notification in k.notifications
  {
    var (n, badge) := (Designated(k, cur, f.mrs[0]).notification, Designated(k, cur, f.mrs[0]).badge);
    var (signals, q) := (k.notifications[n].signals, k.notifications[n].waiters);
    && o.k.cnodes == k.cnodes && o.frame == ReplySuccess(f)
    && if q != [] then
         && q[0] in k.tcbs
         && Does(Woken(Waiters(n), q[0], k.tcbs[q[0]].context.SetMr(0, Or(signals, badge))), k, f, o.k, o.frame)
         && o.k.notifications == k.notifications[n := Notification(0, q[1..])]
       else o.k == WithSignals(k, n, Or(signals, badge))
  }

  /** `Wait` takes the pending bits, or waits if there are none. */
  ghost predicate WaitDone(k: Kernel, cur: TcbId, f: Context, o: Outcome)
    requires Designated(k, cur, f.mrs[0]).NotificationCap?
    requires Designated(k, cur, f.mrs[0]).notification in k.notifications
  {
    var n := Designated(k, cur, f.mrs[0]).notification;
    var (signals, q) := (k.notifications[n].signals, k.notifications[n].waiters);
    if signals != 0 then o.k == WithSignals(k, n, 0) && o.frame == ReplySuccess(f.SetMr(0, signals))
    else
      && Does(Parked(Waiters(n), BlockedWait(n)), k, f, o.k, o.frame) && o.k.cnodes == k.cnodes
      && o.k.notifications == k.notifications[n := Notification(0, q + [cur])]
  }

  /** `Poll` takes the pending bits, none if there are none. */
  predicate PollDone(k: Kernel, cur: TcbId, f: Context, o: Outcome)
    requires Designated(k, cur, f.mrs[0]).NotificationCap?
    requires Designated(k, cur, f.mrs[0]).notification in k.notifications
  {
    var n := Designated(k, cur, f.mrs[0]).notification;
    o.k == WithSignals(k, n, 0) && o.frame == ReplySuccess(f.SetMr(0, k.notifications[n].signals))
  }

  /** `Yield` queues the caller behind the ready threads and runs the first of them. */
  ghost predicate YieldDone(k: Kernel, f: Context, o: Outcome) {
    && Does(Parked(ReadyQueue, Ready), k, f, o.k, o.frame)
    && o.k.cnodes == k.cnodes && o.k.notifications == k.notifications
  }

  // ----------------------------------------------------------------------- send, call

  lemma SendOutcome(k: Kernel, f: Context, nonblocking: bool)
    requires Inv(k) && SendRefusal(k, k.current.value, f, !nonblocking).None?
    ensures var cur := k.current.value;
            && Designated(k, cur, f.mrs[0]).EndpointCap?
            && SendDone(k, cur, f, !nonblocking, Send(k, cur, f.mrs[0], f, nonblocking))
  {
    hide OfferRefusal;
    hide LandRefusal;
    hide DecodeSend;
    hide Designated;
    hide Placed;
    hide Linked;
    hide PoolsBounded;
    hide Wakes;
    hide Parks;
    hide Rendezvous.Landed;
    hide BlockSender;
    hide DeliverToReceiver;
    hide MakeReady;
    var cur := k.current.value;
    SendStatus(k, f, nonblocking);
    OfferIsExact(k, cur, f);
    Signals.SendSignals(k, cur, f.mrs[0], f, nonblocking);
    var m := Offered(k, cur, f);
    Service.SendWakesHead(k, f, nonblocking);
    match k.endpoints[m.endpoint].queue
    case RecvQueue(q) =>
      HeadOf(k, Receivers(m.endpoint));
      Delivery.SendLands(k, cur, f, nonblocking, m, q);
    case _ =>
      BlockSenderEffect(k, f, m, false);
      SlotEffects.BlockSenderSlots(k, cur, f, m, false);
  }

  lemma CallOutcome(k: Kernel, f: Context)
    requires Inv(k) && CallRefusal(k, k.current.value, f).None?
    ensures var cur := k.current.value;
            && Designated(k, cur, f.mrs[0]).EndpointCap?
            && CallDone(k, cur, f, Call(k, cur, f.mrs[0], f))
  {
    hide OfferRefusal;
    hide LandRefusal;
    hide DecodeCall;
    hide Designated;
    hide Placed;
    hide Linked;
    hide PoolsBounded;
    hide HandsOver;
    hide Parks;
    hide Rendezvous.Landed;
    hide BlockSender;
    hide DeliverToReceiver;
    hide HandOver;
    var cur := k.current.value;
    CallStatus(k, f);
    OfferIsExact(k, cur, f);
    Signals.CallSignals(k, cur, f.mrs[0], f);
    var m := Offered(k, cur, f);
    Service.CallRunsHead(k, f);
    match k.endpoints[m.endpoint].queue
    case RecvQueue(q) =>
      HeadOf(k, Receivers(m.endpoint));
      Delivery.CallLands(k, cur, f, m, q);
    case _ =>
      BlockSenderEffect(k, f, m, true);
      SlotEffects.BlockSenderSlots(k, cur, f, m, true);
  }

  // ------------------------------------------------------------------------ recv, reply

  lemma RecvOutcome(k: Kernel, f: Context)
    requires Inv(k) && RecvRefusal(k, k.current.value, f).None?
    ensures var cur := k.current.value;
            && Designated(k, cur, f.mrs[0]).EndpointCap?
            && RecvDone(k, cur, f, Recv(k, cur, f.mrs[0], f))
  {
    hide EndpointRefusal;
    hide LandRefusal;
    hide DecodeRecv;
    hide Designated;
    hide Placed;
    hide Linked;
    hide PoolsBounded;
    hide Wakes;
    hide AcceptsCall;
    hide Parks;
    hide Rendezvous.Landed;
    hide BlockReceiver;
    hide ReceiveFromSender;
    var cur := k.current.value;
    RecvStatus(k, f);
    ReceptionIsExact(k, cur, f);
    Signals.RecvSignals(k, cur, f.mrs[0], f);
    var e := Designated(k, cur, f.mrs[0]).endpoint;
    Service.RecvReleasesHead(k, f);
    match k.endpoints[e].queue
    case SendQueue(q) =>
      HeadOf(k, Senders(e));
      Delivery.ReceivedFrame(k, cur, f, e, OfferedSlot(f), q);
    case _ =>
      BlockReceiverEffect(k, f, e, OfferedSlot(f));
      BlockReceiverKeepsSlots(k, cur, f, e, OfferedSlot(f));
  }

  lemma BlockReceiverKeepsSlots(k: Kernel, cur: TcbId, f: Context, e: EndpointId, dest: Option<CPtr>)
    requires e in k.endpoints && !k.endpoints[e].queue.SendQueue?
    ensures BlockReceiver(k, cur, f, e, dest).k.cnodes == k.cnodes
  {
    hide BlockCurrent;
  }

  lemma ReplyOutcome(k: Kernel, f: Context)
    requires Inv(k) && ReplyRefusal(k, k.current.value, f).None?
    ensures var cur := k.current.value;
            && cur in k.tcbs && k.tcbs[cur].replyTo.Some?
            && ReplyDone(k, cur, f, Reply(k, cur, f))
  {
    hide AttachRefusal;
    hide LandRefusal;
    hide ExtractExtraCap;
    hide Designated;
    hide Transfer;
    hide AnswerCaller;
    hide Answers;
    hide Rendezvous.Landed;
    hide Placed;
    hide PoolsBounded;
    var cur := k.current.value;
    ReplyStatus(k, f);
    AttachIsExact(k, cur, f);
    Signals.ReplySignals(k, cur, f);
    var (d, t) := (DecodeReply(k, cur, f).value, k.tcbs[cur].replyTo.value);
    assert Owes(k, cur, t);
    var dest := BlockedCallerReplyDestSlot(k, t);
    TransferTouchesSlotsOnly(k, t, dest, d.extraCap);
    Rendezvous.TransferLands(k, t, dest, d.extraCap);
    var k1 := Transfer(k, t, dest, d.extraCap).value;
    AnswerCallerEffect(k, k1, f, t, d.payload);
    SlotEffects.AnswerKeepsSlots(k1, cur, f, t, d.payload);
    Rendezvous.LandedFrame(k, k1, Reply(k, cur, f).k, t, dest, d.extraCap);
  }

  // ---------------------------------------------------------------------- notifications

  lemma SignalOutcome(k: Kernel, f: Context)
    requires Inv(k) && SignalRefusal(k, k.current.value, f).None?
    ensures var (cur, c) := (k.current.value, Designated(k, k.current.value, f.mrs[0]));
            && c.NotificationCap? && c.notification in k.notifications
            && SignalDone(k, cur, f, Signal(k, cur, f.mrs[0], f))
  {
    hide NotificationRefusal;
    hide ResolveNotification;
    hide Designated;
    hide Or;
    hide WakeWaiter;
    hide Wakes;
    hide Placed;
    hide Linked;
    hide PoolsBounded;
    var (cur, c) := (k.current.value, Designated(k, k.current.value, f.mrs[0]));
    NotificationIsExact(k, cur, f.mrs[0], Write);
    if k.notifications[c.notification].waiters != [] {
      WakeWaiterEffect(k, c.notification, c.badge);
      WokenSignals(k, c.notification, c.badge);
    }
  }

  lemma WokenSignals(k: Kernel, n: NotificationId, badge: Word)
    requires n in k.notifications && k.notifications[n].waiters != []
    ensures var k' := WakeWaiter(k, n, badge);
            && k'.cnodes == k.cnodes
            && k'.notifications == k.notifications[n := Notification(0, k.notifications[n].waiters[1..])]
  {
    hide Or;
    hide MakeReady;
  }

  lemma WaitOutcome(k: Kernel, f: Context)
    requires Inv(k) && WaitRefusal(k, k.current.value, f).None?
    ensures var (cur, c) := (k.current.value, Designated(k, k.current.value, f.mrs[0]));
            && c.NotificationCap? && c.notification in k.notifications
            && WaitDone(k, cur, f, Wait(k, cur, f.mrs[0], f))
  {
    hide NotificationRefusal;
    hide ResolveNotification;
    hide Designated;
    hide BlockWaiter;
    hide Parks;
    hide Placed;
    hide Linked;
    hide PoolsBounded;
    var (cur, c) := (k.current.value, Designated(k, k.current.value, f.mrs[0]));
    NotificationIsExact(k, cur, f.mrs[0], Read);
    if k.notifications[c.notification].signals == 0 {
      BlockWaiterEffect(k, f, c.notification);
      BlockedSignals(k, f, c.notification);
    }
  }

  lemma BlockedSignals(k: Kernel, f: Context, n: NotificationId)
    requires Inv(k) && n in k.notifications && k.ready != []
    ensures var (cur, k', q) :=
              (k.current.value, BlockWaiter(k, k.current.value, f, n).k, k.notifications[n].waiters);
            && k'.cnodes == k.cnodes
            && k'.notifications == k.notifications[n := Notification(k.notifications[n].signals, q + [cur])]
  {
    hide Placed;
    hide PoolsBounded;
    hide Linked;
    QueueHasRoom(k, Waiters(n), k.current.value);
    hide BlockCurrent;
  }

  lemma PollOutcome(k: Kernel, cur: TcbId, f: Context)
    requires PollRefusal(k, cur, f).None?
    ensures var c := Designated(k, cur, f.mrs[0]);
            && c.NotificationCap? && c.notification in k.notifications
            && PollDone(k, cur, f, Poll(k, cur, f.mrs[0], f))
  {
    hide NotificationRefusal;
    hide ResolveNotification;
    hide Designated;
    NotificationIsExact(k, cur, f.mrs[0], Read);
    var n := Designated(k, cur, f.mrs[0]).notification;
    assert k.notifications[n := k.notifications[n]] == k.notifications;
  }

  lemma YieldOutcome(k: Kernel, f: Context)
    requires Inv(k)
    ensures var o := YieldNow(k, k.current.value, f); o.status.Ok? && YieldDone(k, f, o)
  {
    hide Parks;
    hide WellFormed;
    AdminEffects.YieldEffect(k, f);
    Signals.YieldSignals(k, k.current.value, f);
    SlotEffects.YieldSlots(k, k.current.value, f);
    hide YieldNow;
  }
}
