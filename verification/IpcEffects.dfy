/** Every IPC call behaves: from a well-formed kernel it never panics, and it makes one move. */
module IpcEffects {
  import opened Words
  import opened Wrappers
  import opened Capabilities
  import opened Objects
  import opened State
  import opened Ipc
  import opened Invariants
  import opened Effects

  /** The queue whose head a call serves if somebody waits there: the other side of the endpoint,
      or the notification, that its capability names. */
  function ServedPlace(k: Kernel, cur: TcbId, f: Context): Option<Place> {
    if f.syscall == SEND || f.syscall == NB_SEND then
      var m := DecodeSend(k, cur, f.Mr(0), f);
      if m.Success? then Some(Receivers(m.value.endpoint)) else None
    else if f.syscall == CALL then
      var m := DecodeCall(k, cur, f.Mr(0), f);
      if m.Success? then Some(Receivers(m.value.endpoint)) else None
    else if f.syscall == RECV then
      var r := DecodeRecv(k, cur, f.Mr(0), f);
      if r.Success? then Some(Senders(r.value.endpoint)) else None
    else if f.syscall == SIGNAL then
      var n := ResolveNotification(k, cur, f.Mr(0), {Write});
      if n.Success? then Some(Waiters(n.value.notification)) else None
    else None
  }

  /** The thread a call communicates with: the caller a `Reply` answers, or the thread served. */
  predicate Partner(k: Kernel, cur: TcbId, f: Context, t: TcbId) {
    if f.syscall == REPLY then Owes(k, cur, t)
    else
      var p := ServedPlace(k, cur, f);
      p.Some? && QueueAt(k, p.value) != [] && QueueAt(k, p.value)[0] == t
  }

  // ------------------------------------------------------------------ blocking

  /** Popping the ready queue: the running thread's registers are saved, the head's loaded. */
  lemma BlockCurrentResult(k: Kernel, f: Context)
    requires k.current.Some? && k.current.value in k.tcbs
    requires k.ready != [] && k.ready[0] in k.tcbs
    ensures var (k', f', switched) := BlockCurrent(k, f);
            var saved := k.tcbs[k.current.value := k.tcbs[k.current.value].(context := f)];
            && switched
            && k'.tcbs == saved[k.ready[0] := saved[k.ready[0]].(state := Running)]
            && k' == k.(tcbs := k'.tcbs, ready := k.ready[1..], current := Some(k.ready[0]))
            && f' == saved[k.ready[0]].context
  {
  }

  /** Blocking at `p`, once the queue and the state have been written. */
  lemma ParkEffect(k: Kernel, k2: Kernel, p: Place, s: ThreadState, f: Context)
    requires Inv(k) && PlaceOf(s) == Some(p) && p != ReadyQueue
    requires k.ready != []
    requires k2.tcbs == SetState(k, k.current.value, s).tcbs
    requires k2.ready == k.ready && k2.current == k.current
    requires QueueAt(k2, p) == QueueAt(k, p) + [k.current.value]
    requires SameQueuesBut(k, k2, {p, ReadyQueue})
    ensures var o := Park(k2, f); o.status.Ok? && Does(Parked(p, s), k, f, o.k, o.frame)
  {
    hide PoolsBounded;
    hide Linked;
    hide BumpsBounded;
    hide Placed;
    hide Calm;
    hide Normalized;
    hide BlockCurrent;
    var o := Park(k2, f);
    HeadOf(k, ReadyQueue);
    BlockCurrentResult(k2, f);
    QueuesFrame(k2, o.k);
    assert QueueAt(o.k, p) == QueueAt(k2, p);
  }

  /** A call that changes nothing is quiet. */
  lemma NothingMoves(k: Kernel, f: Context)
    ensures Does(Quiet, k, f, k, f)
  {
  }

  lemma BlockSenderEffect(k: Kernel, f: Context, m: Message, isCall: bool)
    requires Inv(k) && m.endpoint in k.endpoints && !k.endpoints[m.endpoint].queue.RecvQueue?
    ensures Behaves(if isCall then CALL else SEND, k, f, BlockSender(k, k.current.value, f, m, isCall))
    ensures k.ready != [] ==>
              var o := BlockSender(k, k.current.value, f, m, isCall);
              o.status.Ok? &&
              Does(Parked(Senders(m.endpoint),
                          BlockedSend(m.endpoint, m.badge, isCall, m.extraCap, m.replyDestSlot)), k, f, o.k, o.frame)
  {
    hide Placed;
    hide Linked;
    hide Calm;
    hide Normalized;
    hide PoolsBounded;
    hide BumpsBounded;
    hide Does;
    hide Park;
    NothingMoves(k, f);
    var cur, p := k.current.value, Senders(m.endpoint);
    QueueHasRoom(k, p, cur);
    if k.ready != [] {
      var k1 := SetEndpointQueue(k, m.endpoint, SendQueue(PushBack(QueueAt(k, p), cur)));
      var s := BlockedSend(m.endpoint, m.badge, isCall, m.extraCap, m.replyDestSlot);
      var k2 := SetState(k1, cur, s);
      EndpointFrame(k, k2, m.endpoint);
      NarrowFrame(k, k2, {Senders(m.endpoint), Receivers(m.endpoint), ReadyQueue}, Receivers(m.endpoint));
      ParkEffect(k, k2, p, s, f);
    }
  }

  lemma BlockReceiverEffect(k: Kernel, f: Context, id: EndpointId, dest: Option<CPtr>)
    requires Inv(k) && id in k.endpoints && !k.endpoints[id].queue.SendQueue?
    ensures Behaves(RECV, k, f, BlockReceiver(k, k.current.value, f, id, dest))
    ensures k.ready != [] ==>
              var o := BlockReceiver(k, k.current.value, f, id, dest);
              o.status.Ok? && Does(Parked(Receivers(id), BlockedRecv(id, dest)), k, f, o.k, o.frame)
  {
    hide Placed;
    hide Linked;
    hide Calm;
    hide Normalized;
    hide PoolsBounded;
    hide BumpsBounded;
    hide Does;
    hide Park;
    NothingMoves(k, f);
    var cur, p := k.current.value, Receivers(id);
    QueueHasRoom(k, p, cur);
    if k.ready != [] {
      var k1 := SetEndpointQueue(k, id, RecvQueue(PushBack(QueueAt(k, p), cur)));
      var k2 := SetState(k1, cur, BlockedRecv(id, dest));
      EndpointFrame(k, k2, id);
      NarrowFrame(k, k2, {Senders(id), Receivers(id), ReadyQueue}, Senders(id));
      ParkEffect(k, k2, p, BlockedRecv(id, dest), f);
    }
  }

  lemma BlockWaiterEffect(k: Kernel, f: Context, id: NotificationId)
    requires Inv(k) && id in k.notifications
    ensures Behaves(WAIT, k, f, BlockWaiter(k, k.current.value, f, id))
    ensures k.ready != [] ==>
              var o := BlockWaiter(k, k.current.value, f, id);
              o.status.Ok? && Does(Parked(Waiters(id), BlockedWait(id)), k, f, o.k, o.frame)
  {
    hide Placed;
    hide Linked;
    hide Calm;
    hide Normalized;
    hide PoolsBounded;
    hide BumpsBounded;
    hide Does;
    hide Park;
    NothingMoves(k, f);
    var cur, p := k.current.value, Waiters(id);
    QueueHasRoom(k, p, cur);
    if k.ready != [] {
      var n := k.notifications[id];
      var k2 := SetState(SetSignals(k, id, n.signals, PushBack(n.waiters, cur)), cur, BlockedWait(id));
      NotificationFrame(k, k2, id);
      ParkEffect(k, k2, p, BlockedWait(id), f);
    }
  }

  // ---------------------------------------------------------------- rendezvous

  /** A transfer writes one slot and nothing else. */
  lemma TransferTouchesSlotsOnly(k: Kernel, receiver: TcbId, dest: Option<CPtr>, extra: Option<Capability>)
    ensures var r := Transfer(k, receiver, dest, extra);
            r.Success? ==> r.value == k.(cnodes := r.value.cnodes)
  {
  }

  /** What is known of the head of an endpoint queue. */
  lemma WaitingHead(k: Kernel, p: Place)
    requires Inv(k) && QueueAt(k, p) != [] && p != ReadyQueue
    ensures var t := QueueAt(k, p)[0];
            && t in k.tcbs && PlaceOf(k.tcbs[t].state) == Some(p) && t != k.current.value
            && HasRoom(k.ready)
  {
    HeadOf(k, p);
    QueueHasRoom(k, ReadyQueue, QueueAt(k, p)[0]);
  }

  /** Handing the message to the head receiver. */
  lemma DeliverToReceiverEffect(k: Kernel, m: Message, tag: MessageTag, q: seq<TcbId>)
    requires m.endpoint in k.endpoints && k.endpoints[m.endpoint].queue == RecvQueue(q)
    requires q != [] && q[0] in k.tcbs
    ensures var r := DeliverToReceiver(k, m, tag, q);
            r.Success? ==>
              var c := k.tcbs[q[0]].context.Deliver(m.badge, m.payload, tag);
              && r.value.tcbs == k.tcbs[q[0] := k.tcbs[q[0]].(context := c)]
              && LeavesHead(k, r.value, Receivers(m.endpoint), q[0])
              && SameQueuesBut(k, r.value, {Receivers(m.endpoint), ReadyQueue})
              && r.value.current == k.current && r.value.ready == k.ready
  {
    TransferTouchesSlotsOnly(k, q[0], BlockedReceiverDestSlot(k, q[0]), m.extraCap);
    var r := DeliverToReceiver(k, m, tag, q);
    if r.Success? {
      var k' := r.value;
      assert k'.endpoints == k.endpoints[m.endpoint := Endpoint(Normalize(RecvQueue(q[1..])))];
      EndpointFrame(k, k', m.endpoint);
      NarrowFrame(k, k', {Senders(m.endpoint), Receivers(m.endpoint), ReadyQueue}, Senders(m.endpoint));
    }
  }

  /** Waking a thread whose queue has already been popped. */
  lemma WakeEffect(k: Kernel, k1: Kernel, p: Place, t: TcbId, c: Context)
    requires p != ReadyQueue && LeavesHead(k, k1, p, t)
    requires t in k.tcbs && k.tcbs[t].state != Ready && HasRoom(k.ready)
    requires Delivery(p, k.tcbs[t].context, c)
    requires p.Senders? ==> Sends(k.tcbs[t], false, None)
    requires k1.tcbs == k.tcbs[t := k.tcbs[t].(context := c)]
    requires k1.ready == k.ready && k1.current == k.current
    requires SameQueuesBut(k, k1, {p, ReadyQueue})
    ensures Wakes(p, t, c, k, MakeReady(k1, t))
  {
    var k' := MakeReady(k1, t);
    QueuesFrame(k1, k');
    assert QueueAt(k', p) == QueueAt(k1, p);
    assert k'.tcbs == k.tcbs[t := k.tcbs[t].(state := Ready, context := c)];
  }

  lemma HandOverEffect(k: Kernel, k1: Kernel, f: Context, e: EndpointId, t: TcbId, slot: Option<CPtr>, c: Context)
    requires k.current.Some? && k.current.value in k.tcbs && k.current.value != t
    requires LeavesHead(k, k1, Receivers(e), t)
    requires t in k.tcbs && Delivery(Receivers(e), k.tcbs[t].context, c)
    requires k1.tcbs == k.tcbs[t := k.tcbs[t].(context := c)]
    requires k1.ready == k.ready && k1.current == k.current
    requires SameQueuesBut(k, k1, {Receivers(e), ReadyQueue})
    ensures var o := HandOver(k1, k.current.value, f, t, slot);
            o.status.Ok? && HandsOver(e, t, slot, c, k, f, o.k, o.frame)
  {
    var o := HandOver(k1, k.current.value, f, t, slot);
    QueuesFrame(k1, o.k);
    assert QueueAt(o.k, Receivers(e)) == QueueAt(k1, Receivers(e));
    NarrowFrame(k, o.k, {Receivers(e), ReadyQueue}, ReadyQueue);
  }

  lemma ReleaseSenderEffect(k: Kernel, k1: Kernel, id: EndpointId, isCall: bool, slot: Option<CPtr>)
    requires Inv(k) && k1 == k.(cnodes := k1.cnodes)
    requires id in k.endpoints && k.endpoints[id].queue.SendQueue?
    requires var q := k.endpoints[id].queue.senders;
             q != [] && q[0] in k.tcbs && Sends(k.tcbs[q[0]], isCall, slot)
    ensures var q := k.endpoints[id].queue.senders;
            && q != []
            && var k' := ReleaseSender(k1, k.current.value, id, q, isCall, slot);
               && q[0] in k.tcbs
               && (isCall ==> AcceptsCall(id, q[0], slot, k, k'))
               && (!isCall ==> Wakes(Senders(id), q[0], k.tcbs[q[0]].context, k, k'))
  {
    var q := k.endpoints[id].queue.senders;
    WaitingHead(k, Senders(id));
    var k2 := SetEndpointQueue(k1, id, Normalize(SendQueue(q[1..])));
    EndpointFrame(k, k2, id);
    NarrowFrame(k, k2, {Senders(id), Receivers(id), ReadyQueue}, Receivers(id));
    assert LeavesHead(k, k2, Senders(id), q[0]);
    if isCall {
      var k' := ReleaseSender(k1, k.current.value, id, q, isCall, slot);
      QueuesFrame(k2, k');
      NarrowFrame(k, k', {Senders(id), ReadyQueue}, ReadyQueue);
      assert QueueAt(k', Senders(id)) == QueueAt(k2, Senders(id));
    } else {
      WakeEffect(k, k2, Senders(id), q[0], k.tcbs[q[0]].context);
    }
  }

  /** The thread writes of an answer. */
  lemma AnswerCallerResult(k: Kernel, f: Context, t: TcbId, payload: Payload)
    requires k.current.Some? && k.current.value in k.tcbs && k.tcbs[k.current.value].state == Running
    requires t in k.tcbs && t != k.current.value && HasRoom(k.ready)
    ensures var (cur, o) := (k.current.value, AnswerCaller(k, k.current.value, f, t, payload));
            var c := k.tcbs[t].context.Deliver(0, payload, f.tag);
            && o.status.Ok? && o.frame == c
            && o.k.tcbs == k.tcbs[cur := k.tcbs[cur].(state := Ready, context := f, replyTo := None)]
                                 [t := k.tcbs[t].(state := Running, context := c)]
            && o.k == k.(tcbs := o.k.tcbs, ready := k.ready + [cur], current := Some(t))
  {
  }

  lemma AnswerCallerEffect(k: Kernel, k1: Kernel, f: Context, t: TcbId, payload: Payload)
    requires Inv(k) && k1 == k.(cnodes := k1.cnodes)
    requires Owes(k, k.current.value, t)
    ensures var o := AnswerCaller(k1, k.current.value, f, t, payload);
            o.status.Ok? && Answers(t, k.tcbs[t].context.Deliver(0, payload, f.tag), k, f, o.k, o.frame)
  {
    hide AnswerCaller;
    hide Placed;
    hide Calm;
    hide PoolsBounded;
    hide BumpsBounded;
    hide Normalized;
    var o := AnswerCaller(k1, k.current.value, f, t, payload);
    QueueHasRoom(k, ReadyQueue, k.current.value);
    AnswerCallerResult(k1, f, t, payload);
    QueuesFrame(k, o.k);
  }

  lemma WakeWaiterEffect(k: Kernel, id: NotificationId, badge: Word)
    requires Inv(k) && id in k.notifications && k.notifications[id].waiters != []
    ensures var w := k.notifications[id].waiters[0];
            && w in k.tcbs
            && Wakes(Waiters(id), w, k.tcbs[w].context.SetMr(0, Or(k.notifications[id].signals, badge)),
                     k, WakeWaiter(k, id, badge))
  {
    var n := k.notifications[id];
    var w := n.waiters[0];
    WaitingHead(k, Waiters(id));
    var k1 := SetSignals(k, id, 0, n.waiters[1..]);
    var c := k.tcbs[w].context.SetMr(0, Or(n.signals, badge));
    var k2 := SetContext(k1, w, c);
    NotificationFrame(k, k2, id);
    WakeEffect(k, k2, Waiters(id), w, c);
  }

  // ------------------------------------------------------------------ the calls

  lemma SendEffect(k: Kernel, cptr: CPtr, f: Context, nonblocking: bool)
    requires Inv(k)
    ensures Behaves(if nonblocking then NB_SEND else SEND, k, f, Send(k, k.current.value, cptr, f, nonblocking))
  {
    hide BlockSender;
    hide SameQueuesBut;
    hide LeavesHead;
    hide DeliverToReceiver;
    hide Wakes;
    hide HandsOver;
    hide AcceptsCall;
    hide Answers;
    hide Parks;
    hide DoesNothing;
    NothingMoves(k, f);
    hide Placed;
    hide Linked;
    hide Calm;
    hide PoolsBounded;
    hide BumpsBounded;
    var d := DecodeSend(k, k.current.value, cptr, f);
    if d.Success? {
      var o := Send(k, k.current.value, cptr, f, nonblocking);
      var m := d.value;
      match k.endpoints[m.endpoint].queue
      case RecvQueue(q) =>
        WaitingHead(k, Receivers(m.endpoint));
        DeliverToReceiverEffect(k, m, f.tag, q);
        var r := DeliverToReceiver(k, m, f.tag, q);
        if r.Success? {
          var c := k.tcbs[q[0]].context.Deliver(m.badge, m.payload, f.tag);
          WakeEffect(k, r.value, Receivers(m.endpoint), q[0], c);
          assert Does(Woken(Receivers(m.endpoint), q[0], c), k, f, o.k, o.frame);
        }
      case _ =>
        if nonblocking {
          assert Does(Quiet, k, f, o.k, o.frame);
        } else {
          BlockSenderEffect(k, f, m, false);
        }
    }
  }

  lemma CallEffect(k: Kernel, cptr: CPtr, f: Context)
    requires Inv(k)
    ensures Behaves(CALL, k, f, Call(k, k.current.value, cptr, f))
  {
    hide HandOver;
    hide BlockSender;
    hide SameQueuesBut;
    hide LeavesHead;
    hide DeliverToReceiver;
    hide Wakes;
    hide HandsOver;
    hide AcceptsCall;
    hide Answers;
    hide Parks;
    hide DoesNothing;
    NothingMoves(k, f);
    hide Placed;
    hide Linked;
    hide Calm;
    hide PoolsBounded;
    hide BumpsBounded;
    var d := DecodeCall(k, k.current.value, cptr, f);
    if d.Success? {
      var o := Call(k, k.current.value, cptr, f);
      var m := d.value;
      match k.endpoints[m.endpoint].queue
      case RecvQueue(q) =>
        WaitingHead(k, Receivers(m.endpoint));
        DeliverToReceiverEffect(k, m, f.tag, q);
        var r := DeliverToReceiver(k, m, f.tag, q);
        if r.Success? {
          var c := k.tcbs[q[0]].context.Deliver(m.badge, m.payload, f.tag);
          HandOverEffect(k, r.value, f, m.endpoint, q[0], m.replyDestSlot, c);
          assert Does(Called(m.endpoint, q[0], m.replyDestSlot, c), k, f, o.k, o.frame);
        }
      case _ =>
        BlockSenderEffect(k, f, m, true);
    }
  }

  lemma RecvEffect(k: Kernel, cptr: CPtr, f: Context)
    requires Inv(k)
    ensures Behaves(RECV, k, f, Recv(k, k.current.value, cptr, f))
  {
    hide SameQueuesBut;
    hide LeavesHead;
    hide Wakes;
    hide HandsOver;
    hide AcceptsCall;
    hide Answers;
    hide Parks;
    hide DoesNothing;
    NothingMoves(k, f);
    hide Placed;
    hide Linked;
    hide Calm;
    hide PoolsBounded;
    hide BumpsBounded;
    var d := DecodeRecv(k, k.current.value, cptr, f);
    if d.Success? {
      var o := Recv(k, k.current.value, cptr, f);
      var Reception(id, dest) := d.value;
      match k.endpoints[id].queue
      case SendQueue(q) =>
        WaitingHead(k, Senders(id));
        var st := k.tcbs[q[0]].state;
        TransferTouchesSlotsOnly(k, k.current.value, dest, st.extraCap);
        var r := Transfer(k, k.current.value, dest, st.extraCap);
        if r.Success? {
          ReleaseSenderEffect(k, r.value, id, st.isCall, st.replyDestSlot);
          var x := if st.isCall then AcceptedCall(id, q[0], st.replyDestSlot)
                   else Woken(Senders(id), q[0], k.tcbs[q[0]].context);
          assert Does(x, k, f, o.k, o.frame);
        }
      case _ =>
        BlockReceiverEffect(k, f, id, dest);
    }
  }

  lemma ReplyEffect(k: Kernel, f: Context)
    requires Inv(k)
    ensures Behaves(REPLY, k, f, Reply(k, k.current.value, f))
  {
    hide Wakes;
    hide HandsOver;
    hide AcceptsCall;
    hide Answers;
    hide Parks;
    hide DoesNothing;
    NothingMoves(k, f);
    hide AnswerCaller;
    hide PoolsBounded;
    var d := DecodeReply(k, k.current.value, f);
    if d.Success? {
      var o := Reply(k, k.current.value, f);
      var Answer(t, extra, payload) := d.value;
      assert Owes(k, k.current.value, t);
      TransferTouchesSlotsOnly(k, t, BlockedCallerReplyDestSlot(k, t), extra);
      var r := Transfer(k, t, BlockedCallerReplyDestSlot(k, t), extra);
      if r.Success? {
        AnswerCallerEffect(k, r.value, f, t, payload);
        assert Does(Replied(t, k.tcbs[t].context.Deliver(0, payload, f.tag)), k, f, o.k, o.frame);
      }
    }
  }

  /** Pending signals come and go without moving a thread. */
  lemma SignalsMoveNobody(k: Kernel, id: NotificationId, signals: Word, f: Context, f': Context)
    requires id in k.notifications
    ensures Does(Quiet, k, f, SetSignals(k, id, signals, k.notifications[id].waiters), f')
  {
    var k' := SetSignals(k, id, signals, k.notifications[id].waiters);
    NotificationFrame(k, k', id);
    assert QueueAt(k', Waiters(id)) == QueueAt(k, Waiters(id));
  }

  lemma SignalEffect(k: Kernel, cptr: CPtr, f: Context)
    requires Inv(k)
    ensures Behaves(SIGNAL, k, f, Signal(k, k.current.value, cptr, f))
  {
    hide SameQueuesBut;
    hide LeavesHead;
    hide Wakes;
    hide HandsOver;
    hide AcceptsCall;
    hide Answers;
    hide Parks;
    hide DoesNothing;
    NothingMoves(k, f);
    hide Placed;
    hide Linked;
    hide Calm;
    hide PoolsBounded;
    hide BumpsBounded;
    hide Normalized;
    var d := ResolveNotification(k, k.current.value, cptr, {Write});
    if d.Success? && d.value.notification in k.notifications {
      var o := Signal(k, k.current.value, cptr, f);
      var NotificationTarget(id, badge) := d.value;
      var n := k.notifications[id];
      if n.waiters != [] {
        WakeWaiterEffect(k, id, badge);
        var w := n.waiters[0];
        assert Does(Woken(Waiters(id), w, k.tcbs[w].context.SetMr(0, Or(n.signals, badge))), k, f, o.k, o.frame);
      } else {
        SignalsMoveNobody(k, id, Or(n.signals, badge), f, o.frame);
      }
    }
  }

  lemma WaitEffect(k: Kernel, cptr: CPtr, f: Context)
    requires Inv(k)
    ensures Behaves(WAIT, k, f, Wait(k, k.current.value, cptr, f))
  {
    var d := ResolveNotification(k, k.current.value, cptr, {Read});
    if d.Success? && d.value.notification in k.notifications {
      var id := d.value.notification;
      if k.notifications[id].signals != 0 {
        SignalsMoveNobody(k, id, 0, f, Wait(k, k.current.value, cptr, f).frame);
      } else {
        BlockWaiterEffect(k, f, id);
      }
    }
  }

  lemma PollEffect(k: Kernel, cptr: CPtr, f: Context)
    requires Inv(k)
    ensures Behaves(POLL, k, f, Poll(k, k.current.value, cptr, f))
  {
    var o := Poll(k, k.current.value, cptr, f);
    var d := ResolveNotification(k, k.current.value, cptr, {Read});
    if d.Success? && d.value.notification in k.notifications {
      SignalsMoveNobody(k, d.value.notification, 0, f, o.frame);
      QueuesFrame(k, k);
      assert Does(Quiet, k, f, o.k, o.frame);
    }
  }
}
