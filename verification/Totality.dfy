/** What the source leaves to its callers or assumes of itself holds in every run: no panic, no
    queue overflow, and a directed switch never goes to a thread that is also queued as ready. */
module Totality {
  import opened Words
  import opened Wrappers
  import opened Capabilities
  import opened Objects
  import opened State
  import opened Ipc
  import opened Invariants
  import opened Effects
  import opened Syscalls
  import opened AdminEffects
  import opened Upkeep

  /** In every run no trap panics: no failed `expect`, no `unreachable!`, no failed assertion and
      no overflow, whatever the registers say. */
  lemma NoTrapPanics(k: Kernel, trs: seq<Trap>, tr: Trap)
    requires Inv(k)
    ensures Run(k, trs).current.Some?
    ensures Handle(Run(k, trs), Run(k, trs).current.value, tr).status != Panic
  {
    RunKeepsInv(k, trs);
    hide Handle;
    hide Run;
    HandlerBehaves(Run(k, trs), tr);
  }

  // --------------------------------------------------------------- queue overflow

  predicate OutOfMemory(o: Outcome) {
    o.status == Err(NotEnoughMemory)
  }

  lemma BlockSenderHasRoom(k: Kernel, f: Context, m: Message, isCall: bool)
    requires Inv(k) && m.endpoint in k.endpoints && !k.endpoints[m.endpoint].queue.RecvQueue?
    ensures !OutOfMemory(BlockSender(k, k.current.value, f, m, isCall))
  {
    QueueHasRoom(k, Senders(m.endpoint), k.current.value);
    hide Park;
    hide Inv;
  }

  lemma BlockReceiverHasRoom(k: Kernel, f: Context, id: EndpointId, dest: Option<CPtr>)
    requires Inv(k) && id in k.endpoints && !k.endpoints[id].queue.SendQueue?
    ensures !OutOfMemory(BlockReceiver(k, k.current.value, f, id, dest))
  {
    QueueHasRoom(k, Receivers(id), k.current.value);
    hide Park;
    hide Inv;
  }

  lemma BlockWaiterHasRoom(k: Kernel, f: Context, id: NotificationId)
    requires Inv(k) && id in k.notifications
    ensures !OutOfMemory(BlockWaiter(k, k.current.value, f, id))
  {
    QueueHasRoom(k, Waiters(id), k.current.value);
    hide Park;
    hide Inv;
  }

  /** No decoding step and no transfer reports a lack of memory. */
  lemma DecodingNeedsNoMemory(k: Kernel, cur: TcbId, p: CPtr, f: Context, r: Rights)
    ensures DecodeSend(k, cur, p, f) != Failure(NotEnoughMemory)
    ensures DecodeCall(k, cur, p, f) != Failure(NotEnoughMemory)
    ensures DecodeRecv(k, cur, p, f) != Failure(NotEnoughMemory)
    ensures DecodeReply(k, cur, f) != Failure(NotEnoughMemory)
    ensures ResolveNotification(k, cur, p, r) != Failure(NotEnoughMemory)
  {
  }

  lemma TransferNeedsNoMemory(k: Kernel, t: TcbId, dest: Option<CPtr>, extra: Option<Capability>)
    ensures Transfer(k, t, dest, extra) != Failure(NotEnoughMemory)
  {
  }

  lemma SendHasRoom(k: Kernel, p: CPtr, f: Context, nonblocking: bool)
    requires Inv(k)
    ensures !OutOfMemory(Send(k, k.current.value, p, f, nonblocking))
  {
    var cur := k.current.value;
    var d := DecodeSend(k, cur, p, f);
    if d.Success? {
      match k.endpoints[d.value.endpoint].queue
      case RecvQueue(q) =>
        if q != [] { TransferNeedsNoMemory(k, q[0], BlockedReceiverDestSlot(k, q[0]), d.value.extraCap); }
      case _ => BlockSenderHasRoom(k, f, d.value, false);
    }
    DecodingNeedsNoMemory(k, cur, p, f, {});
    hide Inv;
    hide DecodeSend;
    hide Transfer;
    hide BlockSender;
    hide MakeReady;
  }

  lemma CallHasRoom(k: Kernel, p: CPtr, f: Context)
    requires Inv(k)
    ensures !OutOfMemory(Call(k, k.current.value, p, f))
  {
    var cur := k.current.value;
    var d := DecodeCall(k, cur, p, f);
    if d.Success? {
      match k.endpoints[d.value.endpoint].queue
      case RecvQueue(q) =>
        if q != [] { TransferNeedsNoMemory(k, q[0], BlockedReceiverDestSlot(k, q[0]), d.value.extraCap); }
      case _ => BlockSenderHasRoom(k, f, d.value, true);
    }
    DecodingNeedsNoMemory(k, cur, p, f, {});
    hide Inv;
    hide DecodeCall;
    hide Transfer;
    hide BlockSender;
    hide SwitchTo;
  }

  lemma RecvHasRoom(k: Kernel, p: CPtr, f: Context)
    requires Inv(k)
    ensures !OutOfMemory(Recv(k, k.current.value, p, f))
  {
    var cur := k.current.value;
    var d := DecodeRecv(k, cur, p, f);
    if d.Success? {
      match k.endpoints[d.value.endpoint].queue
      case SendQueue(q) =>
        if q != [] && q[0] in k.tcbs && k.tcbs[q[0]].state.BlockedSend? {
          TransferNeedsNoMemory(k, cur, d.value.destSlot, k.tcbs[q[0]].state.extraCap);
        }
      case _ => BlockReceiverHasRoom(k, f, d.value.endpoint, d.value.destSlot);
    }
    DecodingNeedsNoMemory(k, cur, p, f, {});
    hide Inv;
    hide DecodeRecv;
    hide Transfer;
    hide BlockReceiver;
    hide ReleaseSender;
  }

  lemma ReplyHasRoom(k: Kernel, cur: TcbId, f: Context)
    ensures !OutOfMemory(Reply(k, cur, f))
  {
    var d := DecodeReply(k, cur, f);
    if d.Success? {
      TransferNeedsNoMemory(k, d.value.target, BlockedCallerReplyDestSlot(k, d.value.target), d.value.extraCap);
    }
    DecodingNeedsNoMemory(k, cur, 0, f, {});
    hide DecodeReply;
    hide Transfer;
    hide MakeReady;
    hide SwitchTo;
  }

  lemma NotificationsHaveRoom(k: Kernel, p: CPtr, f: Context)
    requires Inv(k)
    ensures !OutOfMemory(Signal(k, k.current.value, p, f))
    ensures !OutOfMemory(Wait(k, k.current.value, p, f))
    ensures !OutOfMemory(Poll(k, k.current.value, p, f))
  {
    var cur := k.current.value;
    var d := ResolveNotification(k, cur, p, {Read});
    if d.Success? && d.value.notification in k.notifications {
      BlockWaiterHasRoom(k, f, d.value.notification);
    }
    DecodingNeedsNoMemory(k, cur, p, f, {Read});
    DecodingNeedsNoMemory(k, cur, p, f, {Write});
    hide Inv;
    hide ResolveNotification;
    hide BlockWaiter;
    hide WakeWaiter;
    hide SetSignals;
  }

  /** The `NotEnoughMemory` returns of the wait queues are unreachable: a queue of threads never
      overflows, because each thread is in at most one place. */
  lemma NoQueueOverflows(k: Kernel, tr: Trap)
    requires Inv(k) && IsIpc(tr.frame.syscall)
    ensures !OutOfMemory(Handle(k, k.current.value, tr))
  {
    hide Send;
    hide Recv;
    hide Call;
    hide Reply;
    hide Signal;
    hide Wait;
    hide Poll;
    hide BlockCurrent;
    hide MakeReady;
    var n, p, f := tr.frame.syscall, tr.frame.Mr(0), tr.frame;
    if n == SEND || n == NB_SEND {
      SendHasRoom(k, p, f, n == NB_SEND);
    } else if n == RECV {
      RecvHasRoom(k, p, f);
    } else if n == CALL {
      CallHasRoom(k, p, f);
    } else if n == REPLY {
      ReplyHasRoom(k, k.current.value, f);
    } else if n != YIELD {
      NotificationsHaveRoom(k, p, f);
    }
  }

  // -------------------------------------------------------------------- time-outs

  predicate TimedOut(o: Outcome) {
    o.status == Err(Timeout)
  }

  lemma DecodingTakesNoTime(k: Kernel, cur: TcbId, p: CPtr, f: Context, r: Rights)
    ensures DecodeSend(k, cur, p, f) != Failure(Timeout)
    ensures DecodeCall(k, cur, p, f) != Failure(Timeout)
    ensures DecodeRecv(k, cur, p, f) != Failure(Timeout)
    ensures ResolveNotification(k, cur, p, r) != Failure(Timeout)
  {
  }

  lemma TransferTakesNoTime(k: Kernel, t: TcbId, dest: Option<CPtr>, extra: Option<Capability>)
    ensures Transfer(k, t, dest, extra) != Failure(Timeout)
  {
  }

  /** `Send` and `Call` time out exactly when the message is good, nobody receives and no other
      thread could run meanwhile. */
  lemma SendersTimeOut(k: Kernel, cur: TcbId, p: CPtr, f: Context)
    ensures var d := DecodeSend(k, cur, p, f);
            TimedOut(Send(k, cur, p, f, false)) <==>
              d.Success? && !k.endpoints[d.value.endpoint].queue.RecvQueue? && k.ready == []
    ensures var d := DecodeCall(k, cur, p, f);
            TimedOut(Call(k, cur, p, f)) <==>
              d.Success? && !k.endpoints[d.value.endpoint].queue.RecvQueue? && k.ready == []
  {
    SendTimesOut(k, cur, p, f);
    CallTimesOut(k, cur, p, f);
  }

  lemma SendTimesOut(k: Kernel, cur: TcbId, p: CPtr, f: Context)
    ensures var d := DecodeSend(k, cur, p, f);
            TimedOut(Send(k, cur, p, f, false)) <==>
              d.Success? && !k.endpoints[d.value.endpoint].queue.RecvQueue? && k.ready == []
  {
    DecodingTakesNoTime(k, cur, p, f, {});
    var d := DecodeSend(k, cur, p, f);
    hide DecodeSend;
    hide Transfer;
    hide MakeReady;
    hide BlockCurrent;
    if d.Success? && k.endpoints[d.value.endpoint].queue.RecvQueue? {
      var q := k.endpoints[d.value.endpoint].queue.receivers;
      if q != [] { TransferTakesNoTime(k, q[0], BlockedReceiverDestSlot(k, q[0]), d.value.extraCap); }
    }
  }

  lemma CallTimesOut(k: Kernel, cur: TcbId, p: CPtr, f: Context)
    ensures var d := DecodeCall(k, cur, p, f);
            TimedOut(Call(k, cur, p, f)) <==>
              d.Success? && !k.endpoints[d.value.endpoint].queue.RecvQueue? && k.ready == []
  {
    DecodingTakesNoTime(k, cur, p, f, {});
    var d := DecodeCall(k, cur, p, f);
    hide DecodeCall;
    hide Transfer;
    hide SwitchTo;
    hide BlockCurrent;
    if d.Success? && k.endpoints[d.value.endpoint].queue.RecvQueue? {
      var q := k.endpoints[d.value.endpoint].queue.receivers;
      if q != [] { TransferTakesNoTime(k, q[0], BlockedReceiverDestSlot(k, q[0]), d.value.extraCap); }
    }
  }

  /** `Recv` times out exactly when nobody sends and no other thread could run meanwhile; `Wait`
      when no signal is pending and no other thread could run. */
  lemma ReceiversTimeOut(k: Kernel, cur: TcbId, p: CPtr, f: Context)
    ensures var d := DecodeRecv(k, cur, p, f);
            TimedOut(Recv(k, cur, p, f)) <==>
              d.Success? && !k.endpoints[d.value.endpoint].queue.SendQueue? && k.ready == []
    ensures var d := ResolveNotification(k, cur, p, {Read});
            TimedOut(Wait(k, cur, p, f)) <==>
              d.Success? && d.value.notification in k.notifications
              && k.notifications[d.value.notification].signals == 0 && k.ready == []
  {
    RecvTimesOut(k, cur, p, f);
    WaitTimesOut(k, cur, p, f);
  }

  lemma RecvTimesOut(k: Kernel, cur: TcbId, p: CPtr, f: Context)
    ensures var d := DecodeRecv(k, cur, p, f);
            TimedOut(Recv(k, cur, p, f)) <==>
              d.Success? && !k.endpoints[d.value.endpoint].queue.SendQueue? && k.ready == []
  {
    DecodingTakesNoTime(k, cur, p, f, {});
    var d := DecodeRecv(k, cur, p, f);
    hide DecodeRecv;
    hide Transfer;
    hide ReleaseSender;
    hide BlockCurrent;
    if d.Success? && k.endpoints[d.value.endpoint].queue.SendQueue? {
      var q := k.endpoints[d.value.endpoint].queue.senders;
      if q != [] && q[0] in k.tcbs && k.tcbs[q[0]].state.BlockedSend? {
        TransferTakesNoTime(k, cur, d.value.destSlot, k.tcbs[q[0]].state.extraCap);
      }
    }
  }

  lemma WaitTimesOut(k: Kernel, cur: TcbId, p: CPtr, f: Context)
    ensures var d := ResolveNotification(k, cur, p, {Read});
            TimedOut(Wait(k, cur, p, f)) <==>
              d.Success? && d.value.notification in k.notifications
              && k.notifications[d.value.notification].signals == 0 && k.ready == []
  {
    DecodingTakesNoTime(k, cur, p, f, {Read});
    hide ResolveNotification;
    hide SetSignals;
    hide BlockCurrent;
  }

  // ------------------------------------------------------------- directed switches

  /** The thread that a trap switches to was popped from the ready queue, or was not in it. */
  ghost predicate SwitchIsLegal(n: Word, k: Kernel, k': Kernel) {
    k'.current != k.current ==>
      && k'.current.Some?
      && if (n == CALL && k'.ready == k.ready) || n == REPLY then k'.current.value !in k.ready
         else k.ready != [] && k'.current.value == k.ready[0]
  }

  /** `switch_to` demands that its target is not in the ready queue; both of its callers comply. */
  lemma SwitchTargetsAreNotQueued(k: Kernel, tr: Trap)
    requires Inv(k)
    ensures SwitchIsLegal(tr.frame.syscall, k, Step(k, tr))
  {
    hide Handle;
    DispatchMoves(k, tr);
    var (k', f') := Dispatch(k, tr);
    var x :| Does(x, k, tr.frame, k', f') && Causes(tr.frame.syscall, x);
    SwitchTarget(x, tr.frame.syscall, k, tr.frame, k', f');
  }

  lemma SwitchTarget(x: Effect, n: Word, k: Kernel, f: Context, k': Kernel, f': Context)
    requires Inv(k) && Does(x, k, f, k', f') && Causes(n, x)
    ensures SwitchIsLegal(n, k, k')
  {
    match x
    case Called(e, t, _, _) =>
      HeadOf(k, Receivers(e));
      NotIn(k, ReadyQueue, t);
      assert k'.ready == QueueAt(k', ReadyQueue);
    case Replied(t, _) =>
      assert Owes(k, k.current.value, t);
      NotIn(k, ReadyQueue, t);
    case Parked(p, _) =>
    case _ =>
  }
}
