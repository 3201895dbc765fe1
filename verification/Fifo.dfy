/** Every queue of the kernel is first-in first-out: over any run, what was queued and what has
    arrived is what has left and what is queued. A thread leaves a wait queue only by being served. */
module Fifo {
  import opened Words
  import opened Wrappers
  import opened Capabilities
  import opened Objects
  import opened State
  import opened Ipc
  import opened IpcEffects
  import opened Invariants
  import opened Effects
  import opened Syscalls
  import opened Placement
  import opened AdminEffects
  import opened Upkeep

  /** Where a thread waits, if it does. */
  function PlaceIn(k: Kernel, t: TcbId): Option<Place> {
    if t in k.tcbs then PlaceOf(k.tcbs[t].state) else None
  }

  /** Who has joined queue `p` between two kernels: only its last entry can be new. */
  function Arrival(k: Kernel, k': Kernel, p: Place): seq<TcbId> {
    var q := QueueAt(k', p);
    if q != [] && PlaceIn(k, q[|q| - 1]) != Some(p) then [q[|q| - 1]] else []
  }

  /** Who has left queue `p`: only its head can have. */
  function Departure(k: Kernel, k': Kernel, p: Place): seq<TcbId> {
    var q := QueueAt(k, p);
    if q != [] && PlaceIn(k', q[0]) != Some(p) then [q[0]] else []
  }

  ghost predicate Fifo(k: Kernel, k': Kernel, p: Place) {
    QueueAt(k, p) + Arrival(k, k', p) == Departure(k, k', p) + QueueAt(k', p)
  }

  lemma SameQueueIsFifo(k: Kernel, k': Kernel, p: Place)
    requires Placed(k) && Placed(k') && QueueAt(k', p) == QueueAt(k, p)
    ensures Fifo(k, k', p)
  {
    var q := QueueAt(k, p);
    if q != [] {
      HeadOf(k, p);
      HeadOf(k', p);
      assert q[|q| - 1] in q;
    }
  }

  lemma PushIsFifo(k: Kernel, k': Kernel, p: Place, t: TcbId)
    requires Placed(k) && Placed(k') && QueueAt(k', p) == QueueAt(k, p) + [t]
    requires PlaceIn(k, t) != Some(p)
    ensures Fifo(k, k', p)
  {
    var q := QueueAt(k, p);
    if q != [] {
      assert q[0] in QueueAt(k', p);
    }
  }

  lemma PopIsFifo(k: Kernel, k': Kernel, p: Place)
    requires Placed(k) && Placed(k') && QueueAt(k, p) != [] && QueueAt(k', p) == QueueAt(k, p)[1..]
    ensures Fifo(k, k', p)
  {
    var q := QueueAt(k, p);
    NoDupPop(q);
    assert q[0] !in QueueAt(k', p);
    if q[1..] != [] {
      assert q[1..][|q| - 2] in q;
    }
    assert q == [q[0]] + q[1..];
  }

  /** One trap moves each queue at its ends only. */
  lemma MoveIsFifo(x: Effect, k: Kernel, f: Context, k': Kernel, f': Context, p: Place)
    requires ThreadsOk(k) && ThreadsOk(k') && Does(x, k, f, k', f')
    ensures Fifo(k, k', p)
  {
    match x
    case Quiet => SameQueueIsFifo(k, k', p);
    case Created(_) => SameQueueIsFifo(k, k', p);
    case Configured(_, _) => SameQueueIsFifo(k, k', p);
    case Admitted(t, _) =>
      if p == ReadyQueue { PushIsFifo(k, k', p, t); } else { SameQueueIsFifo(k, k', p); }
    case Woken(from, t, _) =>
      HeadOf(k, from);
      if p == ReadyQueue { PushIsFifo(k, k', p, t); }
      else if p == from { PopIsFifo(k, k', p); }
      else { SameQueueIsFifo(k, k', p); }
    case AcceptedCall(e, _, _) =>
      if p == Senders(e) { PopIsFifo(k, k', p); } else { SameQueueIsFifo(k, k', p); }
    case Parked(_, _) => ParkIsFifo(x, k, f, k', f', p);
    case Called(e, _, _, _) =>
      if p == Receivers(e) { PopIsFifo(k, k', p); } else { SameQueueIsFifo(k, k', p); }
    case Replied(_, _) =>
      if p == ReadyQueue { PushIsFifo(k, k', p, k.current.value); } else { SameQueueIsFifo(k, k', p); }
  }

  lemma ParkIsFifo(x: Effect, k: Kernel, f: Context, k': Kernel, f': Context, p: Place)
    requires ThreadsOk(k) && ThreadsOk(k') && x.Parked? && Does(x, k, f, k', f')
    ensures Fifo(k, k', p)
  {
    var cur := k.current.value;
    if p == ReadyQueue && x.p == ReadyQueue {
      var q := k.ready + [cur];
      if k.ready == [] {
        assert Arrival(k, k', p) == [] && Departure(k, k', p) == [];
      } else {
        HeadOf(k, ReadyQueue);
        assert q == [k.ready[0]] + q[1..];
        assert q[1..][|q| - 2] == cur;
        assert Arrival(k, k', p) == [cur];
        assert Departure(k, k', p) == [k.ready[0]];
      }
    } else if p == ReadyQueue {
      PopIsFifo(k, k', p);
    } else if p == x.p {
      PushIsFifo(k, k', p, cur);
    } else {
      SameQueueIsFifo(k, k', p);
    }
  }

  lemma StepIsFifo(k: Kernel, tr: Trap, p: Place)
    requires Inv(k)
    ensures Fifo(k, Step(k, tr), p)
  {
    DispatchMoves(k, tr);
    var (k', f') := Dispatch(k, tr);
    var x :| Does(x, k, tr.frame, k', f');
    MoveKeepsThreads(x, k, tr.frame, k', f');
    MoveIsFifo(x, k, tr.frame, k', f', p);
  }

  function Arrivals(k: Kernel, trs: seq<Trap>, p: Place): seq<TcbId>
    decreases |trs|
  {
    if trs == [] then []
    else Arrival(k, Step(k, trs[0]), p) + Arrivals(Step(k, trs[0]), trs[1..], p)
  }

  function Departures(k: Kernel, trs: seq<Trap>, p: Place): seq<TcbId>
    decreases |trs|
  {
    if trs == [] then []
    else Departure(k, Step(k, trs[0]), p) + Departures(Step(k, trs[0]), trs[1..], p)
  }

  /** Two conservation laws in a row. */
  lemma Telescope(q: seq<TcbId>, a: seq<TcbId>, d: seq<TcbId>, q1: seq<TcbId>,
                  a1: seq<TcbId>, d1: seq<TcbId>, q2: seq<TcbId>)
    requires q + a == d + q1 && q1 + a1 == d1 + q2
    ensures q + (a + a1) == (d + d1) + q2
  {
    assert q + (a + a1) == (q + a) + a1;
    assert (d + q1) + a1 == d + (q1 + a1);
    assert d + (d1 + q2) == (d + d1) + q2;
  }

  /** Over any run, threads leave a queue in the order they joined it, each once, and none is
      lost: for the ready queue, both sides of every endpoint, and every notification. */
  lemma {:induction false} RunIsFifo(k: Kernel, trs: seq<Trap>, p: Place)
    requires Inv(k)
    ensures QueueAt(k, p) + Arrivals(k, trs, p) == Departures(k, trs, p) + QueueAt(Run(k, trs), p)
    decreases |trs|
  {
    if trs != [] {
      var k1, rest := Step(k, trs[0]), trs[1..];
      StepIsFifo(k, trs[0], p);
      StepKeepsInv(k, trs[0]);
      RunIsFifo(k1, rest, p);
      Telescope(QueueAt(k, p), Arrival(k, k1, p), Departure(k, k1, p), QueueAt(k1, p),
                Arrivals(k1, rest, p), Departures(k1, rest, p), QueueAt(Run(k1, rest), p));
    } else {
      assert QueueAt(k, p) + [] == [] + QueueAt(k, p);
    }
  }

  /** `t` is the thread at position `i` of the queue after `served` have left. */
  predicate IsAt(t: TcbId, q: seq<TcbId>, served: seq<TcbId>, i: nat) {
    if i < |served| then served[i] == t else i - |served| < |q| && q[i - |served|] == t
  }

  /** The thread at position `i` of a queue is the one that leaves after exactly `i` others; until
      then it moves up by one whenever the head leaves. */
  lemma ServedInOrder(k: Kernel, trs: seq<Trap>, p: Place, i: nat)
    requires Inv(k) && i < |QueueAt(k, p)|
    ensures IsAt(QueueAt(k, p)[i], QueueAt(Run(k, trs), p), Departures(k, trs, p), i)
  {
    RunIsFifo(k, trs, p);
    SplitAt(QueueAt(k, p), Arrivals(k, trs, p), Departures(k, trs, p), QueueAt(Run(k, trs), p), i);
  }

  lemma SplitAt(q: seq<TcbId>, a: seq<TcbId>, d: seq<TcbId>, q': seq<TcbId>, i: nat)
    requires q + a == d + q' && i < |q|
    ensures IsAt(q[i], q', d, i)
  {
    assert (q + a)[i] == q[i];
    assert |q| + |a| == |d| + |q'|;
    if |d| <= i { assert (d + q')[i] == q'[i - |d|]; }
  }

  // --------------------------------------------------------------- who is served by whom

  /** The kind of call that serves the head of a wait queue. */
  predicate Serves(n: Word, p: Place) {
    match p
    case Senders(_) => n == RECV
    case Receivers(_) => n == SEND || n == NB_SEND || n == CALL
    case Waiters(_) => n == SIGNAL
    case ReadyQueue => false
  }

  /** A served thread waits nowhere any more but, after a call, for its reply. */
  predicate IsServed(k: Kernel, t: TcbId) {
    t in k.tcbs && (k.tcbs[t].state == Ready || k.tcbs[t].state == Running || k.tcbs[t].state.BlockedReply?)
  }

  lemma MoveServes(n: Word, x: Effect, k: Kernel, f: Context, k': Kernel, f': Context, p: Place)
    requires ThreadsOk(k) && Does(x, k, f, k', f') && Causes(n, x)
    requires p != ReadyQueue && QueueAt(k, p) != []
    ensures Departure(k, k', p) != [] ==> Serves(n, p) && IsServed(k', QueueAt(k, p)[0])
  {
    HeadOf(k, p);
    match x
    case Woken(from, _, _) => HeadOf(k, from);
    case AcceptedCall(e, _, _) => HeadOf(k, Senders(e));
    case Called(e, _, _, _) => HeadOf(k, Receivers(e));
    case Replied(t, _) => assert Owes(k, k.current.value, t);
    case Parked(_, _) => ParkServesNobody(x, k, f, k', f', QueueAt(k, p)[0]);
    case _ =>
  }

  lemma ParkServesNobody(x: Effect, k: Kernel, f: Context, k': Kernel, f': Context, t: TcbId)
    requires ThreadsOk(k) && x.Parked? && Does(x, k, f, k', f')
    requires t in k.tcbs && PlaceOf(k.tcbs[t].state).Some? && PlaceOf(k.tcbs[t].state) != Some(ReadyQueue)
    ensures PlaceIn(k', t) == PlaceIn(k, t)
  {
    if k.ready != [] { HeadOf(k, ReadyQueue); }
  }

  // A call disturbs no queue but those of the endpoint or notification that it names.

  ghost predicate OnlyEndpoint(k: Kernel, k': Kernel, e: EndpointId) {
    forall i | i in k.endpoints && i != e :: i in k'.endpoints && k'.endpoints[i] == k.endpoints[i]
  }

  lemma SameEndpoints(k: Kernel, e: EndpointId)
    ensures OnlyEndpoint(k, k, e)
  {
  }

  /** Parking at an endpoint whose queue has been written. */
  lemma ParkOnly(k: Kernel, k1: Kernel, cur: TcbId, s: ThreadState, f: Context, e: EndpointId, q: EndpointQueue)
    requires k1 == SetEndpointQueue(k, e, q)
    ensures OnlyEndpoint(k, Park(SetState(k1, cur, s), f).k, e)
  {
    hide BlockCurrent;
    hide SetState;
  }

  lemma BlockSenderOnly(k: Kernel, cur: TcbId, f: Context, m: Message, isCall: bool)
    requires m.endpoint in k.endpoints && !k.endpoints[m.endpoint].queue.RecvQueue?
    ensures OnlyEndpoint(k, BlockSender(k, cur, f, m, isCall).k, m.endpoint)
  {
    hide SetState;
    hide Park;
    hide SetEndpointQueue;
    hide OnlyEndpoint;
    var queue := k.endpoints[m.endpoint].queue;
    var q := if queue.SendQueue? then queue.senders else [];
    SameEndpoints(k, m.endpoint);
    if k.ready != [] && HasRoom(q) {
      var k1 := SetEndpointQueue(k, m.endpoint, SendQueue(PushBack(q, cur)));
      ParkOnly(k, k1, cur, BlockedSend(m.endpoint, m.badge, isCall, m.extraCap, m.replyDestSlot), f, m.endpoint,
               SendQueue(PushBack(q, cur)));
    }
  }

  lemma BlockReceiverOnly(k: Kernel, cur: TcbId, f: Context, id: EndpointId, dest: Option<CPtr>)
    requires id in k.endpoints && !k.endpoints[id].queue.SendQueue?
    ensures OnlyEndpoint(k, BlockReceiver(k, cur, f, id, dest).k, id)
  {
    hide SetState;
    hide Park;
    hide SetEndpointQueue;
    hide OnlyEndpoint;
    var queue := k.endpoints[id].queue;
    var q := if queue.RecvQueue? then queue.receivers else [];
    SameEndpoints(k, id);
    if k.ready != [] && HasRoom(q) {
      ParkOnly(k, SetEndpointQueue(k, id, RecvQueue(PushBack(q, cur))), cur, BlockedRecv(id, dest), f, id,
               RecvQueue(PushBack(q, cur)));
    }
  }

  lemma DeliverOnly(k: Kernel, m: Message, tag: MessageTag, q: seq<TcbId>)
    requires q != []
    ensures var r := DeliverToReceiver(k, m, tag, q); r.Success? ==> OnlyEndpoint(k, r.value, m.endpoint)
  {
    TransferTouchesSlotsOnly(k, q[0], BlockedReceiverDestSlot(k, q[0]), m.extraCap);
    hide Transfer;
    hide Normalize;
  }

  lemma HandOverOnly(k: Kernel, cur: TcbId, f: Context, receiver: TcbId, slot: Option<CPtr>)
    ensures HandOver(k, cur, f, receiver, slot).k.endpoints == k.endpoints
  {
    hide SwitchTo;
  }

  lemma SendOnly(k: Kernel, cur: TcbId, f: Context, nonblocking: bool)
    ensures var d, k' := DecodeSend(k, cur, f.Mr(0), f), Send(k, cur, f.Mr(0), f, nonblocking).k;
            if d.Failure? then k' == k else OnlyEndpoint(k, k', d.value.endpoint)
  {
    hide DecodeSend;
    hide DeliverToReceiver;
    hide BlockSender;
    hide MakeReady;
    var d := DecodeSend(k, cur, f.Mr(0), f);
    if d.Success? {
      match k.endpoints[d.value.endpoint].queue
      case RecvQueue(q) => if q != [] { DeliverOnly(k, d.value, f.tag, q); }
      case _ => BlockSenderOnly(k, cur, f, d.value, false);
    }
  }

  lemma CallOnly(k: Kernel, cur: TcbId, f: Context)
    ensures var d, k' := DecodeCall(k, cur, f.Mr(0), f), Call(k, cur, f.Mr(0), f).k;
            if d.Failure? then k' == k else OnlyEndpoint(k, k', d.value.endpoint)
  {
    hide DecodeCall;
    hide DeliverToReceiver;
    hide BlockSender;
    hide HandOver;
    var d := DecodeCall(k, cur, f.Mr(0), f);
    if d.Success? {
      match k.endpoints[d.value.endpoint].queue
      case RecvQueue(q) =>
        if q != [] {
          DeliverOnly(k, d.value, f.tag, q);
          var r := DeliverToReceiver(k, d.value, f.tag, q);
          if r.Success? { HandOverOnly(r.value, cur, f, q[0], d.value.replyDestSlot); }
        }
      case _ => BlockSenderOnly(k, cur, f, d.value, true);
    }
  }

  lemma ReleaseOnly(k: Kernel, cur: TcbId, id: EndpointId, q: seq<TcbId>, isCall: bool, slot: Option<CPtr>)
    requires q != []
    ensures OnlyEndpoint(k, ReleaseSender(k, cur, id, q, isCall, slot), id)
  {
    hide MakeReady;
    hide Normalize;
  }

  lemma RecvOnly(k: Kernel, cur: TcbId, f: Context)
    ensures var d, k' := DecodeRecv(k, cur, f.Mr(0), f), Recv(k, cur, f.Mr(0), f).k;
            if d.Failure? then k' == k else OnlyEndpoint(k, k', d.value.endpoint)
  {
    hide DecodeRecv;
    hide Transfer;
    hide ReleaseSender;
    hide BlockReceiver;
    var d := DecodeRecv(k, cur, f.Mr(0), f);
    if d.Success? {
      var Reception(id, dest) := d.value;
      match k.endpoints[id].queue
      case SendQueue(q) =>
        if q != [] && q[0] in k.tcbs && k.tcbs[q[0]].state.BlockedSend? {
          var st := k.tcbs[q[0]].state;
          TransferTouchesSlotsOnly(k, cur, dest, st.extraCap);
          var r := Transfer(k, cur, dest, st.extraCap);
          if r.Success? { ReleaseOnly(r.value, cur, id, q, st.isCall, st.replyDestSlot); }
        }
      case _ => BlockReceiverOnly(k, cur, f, id, dest);
    }
  }

  ghost predicate OnlyNotification(k: Kernel, k': Kernel, n: NotificationId) {
    forall i | i in k.notifications && i != n :: i in k'.notifications && k'.notifications[i] == k.notifications[i]
  }

  lemma WakeOnly(k: Kernel, id: NotificationId, badge: Word)
    requires id in k.notifications && k.notifications[id].waiters != []
    ensures OnlyNotification(k, WakeWaiter(k, id, badge), id)
  {
    hide Or;
    hide MakeReady;
    hide SetContext;
  }

  lemma SetSignalsOnly(k: Kernel, id: NotificationId, signals: Word, waiters: seq<TcbId>)
    ensures OnlyNotification(k, SetSignals(k, id, signals, waiters), id)
  {
  }

  lemma SignalOnly(k: Kernel, cur: TcbId, f: Context)
    ensures var d, k' := ResolveNotification(k, cur, f.Mr(0), {Write}), Signal(k, cur, f.Mr(0), f).k;
            if d.Failure? then k' == k else OnlyNotification(k, k', d.value.notification)
  {
    hide ResolveNotification;
    hide Or;
    hide WakeWaiter;
    hide SetSignals;
    hide OnlyNotification;
    var d := ResolveNotification(k, cur, f.Mr(0), {Write});
    if d.Success? && d.value.notification in k.notifications {
      var n := k.notifications[d.value.notification];
      if n.waiters != [] {
        WakeOnly(k, d.value.notification, d.value.badge);
      } else {
        SetSignalsOnly(k, d.value.notification, Or(n.signals, d.value.badge), n.waiters);
      }
    } else if d.Success? {
      SameNotifications(k, d.value.notification);
    }
  }

  lemma SameNotifications(k: Kernel, n: NotificationId)
    ensures OnlyNotification(k, k, n)
  {
  }

  /** The queue at `p` is not disturbed by a call that names something else. */
  lemma OthersUndisturbed(k: Kernel, tr: Trap, p: Place)
    requires k.current.Some? && Serves(tr.frame.syscall, p) && QueueAt(k, p) != []
    requires ServedPlace(k, k.current.value, tr.frame) != Some(p)
    ensures QueueAt(Step(k, tr), p) == QueueAt(k, p)
  {
    hide Send;
    hide Call;
    hide Recv;
    hide Signal;
    hide DecodeSend;
    hide DecodeCall;
    hide DecodeRecv;
    hide ResolveNotification;
    var cur, f := k.current.value, tr.frame;
    match p
    case Senders(e) => RecvOnly(k, cur, f);
    case Waiters(n) => SignalOnly(k, cur, f);
    case Receivers(e) =>
      if f.syscall == CALL { CallOnly(k, cur, f); } else { SendOnly(k, cur, f, f.syscall == NB_SEND); }
  }

  /** A thread leaves a wait queue only when it is served, by a call that names the endpoint or the
      notification it waits at: a blocked sender by a `Recv`, a blocked receiver by a `Send` or
      `Call`, a waiter by a `Signal`. */
  lemma LeaverIsServed(k: Kernel, tr: Trap, p: Place)
    requires Inv(k) && p != ReadyQueue && Departure(k, Step(k, tr), p) != []
    ensures Serves(tr.frame.syscall, p) && ServedPlace(k, k.current.value, tr.frame) == Some(p)
    ensures IsServed(Step(k, tr), QueueAt(k, p)[0])
  {
    hide Handle;
    hide ServedPlace;
    DispatchMoves(k, tr);
    StepKeepsInv(k, tr);
    var (k', f') := Dispatch(k, tr);
    var x :| Does(x, k, tr.frame, k', f') && Causes(tr.frame.syscall, x);
    MoveServes(tr.frame.syscall, x, k, tr.frame, k', f', p);
    if ServedPlace(k, k.current.value, tr.frame) != Some(p) {
      OthersUndisturbed(k, tr, p);
      HeadOf(k', p);
      assert false;
    }
  }
}
