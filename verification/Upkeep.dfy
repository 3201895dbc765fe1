/** The rest of well-formedness: queues stay normalized, waiting means no pending signal, pools
    stay within their capacity. With `Placement` this makes the invariant hold in every run. */
module Upkeep {
  import opened Limits
  import opened Words
  import opened Wrappers
  import opened Capabilities
  import opened Objects
  import opened State
  import opened Ipc
  import opened Invariants
  import opened Effects
  import opened Syscalls
  import opened AdminEffects
  import opened Placement
  import Pool
  import Admin
  import CNodes
  import Frames

  /** No object is made or spent: an IPC call changes slots, threads, queues and signals of
      the objects there are. */
  ghost predicate SameObjects(k: Kernel, k': Kernel) {
    && k' == k.(cnodes := k'.cnodes, tcbs := k'.tcbs, endpoints := k'.endpoints,
                notifications := k'.notifications, ready := k'.ready, current := k'.current)
    && k'.cnodes.Keys == k.cnodes.Keys
    && k'.tcbs.Keys == k.tcbs.Keys
    && k'.endpoints.Keys == k.endpoints.Keys
    && k'.notifications.Keys == k.notifications.Keys
  }

  /** What an IPC call keeps. */
  ghost predicate IpcTidy(k: Kernel, k': Kernel) {
    SameObjects(k, k') && Normalized(k') && Calm(k')
  }

  lemma TransferKeepsObjects(k: Kernel, receiver: TcbId, dest: Option<CPtr>, extra: Option<Capability>)
    ensures var r := Transfer(k, receiver, dest, extra); r.Success? ==> SameObjects(k, r.value)
  {
  }

  lemma ThreadWriteTidy(k: Kernel, k1: Kernel, k2: Kernel)
    requires IpcTidy(k, k1) && OnlyThreads(k1, k2)
    ensures IpcTidy(k, k2)
  {
  }

  predicate NormalQueue(q: EndpointQueue) {
    q != SendQueue([]) && q != RecvQueue([])
  }

  lemma EndpointWriteTidy(k: Kernel, k1: Kernel, id: EndpointId, q: EndpointQueue)
    requires IpcTidy(k, k1) && NormalQueue(q)
    ensures IpcTidy(k, SetEndpointQueue(k1, id, q))
  {
  }

  lemma SignalWriteTidy(k: Kernel, k1: Kernel, id: NotificationId, signals: Word, waiters: seq<TcbId>)
    requires IpcTidy(k, k1) && (waiters == [] || signals == 0)
    ensures IpcTidy(k, SetSignals(k1, id, signals, waiters))
  {
  }

  lemma BlockSenderTidy(k: Kernel, cur: TcbId, f: Context, m: Message, isCall: bool)
    requires Normalized(k) && Calm(k)
    requires m.endpoint in k.endpoints && !k.endpoints[m.endpoint].queue.RecvQueue?
    ensures IpcTidy(k, BlockSender(k, cur, f, m, isCall).k)
  {
    hide BlockCurrent;
    var queue := k.endpoints[m.endpoint].queue;
    var q := if queue.SendQueue? then queue.senders else [];
    if k.ready != [] && HasRoom(q) {
      EndpointWriteTidy(k, k, m.endpoint, SendQueue(PushBack(q, cur)));
      var k1 := SetEndpointQueue(k, m.endpoint, SendQueue(PushBack(q, cur)));
      var k2 := SetState(k1, cur, BlockedSend(m.endpoint, m.badge, isCall, m.extraCap, m.replyDestSlot));
      ThreadWriteTidy(k, k1, k2);
      ThreadWriteTidy(k, k2, Park(k2, f).k);
    }
  }

  lemma BlockReceiverTidy(k: Kernel, cur: TcbId, f: Context, id: EndpointId, dest: Option<CPtr>)
    requires Normalized(k) && Calm(k)
    requires id in k.endpoints && !k.endpoints[id].queue.SendQueue?
    ensures IpcTidy(k, BlockReceiver(k, cur, f, id, dest).k)
  {
    hide BlockCurrent;
    var queue := k.endpoints[id].queue;
    var q := if queue.RecvQueue? then queue.receivers else [];
    if k.ready != [] && HasRoom(q) {
      EndpointWriteTidy(k, k, id, RecvQueue(PushBack(q, cur)));
      var k1 := SetEndpointQueue(k, id, RecvQueue(PushBack(q, cur)));
      var k2 := SetState(k1, cur, BlockedRecv(id, dest));
      ThreadWriteTidy(k, k1, k2);
      ThreadWriteTidy(k, k2, Park(k2, f).k);
    }
  }

  lemma BlockWaiterTidy(k: Kernel, cur: TcbId, f: Context, id: NotificationId)
    requires Normalized(k) && Calm(k)
    requires id in k.notifications && k.notifications[id].signals == 0
    ensures IpcTidy(k, BlockWaiter(k, cur, f, id).k)
  {
    hide BlockCurrent;
    var n := k.notifications[id];
    if k.ready != [] && HasRoom(n.waiters) {
      SignalWriteTidy(k, k, id, n.signals, PushBack(n.waiters, cur));
      var k1 := SetSignals(k, id, n.signals, PushBack(n.waiters, cur));
      var k2 := SetState(k1, cur, BlockedWait(id));
      ThreadWriteTidy(k, k1, k2);
      ThreadWriteTidy(k, k2, Park(k2, f).k);
    }
  }

  lemma DeliverTidy(k: Kernel, m: Message, tag: MessageTag, q: seq<TcbId>)
    requires Normalized(k) && Calm(k) && q != []
    ensures var r := DeliverToReceiver(k, m, tag, q); r.Success? ==> IpcTidy(k, r.value)
  {
    var t := Transfer(k, q[0], BlockedReceiverDestSlot(k, q[0]), m.extraCap);
    TransferKeepsObjects(k, q[0], BlockedReceiverDestSlot(k, q[0]), m.extraCap);
    if t.Success? {
      var queue := Normalize(RecvQueue(q[1..]));
      EndpointWriteTidy(k, t.value, m.endpoint, queue);
      var k2 := SetEndpointQueue(t.value, m.endpoint, queue);
      ThreadWriteTidy(k, k2, DeliverPayload(k2, q[0], m.badge, m.payload, tag));
    }
  }

  lemma SendTidy(k: Kernel, cur: TcbId, cptr: CPtr, f: Context, nonblocking: bool)
    requires Normalized(k) && Calm(k)
    ensures IpcTidy(k, Send(k, cur, cptr, f, nonblocking).k)
  {
    var d := DecodeSend(k, cur, cptr, f);
    if d.Success? {
      var m := d.value;
      match k.endpoints[m.endpoint].queue
      case RecvQueue(q) =>
        DeliverTidy(k, m, f.tag, q);
        var r := DeliverToReceiver(k, m, f.tag, q);
        if r.Success? { ThreadWriteTidy(k, r.value, MakeReady(r.value, q[0])); }
      case _ =>
        BlockSenderTidy(k, cur, f, m, false);
    }
  }

  lemma CallTidy(k: Kernel, cur: TcbId, cptr: CPtr, f: Context)
    requires Normalized(k) && Calm(k)
    ensures IpcTidy(k, Call(k, cur, cptr, f).k)
  {
    var d := DecodeCall(k, cur, cptr, f);
    if d.Success? {
      var m := d.value;
      match k.endpoints[m.endpoint].queue
      case RecvQueue(q) =>
        DeliverTidy(k, m, f.tag, q);
        var r := DeliverToReceiver(k, m, f.tag, q);
        if r.Success? {
          ThreadWriteTidy(k, r.value, HandOver(r.value, cur, f, q[0], m.replyDestSlot).k);
        }
      case _ =>
        BlockSenderTidy(k, cur, f, m, true);
    }
  }

  lemma ReleaseSenderTidy(k: Kernel, k1: Kernel, cur: TcbId, id: EndpointId, q: seq<TcbId>,
                          isCall: bool, slot: Option<CPtr>)
    requires IpcTidy(k, k1) && q != []
    ensures IpcTidy(k, ReleaseSender(k1, cur, id, q, isCall, slot))
  {
    var queue := Normalize(SendQueue(q[1..]));
    EndpointWriteTidy(k, k1, id, queue);
    ThreadWriteTidy(k, SetEndpointQueue(k1, id, queue), ReleaseSender(k1, cur, id, q, isCall, slot));
  }

  lemma RecvTidy(k: Kernel, cur: TcbId, cptr: CPtr, f: Context)
    requires Normalized(k) && Calm(k)
    ensures IpcTidy(k, Recv(k, cur, cptr, f).k)
  {
    var d := DecodeRecv(k, cur, cptr, f);
    if d.Success? {
      var Reception(id, dest) := d.value;
      match k.endpoints[id].queue
      case SendQueue(q) =>
        if q[0] in k.tcbs && k.tcbs[q[0]].state.BlockedSend? {
          var st := k.tcbs[q[0]].state;
          TransferKeepsObjects(k, cur, dest, st.extraCap);
          var r := Transfer(k, cur, dest, st.extraCap);
          if r.Success? { ReleaseSenderTidy(k, r.value, cur, id, q, st.isCall, st.replyDestSlot); }
        }
      case _ =>
        BlockReceiverTidy(k, cur, f, id, dest);
    }
  }

  lemma AnswerTidy(k: Kernel, k1: Kernel, cur: TcbId, f: Context, t: TcbId, payload: Payload)
    requires IpcTidy(k, k1)
    ensures IpcTidy(k, AnswerCaller(k1, cur, f, t, payload).k)
  {
    ThreadWriteTidy(k, k1, AnswerCaller(k1, cur, f, t, payload).k);
  }

  lemma ReplyTidy(k: Kernel, cur: TcbId, f: Context)
    requires Normalized(k) && Calm(k)
    ensures IpcTidy(k, Reply(k, cur, f).k)
  {
    var d := DecodeReply(k, cur, f);
    if d.Success? {
      var Answer(t, extra, payload) := d.value;
      TransferKeepsObjects(k, t, BlockedCallerReplyDestSlot(k, t), extra);
      var r := Transfer(k, t, BlockedCallerReplyDestSlot(k, t), extra);
      if r.Success? {
        AnswerTidy(k, r.value, cur, f, t, payload);
      }
      hide AnswerCaller;
    }
  }

  lemma SignalTidy(k: Kernel, cur: TcbId, cptr: CPtr, f: Context)
    requires Normalized(k) && Calm(k)
    ensures IpcTidy(k, Signal(k, cur, cptr, f).k)
  {
    var d := ResolveNotification(k, cur, cptr, {Write});
    if d.Success? && d.value.notification in k.notifications {
      var NotificationTarget(id, badge) := d.value;
      var n := k.notifications[id];
      if n.waiters != [] {
        SignalWriteTidy(k, k, id, 0, n.waiters[1..]);
        ThreadWriteTidy(k, SetSignals(k, id, 0, n.waiters[1..]), WakeWaiter(k, id, badge));
      } else {
        SignalWriteTidy(k, k, id, Or(n.signals, badge), n.waiters);
      }
    }
  }

  lemma WaitTidy(k: Kernel, cur: TcbId, cptr: CPtr, f: Context)
    requires Normalized(k) && Calm(k)
    ensures IpcTidy(k, Wait(k, cur, cptr, f).k)
  {
    var d := ResolveNotification(k, cur, cptr, {Read});
    if d.Success? && d.value.notification in k.notifications {
      var id := d.value.notification;
      SignalWriteTidy(k, k, id, 0, k.notifications[id].waiters);
      if k.notifications[id].signals == 0 {
        BlockWaiterTidy(k, cur, f, id);
      }
    }
  }

  lemma PollTidy(k: Kernel, cur: TcbId, cptr: CPtr, f: Context)
    requires Normalized(k) && Calm(k)
    ensures IpcTidy(k, Poll(k, cur, cptr, f).k)
  {
    var d := ResolveNotification(k, cur, cptr, {Read});
    if d.Success? && d.value.notification in k.notifications {
      SignalWriteTidy(k, k, d.value.notification, 0, k.notifications[d.value.notification].waiters);
    }
  }

  lemma YieldTidy(k: Kernel, cur: TcbId, f: Context)
    requires Normalized(k) && Calm(k)
    ensures IpcTidy(k, YieldNow(k, cur, f).k)
  {
    ThreadWriteTidy(k, k, MakeReady(k, cur));
    ThreadWriteTidy(k, MakeReady(k, cur), YieldNow(k, cur, f).k);
  }

  // ------------------------------------------------------------ administration

  /** The objects in all pools but the Untypeds. */
  function LiveObjects(k: Kernel): nat {
    |k.cnodes| + |k.tcbs| + |k.endpoints| + |k.notifications| + |k.schedContexts| + |k.vspaces| + |k.frames|
  }

  ghost predicate SameBudgets(k: Kernel, k': Kernel) {
    && k'.untypeds.Keys == k.untypeds.Keys
    && forall u | u in k.untypeds :: k'.untypeds[u].remaining == k.untypeds[u].remaining
  }

  ghost predicate Tidy(k: Kernel) {
    Normalized(k) && Calm(k) && PoolsBounded(k) && BumpsBounded(k)
  }

  /** Making an object adds exactly one, within the capacity of its pool; a failed attempt
      adds none. */
  ghost predicate AddsOne(k: Kernel, c: Admin.Created) {
    && !c.MakePanic?
    && SameBudgets(k, c.k) && Tidy(c.k)
    && LiveObjects(c.k) == LiveObjects(k) + (if c.Made? then 1 else 0)
  }

  lemma NewCNodeTidy(k: Kernel, u: UntypedId)
    requires Tidy(k) && u in k.untypeds
    ensures AddsOne(k, Admin.NewObject(k, u, CNodeType))
  {
    Pool.AllocFindsFreeSlot(k.cnodes, MAX_CNODES, EmptyCNode());
  }

  lemma NewEndpointTidy(k: Kernel, u: UntypedId)
    requires Tidy(k) && u in k.untypeds
    ensures AddsOne(k, Admin.NewObject(k, u, EndpointType))
  {
    Pool.AllocFindsFreeSlot(k.endpoints, MAX_ENDPOINTS, Endpoint(Empty));
  }

  lemma NewNotificationTidy(k: Kernel, u: UntypedId)
    requires Tidy(k) && u in k.untypeds
    ensures AddsOne(k, Admin.NewObject(k, u, NotificationType))
  {
    Pool.AllocFindsFreeSlot(k.notifications, MAX_NOTIFICATIONS, Notification(0, []));
  }

  lemma NewTcbTidy(k: Kernel, u: UntypedId)
    requires Tidy(k) && u in k.untypeds
    ensures AddsOne(k, Admin.NewObject(k, u, TcbType))
  {
    Pool.AllocFindsFreeSlot(k.tcbs, MAX_TCBS, NewTcb());
  }

  lemma NewSchedContextTidy(k: Kernel, u: UntypedId)
    requires Tidy(k) && u in k.untypeds
    ensures AddsOne(k, Admin.NewObject(k, u, SchedContextType))
  {
    Pool.AllocFindsFreeSlot(k.schedContexts, MAX_SCHED_CONTEXTS, SchedulingContext(1, 1));
  }

  lemma NewVSpaceTidy(k: Kernel)
    requires Tidy(k)
    ensures AddsOne(k, Admin.NewVSpace(k))
  {
    var page := AllocTable(k.pageTables);
    if page.Some? {
      Pool.AllocFindsFreeSlot(k.vspaces, MAX_VSPACES, VSpace(page.value.1));
    }
    hide Pool.AllocIndex;
  }

  lemma BumpedTidy(k: Kernel, u: UntypedId, size: FrameSize)
    requires Tidy(k) && u in k.untypeds
    ensures var b := BumpUntyped(k.untypeds[u], size.Bytes(), size.Bytes());
            && !b.Overflow?
            && (b.Bumped? ==>
                  var k1 := k.(untypeds := k.untypeds[u := b.untyped]);
                  SameBudgets(k, k1) && Tidy(k1))
  {
    BumpStaysBounded(k.untypeds[u], size);
  }

  lemma AddFrameTidy(k: Kernel, paddr: Address, size: FrameSize)
    requires Tidy(k)
    ensures AddsOne(k, Admin.AddFrame(k, paddr, size))
  {
    Pool.AllocFindsFreeSlot(k.frames, MAX_FRAMES, Frame(paddr, size, [None, None]));
  }

  lemma NewFrameTidy(k: Kernel, u: UntypedId, size: FrameSize)
    requires Tidy(k) && u in k.untypeds
    ensures AddsOne(k, Admin.NewFrame(k, u, size))
  {
    var b := BumpUntyped(k.untypeds[u], size.Bytes(), size.Bytes());
    BumpedTidy(k, u, size);
    if b.Bumped? {
      var k1 := k.(untypeds := k.untypeds[u := b.untyped]);
      AddFrameTidy(k1, b.paddr, size);
      assert LiveObjects(k1) == LiveObjects(k);
    }
  }

  lemma NewObjectTidy(k: Kernel, u: UntypedId, t: ObjectType)
    requires Tidy(k) && u in k.untypeds
    ensures AddsOne(k, Admin.NewObject(k, u, t))
  {
    match t
    case CNodeType => NewCNodeTidy(k, u);
    case EndpointType => NewEndpointTidy(k, u);
    case NotificationType => NewNotificationTidy(k, u);
    case TcbType => NewTcbTidy(k, u);
    case SchedContextType => NewSchedContextTidy(k, u);
    case VSpaceType => NewVSpaceTidy(k);
    case FrameSmallType => NewFrameTidy(k, u, Small);
    case FrameMegaType => NewFrameTidy(k, u, Mega);
    case UntypedType =>
  }

  // ------------------------------------------------------------------ every call

  /** An administrative handler, called with or without a running thread, keeps the kernel tidy. */
  lemma AdministrationTidy(k: Kernel, cur: TcbId, tr: Trap)
    requires Tidy(k)
    ensures Tidy(CNodes.Invoke(k, cur, tr.frame.Mr(0), tr.frame).k)
    ensures Tidy(Admin.UntypedRetype(k, cur, tr.frame.Mr(0), tr.frame).k)
    ensures Tidy(Admin.Configure(k, cur, tr.frame.Mr(0), tr.frame).k)
    ensures Tidy(Frames.Invoke(k, cur, tr.frame.Mr(0), tr.frame, tr.walk).k)
  {
    CNodeInvokeTidy(k, cur, tr.frame);
    RetypeTidy(k, cur, tr.frame);
    ConfigureTidy(k, cur, tr.frame);
    FrameInvokeTidy(k, cur, tr.frame, tr.walk);
  }

  lemma CNodeInvokeTidy(k: Kernel, cur: TcbId, f: Context)
    requires Tidy(k)
    ensures Tidy(CNodes.Invoke(k, cur, f.Mr(0), f).k)
  {
    var k' := CNodes.Invoke(k, cur, f.Mr(0), f).k;
    assert k' == k.(cnodes := k'.cnodes);
    assert k'.cnodes.Keys == k.cnodes.Keys;
    SameKeysSameSize(k.cnodes, k'.cnodes);
  }

  lemma FrameInvokeTidy(k: Kernel, cur: TcbId, f: Context, w: Frames.Walk)
    requires Tidy(k)
    ensures Tidy(Frames.Invoke(k, cur, f.Mr(0), f, w).k)
  {
    SameKeysSameSize(k.frames, Frames.Invoke(k, cur, f.Mr(0), f, w).k.frames);
  }

  lemma ConfigureTidy(k: Kernel, cur: TcbId, f: Context)
    requires Tidy(k)
    ensures Tidy(Admin.Configure(k, cur, f.Mr(0), f).k)
  {
    var k' := Admin.Configure(k, cur, f.Mr(0), f).k;
    assert OnlyThreads(k, k');
    SameKeysSameSize(k.tcbs, k'.tcbs);
  }

  lemma RetypeTidy(k: Kernel, cur: TcbId, f: Context)
    requires Tidy(k)
    ensures Tidy(Admin.UntypedRetype(k, cur, f.Mr(0), f).k)
  {
    var d := Admin.DecodeRetype(k, cur, f.Mr(0), f);
    if d.Success? {
      NewObjectTidy(k, d.value.untyped, d.value.objectType);
      var c := Admin.NewObject(k, d.value.untyped, d.value.objectType);
      if c.Made? {
        var k1 := SetSlot(c.k, d.value.cnode, d.value.dest, c.cap);
        assert Tidy(k1);
        SpendBudgetTidy(k1, d.value.untyped);
      }
    }
  }

  lemma SpendBudgetTidy(k: Kernel, u: UntypedId)
    requires Tidy(k) && u in k.untypeds && k.untypeds[u].remaining > 0
    ensures Tidy(Admin.SpendBudget(k, u))
  {
  }

  lemma SameKeysSameSize<T>(m: map<nat, T>, m': map<nat, T>)
    requires m'.Keys == m.Keys
    ensures |m'| == |m|
  {
    assert |m| == |m.Keys| && |m'| == |m'.Keys|;
  }

  lemma IpcTidyIsTidy(k: Kernel, k': Kernel)
    requires Tidy(k) && IpcTidy(k, k')
    ensures Tidy(k')
  {
    SameKeysSameSize(k.cnodes, k'.cnodes);
    SameKeysSameSize(k.tcbs, k'.tcbs);
    SameKeysSameSize(k.endpoints, k'.endpoints);
    SameKeysSameSize(k.notifications, k'.notifications);
  }

  predicate IsIpc(n: Word) {
    1 <= n <= 8 || n == YIELD
  }

  lemma IpcHandlerTidy(k: Kernel, cur: TcbId, tr: Trap)
    requires Normalized(k) && Calm(k) && IsIpc(tr.frame.syscall)
    ensures IpcTidy(k, Handle(k, cur, tr).k)
  {
    var f := tr.frame;
    var n, cptr := f.syscall, f.Mr(0);
    if n == SEND {
      SendTidy(k, cur, cptr, f, false);
    } else if n == NB_SEND {
      SendTidy(k, cur, cptr, f, true);
    } else if n == RECV {
      RecvTidy(k, cur, cptr, f);
    } else if n == CALL {
      CallTidy(k, cur, cptr, f);
    } else if n == REPLY {
      ReplyTidy(k, cur, f);
    } else if n == SIGNAL {
      SignalTidy(k, cur, cptr, f);
    } else if n == WAIT {
      WaitTidy(k, cur, cptr, f);
    } else if n == POLL {
      PollTidy(k, cur, cptr, f);
    } else {
      YieldTidy(k, cur, f);
    }
  }

  lemma TidyParts(k: Kernel)
    ensures Tidy(k) ==> Normalized(k) && Calm(k)
  {
  }

  lemma HandlerTidy(k: Kernel, cur: TcbId, tr: Trap)
    requires Tidy(k)
    ensures Tidy(Handle(k, cur, tr).k)
  {
    hide CNodes.Invoke;
    hide Admin.UntypedRetype;
    hide Admin.Configure;
    hide Frames.Invoke;
    hide Tidy;
    TidyParts(k);
    if IsIpc(tr.frame.syscall) {
      IpcHandlerTidy(k, cur, tr);
      IpcTidyIsTidy(k, Handle(k, cur, tr).k);
    } else {
      AdministrationTidy(k, cur, tr);
    }
  }

  // ---------------------------------------------------------------- the invariant

  /** One trap, whatever the registers say, keeps the invariant. */
  lemma StepKeepsInv(k: Kernel, tr: Trap)
    requires Inv(k)
    ensures Inv(Step(k, tr))
  {
    DispatchMoves(k, tr);
    var (k', f') := Dispatch(k, tr);
    var x :| Does(x, k, tr.frame, k', f');
    MoveKeepsThreads(x, k, tr.frame, k', f');
    HandlerTidy(k, k.current.value, tr);
  }

  /** Every run keeps the invariant, so no trap of it panics and the hart is never without a
      running thread. */
  lemma {:induction false} RunKeepsInv(k: Kernel, trs: seq<Trap>)
    requires Inv(k)
    ensures Inv(Run(k, trs))
    decreases |trs|
  {
    if trs != [] {
      StepKeepsInv(k, trs[0]);
      RunKeepsInv(Step(k, trs[0]), trs[1..]);
    }
  }
}
