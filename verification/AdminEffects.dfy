/** The administrative calls and `Yield` behave, and so does every trap. The administrative
    handlers need no running thread: boot code calls them directly. */
module AdminEffects {
  import opened Wrappers
  import opened Capabilities
  import opened Objects
  import opened State
  import opened Invariants
  import opened Effects
  import opened Syscalls
  import opened IpcEffects
  import Admin
  import CNodes
  import Frames

  /** Writing slots moves no thread. */
  lemma CNodeInvokeEffect(k: Kernel, cur: TcbId, cptr: CPtr, f: Context)
    ensures Behaves(CNODE_INVOKE, k, f, CNodes.Invoke(k, cur, cptr, f))
  {
    var d := CNodes.ResolveCNode(k, cur, cptr);
    if d.Success? {
      var o := CNodes.Invoke(k, cur, cptr, f);
      QueuesFrame(k, o.k);
      assert Does(Quiet, k, f, o.k, o.frame);
    } else {
      QueuesFrame(k, k);
    }
  }

  lemma FrameInvokeEffect(k: Kernel, cur: TcbId, cptr: CPtr, f: Context, w: Frames.Walk)
    ensures Behaves(FRAME_INVOKE, k, f, Frames.Invoke(k, cur, cptr, f, w))
  {
    var o := Frames.Invoke(k, cur, cptr, f, w);
    QueuesFrame(k, o.k);
    assert Does(Quiet, k, f, o.k, o.frame);
  }

  /** The configured TCB, before the thread is admitted. */
  function ConfiguredTcb(k: Kernel, c: Admin.Configuration): Tcb
    requires c.target in k.tcbs
  {
    k.tcbs[c.target].(cspace := Some(c.cspace), schedContext := Some(c.sched), addressSpace := c.addressSpace)
  }

  lemma ReconfigureEffect(k: Kernel, c: Admin.Configuration)
    requires c.target in k.tcbs && k.tcbs[c.target].state != Inactive
    ensures Reconfigures(c.target, ConfiguredTcb(k, c), k, Admin.ApplyConfiguration(k, c))
  {
    QueuesFrame(k, Admin.ApplyConfiguration(k, c));
  }

  lemma AdmitEffect(k: Kernel, c: Admin.Configuration)
    requires Placed(k) && PoolsBounded(k)
    requires c.target in k.tcbs && k.tcbs[c.target].state == Inactive
    ensures Admits(c.target, ConfiguredTcb(k, c).(state := Ready), k, Admin.ApplyConfiguration(k, c))
  {
    var t, k' := c.target, Admin.ApplyConfiguration(k, c);
    QueueHasRoom(k, ReadyQueue, t);
    var k1 := k.(tcbs := k.tcbs[t := ConfiguredTcb(k, c)]);
    assert k' == MakeReady(k1, t);
    assert k'.tcbs == k1.tcbs[t := k1.tcbs[t].(state := Ready)];
    QueuesFrame(k, k');
  }

  lemma ConfigureEffect(k: Kernel, cur: TcbId, cptr: CPtr, f: Context)
    requires WellFormed(k)
    ensures Behaves(TCB_CONFIGURE, k, f, Admin.Configure(k, cur, cptr, f))
  {
    hide LookupCap;
    hide Admin.ApplyConfiguration;
    hide Placed;
    hide Linked;
    hide PoolsBounded;
    var o := Admin.Configure(k, cur, cptr, f);
    var d := Admin.DecodeConfigure(k, cur, cptr, f);
    if d.Success? {
      var t, tcb := d.value.target, ConfiguredTcb(k, d.value);
      if k.tcbs[t].state == Inactive {
        AdmitEffect(k, d.value);
        assert Does(Admitted(t, tcb.(state := Ready)), k, f, o.k, o.frame);
      } else {
        ReconfigureEffect(k, d.value);
        assert Does(Configured(t, tcb), k, f, o.k, o.frame);
      }
    } else {
      QueuesFrame(k, k);
    }
  }

  // -------------------------------------------------------------------- retype

  lemma BumpStaysBounded(u: Untyped, size: FrameSize)
    requires UntypedBounded(u)
    ensures var b := BumpUntyped(u, size.Bytes(), size.Bytes());
            && !b.Overflow?
            && (b.Bumped? ==> UntypedBounded(b.untyped) && b.untyped.remaining == u.remaining)
  {
  }

  /** The threads and queues of `c` are those of `k`, up to a new thread that is not configured. */
  ghost predicate AddsAtMostAThread(k: Kernel, k': Kernel) {
    && k'.current == k.current && k'.ready == k.ready
    && SameQueuesBut(k, k', {})
    && (k'.tcbs == k.tcbs || exists i: TcbId :: i !in k.tcbs && k'.tcbs == k.tcbs[i := NewTcb()])
  }

  ghost predicate MakesQuietly(k: Kernel, c: Admin.Created) {
    && !c.MakePanic?
    && (c.NotMade? ==> c.k == k.(untypeds := c.k.untypeds, pageTables := c.k.pageTables))
    && (c.Made? ==> AddsAtMostAThread(k, c.k))
  }

  lemma SameThreadsAddNone(k: Kernel, k': Kernel)
    requires k'.tcbs == k.tcbs && k'.ready == k.ready && k'.current == k.current
    requires k'.endpoints == k.endpoints && k'.notifications == k.notifications
    ensures AddsAtMostAThread(k, k')
  {
    QueuesFrame(k, k');
  }

  lemma NewFrameEffect(k: Kernel, u: UntypedId, size: FrameSize)
    requires BumpsBounded(k) && u in k.untypeds
    ensures MakesQuietly(k, Admin.NewFrame(k, u, size))
  {
    hide AddsAtMostAThread;
    BumpStaysBounded(k.untypeds[u], size);
    hide BumpUntyped;
    var c := Admin.NewFrame(k, u, size);
    if c.Made? { SameThreadsAddNone(k, c.k); }
  }

  lemma NewVSpaceEffect(k: Kernel)
    ensures MakesQuietly(k, Admin.NewVSpace(k))
  {
    hide AddsAtMostAThread;
    var c := Admin.NewVSpace(k);
    if c.Made? { SameThreadsAddNone(k, c.k); }
  }

  lemma NewTcbEffect(k: Kernel, i: TcbId)
    requires i !in k.tcbs
    ensures AddsAtMostAThread(k, k.(tcbs := k.tcbs[i := NewTcb()]))
  {
    QueuesFrame(k, k.(tcbs := k.tcbs[i := NewTcb()]));
  }

  /** The kernel after the object has been made, as far as threads are concerned. */
  lemma NewObjectEffect(k: Kernel, u: UntypedId, t: ObjectType)
    requires BumpsBounded(k) && u in k.untypeds
    ensures MakesQuietly(k, Admin.NewObject(k, u, t))
  {
    hide AddsAtMostAThread;
    hide Admin.NewFrame;
    hide Admin.NewVSpace;
    var c := Admin.NewObject(k, u, t);
    match t
    case EndpointType =>
      if c.Made? { NewEndpointEffect(k, c.k, c.cap.endpoint); }
    case NotificationType =>
      if c.Made? { NewNotificationEffect(k, c.k, c.cap.notification); }
    case TcbType =>
      if c.Made? { NewTcbEffect(k, c.cap.tcb); }
    case CNodeType | SchedContextType =>
      if c.Made? { SameThreadsAddNone(k, c.k); }
    case VSpaceType => NewVSpaceEffect(k);
    case FrameSmallType => NewFrameEffect(k, u, Small);
    case FrameMegaType => NewFrameEffect(k, u, Mega);
    case UntypedType =>
  }

  lemma NewEndpointEffect(k: Kernel, k': Kernel, i: EndpointId)
    requires i !in k.endpoints && k' == k.(endpoints := k.endpoints[i := Endpoint(Empty)])
    ensures AddsAtMostAThread(k, k')
  {
    FreshEndpointFrame(k, k', i);
  }

  lemma NewNotificationEffect(k: Kernel, k': Kernel, i: NotificationId)
    requires i !in k.notifications && k' == k.(notifications := k.notifications[i := Notification(0, [])])
    ensures AddsAtMostAThread(k, k')
  {
    FreshNotificationFrame(k, k', i);
  }

  lemma RetypeEffect(k: Kernel, cur: TcbId, cptr: CPtr, f: Context)
    requires WellFormed(k)
    ensures Behaves(UNTYPED_RETYPE, k, f, Admin.UntypedRetype(k, cur, cptr, f))
  {
    var o := Admin.UntypedRetype(k, cur, cptr, f);
    var d := Admin.DecodeRetype(k, cur, cptr, f);
    if d.Success? {
      NewObjectEffect(k, d.value.untyped, d.value.objectType);
      var c := Admin.NewObject(k, d.value.untyped, d.value.objectType);
      if c.Made? {
        QueuesFrame(c.k, o.k);
        if o.k.tcbs == k.tcbs {
          assert Does(Quiet, k, f, o.k, o.frame);
        } else {
          var i: TcbId :| i !in k.tcbs && c.k.tcbs == k.tcbs[i := NewTcb()];
          assert Does(Created(i), k, f, o.k, o.frame);
        }
      } else {
        QueuesFrame(k, o.k);
      }
    } else {
      QueuesFrame(k, k);
    }
  }

  // --------------------------------------------------------------------- yield

  /** The caller joins the ready queue before it is popped, so it may be its own successor. */
  lemma YieldEffect(k: Kernel, f: Context)
    requires Inv(k)
    ensures Behaves(YIELD, k, f, YieldNow(k, k.current.value, f))
    ensures var o := YieldNow(k, k.current.value, f);
            o.status.Ok? && Does(Parked(ReadyQueue, Ready), k, f, o.k, o.frame)
  {
    hide Linked;
    hide PoolsBounded;
    var cur := k.current.value;
    var o := YieldNow(k, cur, f);
    QueueHasRoom(k, ReadyQueue, cur);
    var k1 := MakeReady(k, cur);
    assert k1.ready == k.ready + [cur];
    assert k1.ready[0] in k.tcbs by {
      if k.ready != [] { HeadOf(k, ReadyQueue); }
    }
    BlockCurrentResult(k1, f);
    assert k1.tcbs[cur := k1.tcbs[cur].(context := f)]
        == k.tcbs[cur := k.tcbs[cur].(state := Ready, context := f)];
    QueuesFrame(k, o.k);
    assert Does(Parked(ReadyQueue, Ready), k, f, o.k, o.frame);
  }

  // ------------------------------------------------------------------ every call

  /** Whatever registers the running thread traps with, the handler neither panics nor does
      anything but fail cleanly or make one move. */
  lemma HandlerBehaves(k: Kernel, tr: Trap)
    requires Inv(k)
    ensures Behaves(tr.frame.syscall, k, tr.frame, Handle(k, k.current.value, tr))
  {
    var cur, f := k.current.value, tr.frame;
    var n, cptr := f.syscall, f.Mr(0);
    if n == SEND {
      SendEffect(k, cptr, f, false);
    } else if n == NB_SEND {
      SendEffect(k, cptr, f, true);
    } else if n == RECV {
      RecvEffect(k, cptr, f);
    } else if n == CALL {
      CallEffect(k, cptr, f);
    } else if n == REPLY {
      ReplyEffect(k, f);
    } else if n == SIGNAL {
      SignalEffect(k, cptr, f);
    } else if n == WAIT {
      WaitEffect(k, cptr, f);
    } else if n == POLL {
      PollEffect(k, cptr, f);
    } else if n == CNODE_INVOKE {
      CNodeInvokeEffect(k, cur, cptr, f);
    } else if n == UNTYPED_RETYPE {
      RetypeEffect(k, cur, cptr, f);
    } else if n == TCB_CONFIGURE {
      ConfigureEffect(k, cur, cptr, f);
    } else if n == FRAME_INVOKE {
      FrameInvokeEffect(k, cur, cptr, f, tr.walk);
    } else if n == YIELD {
      YieldEffect(k, f);
    } else {
      QueuesFrame(k, k);
    }
  }

  /** Every trap makes one move. */
  lemma DispatchMoves(k: Kernel, tr: Trap)
    requires Inv(k)
    ensures Moves(tr.frame.syscall, k, tr.frame, Dispatch(k, tr).0, Dispatch(k, tr).1)
  {
    HandlerBehaves(k, tr);
    var o := Handle(k, k.current.value, tr);
    if o.status.Err? {
      assert Does(Quiet, k, tr.frame, o.k, Dispatch(k, tr).1);
    }
  }
}
