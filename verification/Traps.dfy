/** What each trap comes to, told by the kernel and the registers before it: refused, with which error,
    or done, with which effect. The capability a call uses is read off the slot that its register names. */
module Traps {
  import opened Wrappers
  import opened Capabilities
  import opened Objects
  import opened State
  import opened Invariants
  import opened Syscalls
  import opened Designation
  import opened IpcRefusals
  import opened IpcOutcomes
  import opened AdminRefusals
  import AdminEffects
  import Failure
  import Ipc
  import Admin
  import CNodes
  import Frames
  import Upkeep

  // ------------------------------------------------------------------------ every call

  /** The error of a call, if it has one. */
  function RefusalOf(k: Kernel, cur: TcbId, tr: Trap): Refusal {
    var (f, n) := (tr.frame, tr.frame.syscall);
    if n == SEND || n == NB_SEND then SendRefusal(k, cur, f, n == SEND)
    else if n == RECV then RecvRefusal(k, cur, f)
    else if n == CALL then CallRefusal(k, cur, f)
    else if n == REPLY then ReplyRefusal(k, cur, f)
    else if n == SIGNAL then SignalRefusal(k, cur, f)
    else if n == WAIT then WaitRefusal(k, cur, f)
    else if n == POLL then PollRefusal(k, cur, f)
    else if n == CNODE_INVOKE then CNodeRefusal(k, cur, f)
    else if n == UNTYPED_RETYPE then RetypeRefusal(k, cur, f)
    else if n == TCB_CONFIGURE then ConfigureRefusal(k, cur, f)
    else if n == FRAME_INVOKE then FrameRefusal(k, cur, f, tr.walk)
    else if n == YIELD then None
    else Some(IllegalOperation)
  }

  /** The kernel after a refused call: as it was, but for memory that was taken before the call failed. */
  function AfterRefusal(k: Kernel, cur: TcbId, tr: Trap): Kernel {
    var n := tr.frame.syscall;
    if n == UNTYPED_RETYPE then AfterRetypeRefusal(k, cur, tr.frame)
    else if n == FRAME_INVOKE then AfterFrameRefusal(k, FrameRefusal(k, cur, tr.frame, tr.walk))
    else k
  }

  /** The effect of an IPC call, or a `Yield`, that is not refused. */
  ghost predicate IpcDone(k: Kernel, cur: TcbId, tr: Trap, o: Outcome) {
    var (f, n, c) := (tr.frame, tr.frame.syscall, Designated(k, cur, tr.frame.mrs[0]));
    if n == YIELD then YieldDone(k, f, o)
    else if n == REPLY then cur in k.tcbs && k.tcbs[cur].replyTo.Some? && ReplyDone(k, cur, f, o)
    else if n == SIGNAL || n == WAIT || n == POLL then
      && c.NotificationCap? && c.notification in k.notifications
      && (if n == SIGNAL then SignalDone(k, cur, f, o)
          else if n == WAIT then WaitDone(k, cur, f, o)
          else PollDone(k, cur, f, o))
    else
      && c.EndpointCap?
      && (if n == RECV then RecvDone(k, cur, f, o)
          else if n == CALL then CallDone(k, cur, f, o)
          else SendDone(k, cur, f, n == SEND, o))
  }

  /** The effect of an administrative call that is not refused. */
  predicate AdminDone(k: Kernel, cur: TcbId, tr: Trap, o: Outcome) {
    var (f, n, c) := (tr.frame, tr.frame.syscall, Designated(k, cur, tr.frame.mrs[0]));
    && o.frame == ReplySuccess(f)
    && if n == CNODE_INVOKE then c.CNodeCap? && OperationDone(k, cur, c.cnode, f, o.k)
       else if n == UNTYPED_RETYPE then RetypeDone(k, cur, f, o.k)
       else if n == TCB_CONFIGURE then ConfigureRefusal(k, cur, f).None? && ConfigureDone(k, cur, f, o.k)
       else
         && n == FRAME_INVOKE && c.FrameCap?
         && (if f.tag.labelId == Frames.LABEL_MAP then MapDone(k, cur, c.frame, f, tr.walk, o.k)
             else UnmapDone(k, cur, c.frame, f, o.k))
  }

  ghost predicate Done(k: Kernel, cur: TcbId, tr: Trap, o: Outcome) {
    if Upkeep.IsIpc(tr.frame.syscall) then Upkeep.SameObjects(k, o.k) && IpcDone(k, cur, tr, o)
    else AdminDone(k, cur, tr, o)
  }

  /** The handler succeeds exactly if the call is not refused, and then does what it is for. */
  ghost predicate Exact(k: Kernel, cur: TcbId, tr: Trap) {
    var o := Handle(k, cur, tr);
    && o.status == StatusOf(RefusalOf(k, cur, tr))
    && (RefusalOf(k, cur, tr).None? ==> Done(k, cur, tr, o))
    && (RefusalOf(k, cur, tr).Some? ==> o.frame == tr.frame && o.k == AfterRefusal(k, cur, tr))
  }

  ghost predicate IpcExact(k: Kernel, cur: TcbId, tr: Trap) {
    var o := Handle(k, cur, tr);
    && o.status == StatusOf(RefusalOf(k, cur, tr))
    && (RefusalOf(k, cur, tr).None? ==> IpcDone(k, cur, tr, o))
  }

  lemma SendIsExact(k: Kernel, tr: Trap)
    requires Inv(k) && (tr.frame.syscall == SEND || tr.frame.syscall == NB_SEND)
    ensures IpcExact(k, k.current.value, tr)
  {
    hide WellFormed;
    hide Ipc.Send;
    hide SendRefusal;
    hide SendDone;
    hide Designated;
    var (cur, f, n) := (k.current.value, tr.frame, tr.frame.syscall);
    SendStatus(k, f, n == NB_SEND);
    if SendRefusal(k, cur, f, n == SEND).None? { SendOutcome(k, f, n == NB_SEND); }
  }

  lemma RecvIsExact(k: Kernel, tr: Trap)
    requires Inv(k) && tr.frame.syscall == RECV
    ensures IpcExact(k, k.current.value, tr)
  {
    hide WellFormed;
    hide Ipc.Recv;
    hide RecvRefusal;
    hide RecvDone;
    hide Designated;
    RecvStatus(k, tr.frame);
    if RecvRefusal(k, k.current.value, tr.frame).None? { RecvOutcome(k, tr.frame); }
  }

  lemma CallIsExact(k: Kernel, tr: Trap)
    requires Inv(k) && tr.frame.syscall == CALL
    ensures IpcExact(k, k.current.value, tr)
  {
    hide WellFormed;
    hide Ipc.Call;
    hide CallRefusal;
    hide CallDone;
    hide Designated;
    CallStatus(k, tr.frame);
    if CallRefusal(k, k.current.value, tr.frame).None? { CallOutcome(k, tr.frame); }
  }

  lemma ReplyIsExact(k: Kernel, tr: Trap)
    requires Inv(k) && tr.frame.syscall == REPLY
    ensures IpcExact(k, k.current.value, tr)
  {
    hide WellFormed;
    hide Ipc.Reply;
    hide ReplyRefusal;
    hide ReplyDone;
    hide Designated;
    ReplyStatus(k, tr.frame);
    if ReplyRefusal(k, k.current.value, tr.frame).None? { ReplyOutcome(k, tr.frame); }
  }

  lemma YieldIsExact(k: Kernel, tr: Trap)
    requires Inv(k) && tr.frame.syscall == YIELD
    ensures IpcExact(k, k.current.value, tr)
  {
    hide WellFormed;
    hide YieldNow;
    hide YieldDone;
    hide Designated;
    YieldOutcome(k, tr.frame);
  }

  lemma NotificationCallIsExact(k: Kernel, tr: Trap)
    requires Inv(k)
    requires var n := tr.frame.syscall; n == SIGNAL || n == WAIT || n == POLL
    ensures IpcExact(k, k.current.value, tr)
  {
    hide WellFormed;
    hide Ipc.Signal;
    hide Ipc.Wait;
    hide Ipc.Poll;
    hide NotificationRefusal;
    hide WaitRefusal;
    hide SignalDone;
    hide WaitDone;
    hide PollDone;
    hide Designated;
    var (cur, f, n) := (k.current.value, tr.frame, tr.frame.syscall);
    if n == SIGNAL {
      SignalStatus(k, cur, f);
      if SignalRefusal(k, cur, f).None? { SignalOutcome(k, f); }
    } else if n == WAIT {
      WaitStatus(k, f);
      if WaitRefusal(k, cur, f).None? { WaitOutcome(k, f); }
    } else {
      PollStatus(k, cur, f);
      if PollRefusal(k, cur, f).None? { PollOutcome(k, cur, f); }
    }
  }

  lemma AdministrativeCallIsExact(k: Kernel, tr: Trap)
    requires WellFormed(k) && k.current.Some? && !Upkeep.IsIpc(tr.frame.syscall)
    ensures Exact(k, k.current.value, tr)
  {
    hide WellFormed;
    hide CNodeRefusal;
    hide ConfigureRefusal;
    hide RetypeRefusal;
    hide FrameRefusal;
    hide AfterRetypeRefusal;
    hide AfterFrameRefusal;
    hide OperationDone;
    hide ConfigureDone;
    hide RetypeDone;
    hide MapDone;
    hide UnmapDone;
    hide Designated;
    hide CNodes.Invoke;
    hide Admin.Configure;
    hide Admin.UntypedRetype;
    hide Frames.Invoke;
    var (cur, f) := (k.current.value, tr.frame);
    if f.syscall == CNODE_INVOKE {
      CNodeInvokeIsExact(k, cur, f);
    } else if f.syscall == TCB_CONFIGURE {
      ConfigureIsExact(k, cur, f);
    } else if f.syscall == UNTYPED_RETYPE {
      RetypeIsExact(k, cur, f);
    } else if f.syscall == FRAME_INVOKE {
      FrameInvokeIsExact(k, cur, f, tr.walk);
    }
  }

  lemma IpcKeepsObjects(k: Kernel, tr: Trap)
    requires Inv(k) && Upkeep.IsIpc(tr.frame.syscall)
    ensures Upkeep.SameObjects(k, Handle(k, k.current.value, tr).k)
  {
    hide Handle;
    Upkeep.IpcHandlerTidy(k, k.current.value, tr);
  }

  lemma IpcRefusedIsQuiet(k: Kernel, tr: Trap)
    requires Inv(k) && Upkeep.IsIpc(tr.frame.syscall)
    ensures var o := Handle(k, k.current.value, tr); o.status.Err? ==> o.frame == tr.frame && o.k == k
  {
    hide Handle;
    hide WellFormed;
    var o := Handle(k, k.current.value, tr);
    if o.status.Err? {
      Failure.FailureIsClean(k, tr, o.status.error);
      AdminEffects.HandlerBehaves(k, tr);
    }
  }

  lemma IpcIsExact(k: Kernel, tr: Trap)
    requires Inv(k) && Upkeep.IsIpc(tr.frame.syscall)
    ensures IpcExact(k, k.current.value, tr)
  {
    hide IpcExact;
    hide WellFormed;
    var n := tr.frame.syscall;
    if n == SEND || n == NB_SEND {
      SendIsExact(k, tr);
    } else if n == RECV {
      RecvIsExact(k, tr);
    } else if n == CALL {
      CallIsExact(k, tr);
    } else if n == REPLY {
      ReplyIsExact(k, tr);
    } else if n == YIELD {
      YieldIsExact(k, tr);
    } else {
      NotificationCallIsExact(k, tr);
    }
  }

  lemma HandlerIsExact(k: Kernel, tr: Trap)
    requires Inv(k)
    ensures Exact(k, k.current.value, tr)
  {
    hide Handle;
    hide RefusalOf;
    hide IpcDone;
    hide AdminDone;
    if Upkeep.IsIpc(tr.frame.syscall) {
      IpcIsExact(k, tr);
      IpcKeepsObjects(k, tr);
      IpcRefusedIsQuiet(k, tr);
    } else {
      AdministrativeCallIsExact(k, tr);
    }
  }

  /** A call succeeds exactly if it is not refused. */
  lemma StatusIsExact(k: Kernel, tr: Trap)
    requires Inv(k)
    ensures Handle(k, k.current.value, tr).status == StatusOf(RefusalOf(k, k.current.value, tr))
  {
    HandlerIsExact(k, tr);
    hide Handle;
    hide RefusalOf;
    hide Done;
    hide WellFormed;
  }

  /** Every trap, from the kernel and the registers before it: a refused call reports its error in mr0 and
      in the tag and touches nothing else, save memory taken before it failed; any other has its one
      effect. */
  lemma TrapIsExact(k: Kernel, tr: Trap)
    requires Inv(k)
    ensures var (cur, (k', f')) := (k.current.value, Dispatch(k, tr));
            match RefusalOf(k, cur, tr)
            case Some(e) => Failure.OnlyReports(tr.frame, f', e) && k' == AfterRefusal(k, cur, tr)
            case None => Done(k, cur, tr, Outcome(k', f', Ok))
  {
    var cur := k.current.value;
    HandlerIsExact(k, tr);
    hide Handle;
    hide RefusalOf;
    hide Done;
    hide WellFormed;
    hide AfterRefusal;
  }
}
