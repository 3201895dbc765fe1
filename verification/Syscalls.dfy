/** The syscall table and the dispatch step (src/syscall.rs), and runs of steps. */
module Syscalls {
  import opened Capabilities
  import opened Objects
  import opened State
  import Ipc
  import CNodes
  import Admin
  import Frames

  /** Re-enqueues the caller before it blocks, so there is always a thread to switch to. */
  function YieldNow(k: Kernel, cur: TcbId, f: Context): Outcome {
    var (k', f', switched) := BlockCurrent(MakeReady(k, cur), f);
    Outcome(k', ReplySuccess(f'), if switched then Ok else Panic)
  }

  /** A trap: the register state the running thread presents, and the HAL's answer in case the
      syscall walks a page table. */
  datatype Trap = Trap(frame: Context, walk: Frames.Walk)

  /** The handler's outcome, before an error is written to the frame. */
  function Handle(k: Kernel, cur: TcbId, tr: Trap): Outcome {
    var f := tr.frame;
    var n := f.syscall;
    if n == SEND then Ipc.Send(k, cur, f.Mr(0), f, false)
    else if n == NB_SEND then Ipc.Send(k, cur, f.Mr(0), f, true)
    else if n == RECV then Ipc.Recv(k, cur, f.Mr(0), f)
    else if n == CALL then Ipc.Call(k, cur, f.Mr(0), f)
    else if n == REPLY then Ipc.Reply(k, cur, f)
    else if n == SIGNAL then Ipc.Signal(k, cur, f.Mr(0), f)
    else if n == WAIT then Ipc.Wait(k, cur, f.Mr(0), f)
    else if n == POLL then Ipc.Poll(k, cur, f.Mr(0), f)
    else if n == CNODE_INVOKE then CNodes.Invoke(k, cur, f.Mr(0), f)
    else if n == UNTYPED_RETYPE then Admin.UntypedRetype(k, cur, f.Mr(0), f)
    else if n == TCB_CONFIGURE then Admin.Configure(k, cur, f.Mr(0), f)
    else if n == FRAME_INVOKE then Frames.Invoke(k, cur, f.Mr(0), f, tr.walk)
    else if n == YIELD then YieldNow(k, cur, f)
    else Outcome(k, f, Err(IllegalOperation))
  }

  /** One trap: the kernel and the frame it returns to. With no running thread, nothing happens. */
  function Dispatch(k: Kernel, tr: Trap): (Kernel, Context) {
    if k.current.None? then (k, tr.frame)
    else
      var o := Handle(k, k.current.value, tr);
      (o.k, if o.status.Err? then ReplyError(o.frame, o.status.error) else o.frame)
  }

  function Step(k: Kernel, tr: Trap): Kernel {
    Dispatch(k, tr).0
  }

  /** The kernel after a run of traps. Between two traps the running thread does what it likes
      with its registers, so the frames of a run are arbitrary. */
  function Run(k: Kernel, trs: seq<Trap>): Kernel
    decreases |trs|
  {
    if trs == [] then k else Run(Step(k, trs[0]), trs[1..])
  }
}
