/** The trap entry as it runs (src/syscall.rs): from any state that satisfies the invariant it takes
    the kernel and the frame through one step of the transition system, and never panics. */
module SyscallMachine {
  import opened Wrappers
  import opened Capabilities
  import opened Objects
  import opened TrapFrames
  import opened State
  import opened Machine
  import opened Invariants
  import opened Effects
  import opened IpcMachine
  import opened AdminMachine
  import opened FrameMachine
  import AdminEffects
  import Upkeep
  import Failure
  import Frames
  import Syscalls
  import Traps

  /** The caller is queued before the queue is popped, so there is always a thread to switch to. */
  method YieldNow(state: KernelState, current: TcbId, frame: TrapFrame)
    requires state.Valid() && frame.Valid() && frame.Repr !! state.Repr
    requires !Syscalls.YieldNow(state.Model(), current, frame.View()).status.Panic?
    modifies state.Repr, frame.Repr
    ensures state.Valid()
    ensures Outcome(state.Model(), frame.View(), Ok)
         == Syscalls.YieldNow(old(state.Model()), current, old(frame.View()))
  {
    hide KernelState.Valid;
    hide KernelState.Model;
    hide State.MakeReady;
    hide State.BlockCurrent;
    state.MakeReady(current);
    var switched := state.BlockCurrent(frame);
    assert switched;
    frame.Succeed();
  }

  /** The handler a trap selects. */
  method Handle(state: KernelState, current: TcbId, frame: TrapFrame, walk: Frames.Walk)
    returns (r: Result<(), SyscallError>)
    requires state.Valid() && frame.Valid() && frame.Repr !! state.Repr
    requires !Syscalls.Handle(state.Model(), current, Syscalls.Trap(frame.View(), walk)).status.Panic?
    modifies state.Repr, frame.Repr
    ensures state.Valid()
    ensures Outcome(state.Model(), frame.View(), StatusOf(r))
         == Syscalls.Handle(old(state.Model()), current, Syscalls.Trap(old(frame.View()), walk))
  {
    hide KernelState.Valid;
    hide KernelState.Model;
    hide Ipc.Send;
    hide Ipc.Recv;
    hide Ipc.Call;
    hide Ipc.Reply;
    hide Ipc.Signal;
    hide Ipc.Wait;
    hide Ipc.Poll;
    hide CNodes.Invoke;
    hide Admin.UntypedRetype;
    hide Admin.Configure;
    hide Frames.Invoke;
    hide Syscalls.YieldNow;
    var n, cptr := frame.syscall, frame.mrs[0];
    if n == SEND {
      r := Send(state, current, cptr, frame, false);
    } else if n == NB_SEND {
      r := Send(state, current, cptr, frame, true);
    } else if n == RECV {
      r := Recv(state, current, cptr, frame);
    } else if n == CALL {
      r := Call(state, current, cptr, frame);
    } else if n == REPLY {
      r := Reply(state, current, frame);
    } else if n == SIGNAL {
      r := Signal(state, current, cptr, frame);
    } else if n == WAIT {
      r := Wait(state, current, cptr, frame);
    } else if n == POLL {
      r := Poll(state, current, cptr, frame);
    } else if n == CNODE_INVOKE {
      r := CNodeInvoke(state, current, cptr, frame);
    } else if n == UNTYPED_RETYPE {
      r := UntypedRetype(state, current, cptr, frame);
    } else if n == TCB_CONFIGURE {
      r := Configure(state, current, cptr, frame);
    } else if n == FRAME_INVOKE {
      r := FrameInvoke(state, current, cptr, frame, walk);
    } else if n == YIELD {
      YieldNow(state, current, frame);
      r := Success(());
    } else {
      r := Failure(IllegalOperation);
    }
  }

  /** The real entry point. Under the invariant it computes exactly the dispatch step, whatever the
      registers hold, and the invariant holds again when the trap returns. */
  method Dispatch(state: KernelState, frame: TrapFrame, walk: Frames.Walk)
    requires state.Valid() && frame.Valid() && frame.Repr !! state.Repr
    requires Inv(state.Model())
    modifies state.Repr, frame.Repr
    ensures state.Valid() && Inv(state.Model())
    ensures (state.Model(), frame.View())
         == Syscalls.Dispatch(old(state.Model()), Syscalls.Trap(old(frame.View()), walk))
    ensures var (k, tr) := (old(state.Model()), Syscalls.Trap(old(frame.View()), walk));
            match Traps.RefusalOf(k, k.current.value, tr)
            case Some(e) =>
              && Failure.OnlyReports(tr.frame, frame.View(), e)
              && state.Model() == Traps.AfterRefusal(k, k.current.value, tr)
            case None => Traps.Done(k, k.current.value, tr, Outcome(state.Model(), frame.View(), Ok))
  {
    hide KernelState.Valid;
    hide KernelState.Model;
    hide Syscalls.Handle;
    hide Inv;
    hide Does;
    hide Moves;
    ghost var k, tr := state.Model(), Syscalls.Trap(frame.View(), walk);
    AdminEffects.HandlerBehaves(k, tr);
    Upkeep.StepKeepsInv(k, tr);
    Traps.TrapIsExact(k, tr);
    hide Traps.RefusalOf;
    hide Traps.Done;
    hide Traps.AfterRefusal;
    var current := state.GetCurrent();
    if current.None? {
      return;
    }
    var r := Handle(state, current.value, frame, walk);
    if r.Failure? {
      frame.Fail(r.error);
    }
  }
}
