/** `FrameInvoke` as it runs (src/frame.rs): the spare pages for the page-table walk are taken in
    a loop, and those the walk leaves are given back. */
module FrameMachine {
  import opened Limits
  import opened Words
  import opened Wrappers
  import opened Capabilities
  import opened Objects
  import opened TrapFrames
  import opened State
  import opened Machine
  import opened Frames
  import AdminMachine
  import IpcMachine

  /** Takes `count` spare pages one after the other; on failure the pages taken stay taken. */
  method AllocSparePages(state: KernelState, count: nat) returns (r: Option<seq<Address>>)
    requires state.Valid()
    modifies state.Repr
    ensures state.Valid()
    ensures var (t, spares) := AllocSpares(old(state.Model()).pageTables, count);
            r == spares && state.Model() == old(state.Model()).(pageTables := t)
    ensures r.Some? ==> |r.value| == count && count * PAGE_SIZE <= state.Model().pageTables.next
  {
    hide KernelState.Valid;
    hide KernelState.Model;
    ghost var k := state.Model();
    var spares: seq<Address> := [];
    AfterNothing(AllocSpares(k.pageTables, count));
    for i := 0 to count
      invariant state.Valid() && state.Model() == k.(pageTables := state.Model().pageTables)
      invariant |spares| == i && i * PAGE_SIZE <= state.Model().pageTables.next
      invariant AllocSpares(k.pageTables, count) == After(spares, AllocSpares(state.Model().pageTables, count - i))
    {
      var page := state.AllocPage();
      if page.None? {
        return None;
      }
      spares := spares + [page.value];
      assert forall rest: seq<Address> :: spares + rest == spares[..i] + ([page.value] + rest);
    }
    assert spares + [] == spares;
    r := Some(spares);
  }

  /** The outcome of taking pages when `taken` have been taken already. */
  ghost function After(taken: seq<Address>, rest: (PageTables, Option<seq<Address>>))
    : (PageTables, Option<seq<Address>>)
  {
    (rest.0, if rest.1.None? then None else Some(taken + rest.1.value))
  }

  lemma AfterNothing(rest: (PageTables, Option<seq<Address>>))
    ensures After([], rest) == rest
  {
    if rest.1.Some? { assert [] + rest.1.value == rest.1.value; }
  }

  method DecodeMap(state: KernelState, current: TcbId, id: FrameId, frame: TrapFrame, walk: Walk)
    returns (r: Result<Mapping, SyscallError>)
    requires state.Valid() && frame.Valid()
    ensures r == Frames.DecodeMap(state.Model(), current, id, frame.View(), walk)
  {
    hide KernelState.Valid;
    hide KernelState.Model;
    var v :- AdminMachine.ResolveVSpace(state, current, frame.mrs[1]);
    var vaddr := frame.mrs[2];
    var found := state.GetFrame(id);
    if found.None? {
      return Failure(InvalidCapability);
    }
    var f := found.value;
    var slot := FreeMapping(f.mappedAt);
    if slot.None? {
      return Failure(IllegalOperation);
    }
    if vaddr % f.size.Bytes() != 0 {
      return Failure(AlignmentError);
    }
    var vspace := state.GetVSpace(v);
    if vspace.None? {
      return Failure(InvalidCapability);
    }
    if walk.translated {
      return Failure(IllegalOperation);
    }
    r := Success(Mapping(v, slot.value));
  }

  method RecordMapping(state: KernelState, id: FrameId, slot: nat, m: Option<(VSpaceId, Word)>)
    requires state.Valid() && id in state.Model().frames && slot < MAX_FRAME_MAPPINGS
    modifies state.Repr
    ensures state.Valid() && state.Model() == SetMapping(old(state.Model()), id, slot, m)
  {
    hide KernelState.Valid;
    hide KernelState.Model;
    var f := state.GetFrame(id);
    state.PutFrame(id, f.value.(mappedAt := f.value.mappedAt[slot := m]));
  }

  /** The part of `Map` after validation. */
  method MapPages(state: KernelState, id: FrameId, m: Mapping, vaddr: Word, walk: Walk)
    returns (r: Result<(), SyscallError>)
    requires state.Valid() && id in state.Model().frames && m.slot < MAX_FRAME_MAPPINGS
    modifies state.Repr
    ensures state.Valid()
    ensures var k := old(state.Model());
            var max := MaxNewTables(k.frames[id].size);
            var (t, spares) := AllocSpares(k.pageTables, max);
            if spares.None? then
              r == Failure(NotEnoughMemory) && state.Model() == k.(pageTables := t)
            else
              var taken := TablesTaken(walk, max);
              && taken <= |spares.value|
              && r == Success(())
              && state.Model() == SetMapping(
                   k.(pageTables := ReleaseLast(t.(branches := t.branches + spares.value[..taken]), max - taken)),
                   id, m.slot, Some((m.vspace, vaddr)))
  {
    hide KernelState.Valid;
    hide KernelState.Model;
    var f := state.GetFrame(id);
    var max := MaxNewTables(f.value.size);
    var spares := AllocSparePages(state, max);
    if spares.None? {
      return Failure(NotEnoughMemory);
    }
    var taken := TablesTaken(walk, max);
    state.SettleSpares(spares.value, taken);
    RecordMapping(state, id, m.slot, Some((m.vspace, vaddr)));
    r := Success(());
  }

  method Map(state: KernelState, current: TcbId, id: FrameId, frame: TrapFrame, walk: Walk)
    returns (r: Result<(), SyscallError>)
    requires state.Valid() && frame.Valid() && frame.Repr !! state.Repr
    modifies state.Repr, frame.Repr
    ensures state.Valid()
    ensures Outcome(state.Model(), frame.View(), IpcMachine.StatusOf(r))
         == Frames.Map(old(state.Model()), current, id, old(frame.View()), walk)
  {
    hide KernelState.Valid;
    hide KernelState.Model;
    hide AllocSpares;
    var m :- DecodeMap(state, current, id, frame, walk);
    hide Frames.DecodeMap;
    var _ :- MapPages(state, id, m, frame.mrs[2], walk);
    frame.Succeed();
    r := Success(());
  }

  method Unmap(state: KernelState, current: TcbId, id: FrameId, frame: TrapFrame)
    returns (r: Result<(), SyscallError>)
    requires state.Valid() && frame.Valid() && frame.Repr !! state.Repr
    modifies state.Repr, frame.Repr
    ensures state.Valid()
    ensures Outcome(state.Model(), frame.View(), IpcMachine.StatusOf(r))
         == Frames.Unmap(old(state.Model()), current, id, old(frame.View()))
  {
    hide KernelState.Valid;
    hide KernelState.Model;
    var v :- AdminMachine.ResolveVSpace(state, current, frame.mrs[1]);
    var f := state.GetFrame(id);
    if f.None? {
      return Failure(InvalidCapability);
    }
    var slot := FindMapping(f.value.mappedAt, v);
    if slot.Some? {
      var vspace := state.GetVSpace(v);
      if vspace.None? {
        return Failure(InvalidCapability);
      }
      RecordMapping(state, id, slot.value, None);
    }
    frame.Succeed();
    r := Success(());
  }

  method FrameInvoke(state: KernelState, current: TcbId, cptr: CPtr, frame: TrapFrame, walk: Walk)
    returns (r: Result<(), SyscallError>)
    requires state.Valid() && frame.Valid() && frame.Repr !! state.Repr
    modifies state.Repr, frame.Repr
    ensures state.Valid()
    ensures Outcome(state.Model(), frame.View(), IpcMachine.StatusOf(r))
         == Frames.Invoke(old(state.Model()), current, cptr, old(frame.View()), walk)
  {
    hide KernelState.Valid;
    hide KernelState.Model;
    var cap :- state.LookupCap(current, cptr);
    if !cap.FrameCap? {
      return Failure(InvalidCapability);
    }
    if Write !in cap.frameRights {
      return Failure(IllegalOperation);
    }
    if frame.tag.labelId == LABEL_MAP {
      r := Map(state, current, cap.frame, frame, walk);
    } else if frame.tag.labelId == LABEL_UNMAP {
      r := Unmap(state, current, cap.frame, frame);
    } else {
      r := Failure(InvalidArgument);
    }
  }
}
