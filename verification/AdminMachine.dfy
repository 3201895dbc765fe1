/** The administrative calls as they run: `CNodeInvoke` (src/cnode.rs), `UntypedRetype` and
    `TCBConfigure` (src/admin.rs). Each method does what its step function says, wherever that does
    not panic. */
module AdminMachine {
  import opened Limits
  import opened Words
  import opened Wrappers
  import opened Capabilities
  import opened Objects
  import opened TrapFrames
  import opened State
  import opened Machine
  import opened Invariants
  import opened Designation
  import opened AdminRefusals
  import IpcRefusals
  import IpcMachine
  import CNodes
  import Admin

  // --------------------------------------------------------------- capability slots

  /** How a slot operation's result and the state after it appear in its step function. */
  ghost predicate Performed(k: Kernel, k': Kernel, spec: Result<Kernel, SyscallError>, r: Result<(), SyscallError>) {
    if spec.Success? then r == Success(()) && k' == spec.value else r == Failure(spec.error) && k' == k
  }

  method Mint(state: KernelState, target: CNodeId, src: Word, dest: Word, packed: Word)
    returns (r: Result<(), SyscallError>)
    requires state.Valid()
    modifies state.Repr
    ensures state.Valid()
    ensures Performed(old(state.Model()), state.Model(), CNodes.Mint(old(state.Model()), target, src, dest, packed), r)
  {
    hide KernelState.Valid;
    hide KernelState.Model;
    var newRights := RightsOfWord(packed);
    var badge := packed / 256;
    var node := state.GetCNode(target);
    if node.None? {
      return Failure(InvalidCapability);
    }
    var cnode := node.value;
    if src >= CNODE_SLOTS {
      return Failure(RangeError);
    }
    if cnode[src] == Null {
      return Failure(InvalidCapability);
    }
    if !(newRights <= cnode[src].Rights()) {
      return Failure(IllegalOperation);
    }
    var minted :- CNodes.Attenuate(cnode[src], newRights, badge);
    if dest >= CNODE_SLOTS {
      return Failure(RangeError);
    }
    if cnode[dest] != Null {
      return Failure(IllegalOperation);
    }
    state.SetSlot(target, dest, minted);
    r := Success(());
  }

  method Copy(state: KernelState, target: CNodeId, src: Word, dest: Word) returns (r: Result<(), SyscallError>)
    requires state.Valid()
    modifies state.Repr
    ensures state.Valid()
    ensures Performed(old(state.Model()), state.Model(), CNodes.Copy(old(state.Model()), target, src, dest), r)
  {
    hide KernelState.Valid;
    hide KernelState.Model;
    var node := state.GetCNode(target);
    if node.None? {
      return Failure(InvalidCapability);
    }
    var cnode := node.value;
    if src >= CNODE_SLOTS {
      return Failure(RangeError);
    }
    if cnode[src] == Null {
      return Failure(InvalidCapability);
    }
    if dest >= CNODE_SLOTS {
      return Failure(RangeError);
    }
    if cnode[dest] != Null {
      return Failure(IllegalOperation);
    }
    state.SetSlot(target, dest, cnode[src]);
    r := Success(());
  }

  /** The destination is filled before the source is cleared. */
  method MoveCap(state: KernelState, target: CNodeId, src: Word, dest: Word) returns (r: Result<(), SyscallError>)
    requires state.Valid()
    modifies state.Repr
    ensures state.Valid()
    ensures Performed(old(state.Model()), state.Model(), CNodes.MoveCap(old(state.Model()), target, src, dest), r)
  {
    hide KernelState.Valid;
    hide KernelState.Model;
    var _ :- Copy(state, target, src, dest);
    state.SetSlot(target, src, Null);
    r := Success(());
  }

  method Delete(state: KernelState, target: CNodeId, src: Word) returns (r: Result<(), SyscallError>)
    requires state.Valid()
    modifies state.Repr
    ensures state.Valid()
    ensures Performed(old(state.Model()), state.Model(), CNodes.Delete(old(state.Model()), target, src), r)
  {
    hide KernelState.Valid;
    hide KernelState.Model;
    var node := state.GetCNode(target);
    if node.None? {
      return Failure(InvalidCapability);
    }
    if src >= CNODE_SLOTS {
      return Failure(RangeError);
    }
    if node.value[src] == Null {
      return Failure(InvalidCapability);
    }
    state.SetSlot(target, src, Null);
    r := Success(());
  }

  method ResolveCNode(state: KernelState, current: TcbId, cptr: CPtr) returns (r: Result<CNodeId, SyscallError>)
    requires state.Valid()
    ensures r == CNodes.ResolveCNode(state.Model(), current, cptr)
  {
    hide KernelState.Valid;
    hide KernelState.Model;
    var cap :- state.LookupCap(current, cptr);
    r := if cap.CNodeCap? then Success(cap.cnode) else Failure(InvalidCapability);
  }

  method CopyCross(state: KernelState, current: TcbId, target: CNodeId, sourceCNode: CPtr, sourceSlot: Word, dest: Word)
    returns (r: Result<(), SyscallError>)
    requires state.Valid()
    modifies state.Repr
    ensures state.Valid()
    ensures Performed(old(state.Model()), state.Model(),
                      CNodes.CopyCross(old(state.Model()), current, target, sourceCNode, sourceSlot, dest), r)
    ensures var (k, c) := (old(state.Model()), Designated(old(state.Model()), current, sourceCNode));
            HasCSpace(k, current) && c.CNodeCap? ==>
              var refusal := CopyRefusal(k, c.cnode, sourceSlot, target, dest);
              && IpcMachine.StatusOf(r) == IpcRefusals.StatusOf(refusal)
              && (r.Success? ==>
                    state.Model() == WithSlot(k, target, dest, SlotOf(k, c.cnode, sourceSlot)))
  {
    hide KernelState.Valid;
    hide KernelState.Model;
    if HasCSpace(state.Model(), current) {
      CopyCrossOutcome(state.Model(), current, target, sourceCNode, sourceSlot, dest);
    }
    hide CopyRefusal;
    hide WithSlot;
    hide SlotOf;
    var source :- ResolveCNode(state, current, sourceCNode);
    var sourceNode := state.GetCNode(source);
    if sourceNode.None? {
      return Failure(InvalidCapability);
    }
    if sourceSlot >= CNODE_SLOTS {
      return Failure(RangeError);
    }
    var cap := sourceNode.value[sourceSlot];
    if cap == Null {
      return Failure(InvalidCapability);
    }
    var targetNode := state.GetCNode(target);
    if targetNode.None? {
      return Failure(InvalidCapability);
    }
    if dest >= CNODE_SLOTS {
      return Failure(RangeError);
    }
    if targetNode.value[dest] != Null {
      return Failure(IllegalOperation);
    }
    state.SetSlot(target, dest, cap);
    r := Success(());
  }

  method Operate(state: KernelState, current: TcbId, target: CNodeId, frame: TrapFrame)
    returns (r: Result<(), SyscallError>)
    requires state.Valid() && frame.Valid()
    modifies state.Repr
    ensures state.Valid()
    ensures Performed(old(state.Model()), state.Model(),
                      CNodes.Operate(old(state.Model()), current, target, old(frame.View())), r)
  {
    hide KernelState.Valid;
    hide KernelState.Model;
    var op := frame.tag.labelId;
    var src, dest, arg3 := frame.mrs[1], frame.mrs[2], frame.mrs[3];
    if op == CNodes.LABEL_MINT {
      r := Mint(state, target, src, dest, arg3);
    } else if op == CNodes.LABEL_COPY {
      r := Copy(state, target, src, dest);
    } else if op == CNodes.LABEL_MOVE {
      r := MoveCap(state, target, src, dest);
    } else if op == CNodes.LABEL_DELETE {
      r := Delete(state, target, src);
    } else if op == CNodes.LABEL_COPY_CROSS {
      r := CopyCross(state, current, target, src, dest, arg3);
    } else if op == CNodes.LABEL_REVOKE {
      r := Failure(IllegalOperation);
    } else {
      r := Failure(InvalidArgument);
    }
  }

  method CNodeInvoke(state: KernelState, current: TcbId, cptr: CPtr, frame: TrapFrame)
    returns (r: Result<(), SyscallError>)
    requires state.Valid() && frame.Valid() && frame.Repr !! state.Repr
    modifies state.Repr, frame.Repr
    ensures state.Valid()
    ensures Outcome(state.Model(), frame.View(), IpcMachine.StatusOf(r))
         == CNodes.Invoke(old(state.Model()), current, cptr, old(frame.View()))
  {
    hide KernelState.Valid;
    hide KernelState.Model;
    var target :- ResolveCNode(state, current, cptr);
    var _ :- Operate(state, current, target, frame);
    frame.Succeed();
    r := Success(());
  }

  // ------------------------------------------------------------------------ retype

  /** Bump-allocates from the range of an Untyped; the range is left alone if it is too short. */
  method Bump(state: KernelState, u: UntypedId, size: nat, align: nat) returns (paddr: Option<Address>)
    requires state.Valid() && u in state.Model().untypeds && align > 0
    requires !BumpUntyped(state.Model().untypeds[u], size, align).Overflow?
    modifies state.Repr
    ensures state.Valid()
    ensures var spec := BumpUntyped(old(state.Model()).untypeds[u], size, align);
            if spec.Bumped?
            then paddr == Some(spec.paddr)
                 && state.Model() == old(state.Model()).(untypeds := old(state.Model()).untypeds[u := spec.untyped])
            else paddr == None && state.Model() == old(state.Model())
  {
    hide KernelState.Valid;
    hide KernelState.Model;
    var found := state.GetUntyped(u);
    var untyped := found.value;
    if untyped.memory.None? {
      return None;
    }
    var Range(next, end) := untyped.memory.value;
    var aligned := AlignUp(next, align);
    if aligned + size >= WORD_LIMIT || aligned + size > end {
      return None;
    }
    state.PutUntyped(u, untyped.(memory := Some(Range(aligned + size, end))));
    paddr := Some(aligned);
  }

  /** How making an object ended. */
  ghost predicate Created(k': Kernel, spec: Admin.Created, r: Result<Capability, SyscallError>) {
    match spec
    case Made(k1, cap) => r == Success(cap) && k' == k1
    case NotMade(k1, e) => r == Failure(e) && k' == k1
    case MakePanic => false
  }

  method NewVSpace(state: KernelState) returns (r: Result<Capability, SyscallError>)
    requires state.Valid()
    modifies state.Repr
    ensures state.Valid() && Created(state.Model(), Admin.NewVSpace(old(state.Model())), r)
  {
    hide KernelState.Valid;
    hide KernelState.Model;
    var root := state.AllocPage();
    if root.None? {
      return Failure(NotEnoughMemory);
    }
    var index := state.AllocVSpace(VSpace(root.value));
    if index.None? {
      return Failure(NotEnoughMemory);
    }
    r := Success(VSpaceCap(index.value, ALL_RIGHTS));
  }

  method NewFrame(state: KernelState, u: UntypedId, size: FrameSize) returns (r: Result<Capability, SyscallError>)
    requires state.Valid() && u in state.Model().untypeds
    requires !Admin.NewFrame(state.Model(), u, size).MakePanic?
    modifies state.Repr
    ensures state.Valid() && Created(state.Model(), Admin.NewFrame(old(state.Model()), u, size), r)
  {
    hide KernelState.Valid;
    hide KernelState.Model;
    var paddr := Bump(state, u, size.Bytes(), size.Bytes());
    if paddr.None? {
      return Failure(NotEnoughMemory);
    }
    var index := state.AllocFrame(Frame(paddr.value, size, [None, None]));
    if index.None? {
      return Failure(NotEnoughMemory);
    }
    r := Success(FrameCap(index.value, ALL_RIGHTS));
  }

  method NewObject(state: KernelState, u: UntypedId, t: ObjectType) returns (r: Result<Capability, SyscallError>)
    requires state.Valid() && u in state.Model().untypeds
    requires !Admin.NewObject(state.Model(), u, t).MakePanic?
    modifies state.Repr
    ensures state.Valid() && Created(state.Model(), Admin.NewObject(old(state.Model()), u, t), r)
  {
    hide KernelState.Valid;
    hide KernelState.Model;
    match t
    case CNodeType =>
      var index := state.AllocCNode(EmptyCNode());
      if index.None? { return Failure(NotEnoughMemory); }
      r := Success(CNodeCap(index.value));
    case EndpointType =>
      var index := state.AllocEndpoint(Endpoint(Empty));
      if index.None? { return Failure(NotEnoughMemory); }
      r := Success(EndpointCap(index.value, 0, ALL_RIGHTS));
    case NotificationType =>
      var index := state.AllocNotification(Notification(0, []));
      if index.None? { return Failure(NotEnoughMemory); }
      r := Success(NotificationCap(index.value, 0, ALL_RIGHTS));
    case TcbType =>
      var index := state.AllocTcb(NewTcb());
      if index.None? { return Failure(NotEnoughMemory); }
      r := Success(TcbCap(index.value, ALL_RIGHTS));
    case SchedContextType =>
      var index := state.AllocSchedContext(SchedulingContext(1, 1));
      if index.None? { return Failure(NotEnoughMemory); }
      r := Success(SchedContextCap(index.value, ALL_RIGHTS));
    case VSpaceType =>
      r := NewVSpace(state);
    case FrameSmallType =>
      r := NewFrame(state, u, Small);
    case FrameMegaType =>
      r := NewFrame(state, u, Mega);
    case UntypedType =>
      r := Failure(InvalidArgument);
  }

  method DecodeRetype(state: KernelState, current: TcbId, cptr: CPtr, frame: TrapFrame)
    returns (r: Result<Admin.Retyping, SyscallError>)
    requires state.Valid() && frame.Valid()
    ensures r == Admin.DecodeRetype(state.Model(), current, cptr, frame.View())
  {
    hide KernelState.Valid;
    hide KernelState.Model;
    var cap :- state.LookupCap(current, cptr);
    if !cap.UntypedCap? {
      return Failure(InvalidCapability);
    }
    if Write !in cap.untypedRights {
      return Failure(IllegalOperation);
    }
    var t := ObjectTypeFromWord(frame.mrs[1]);
    var dest := frame.mrs[2];
    if t.None? {
      return Failure(InvalidArgument);
    }
    var untyped := state.GetUntyped(cap.untyped);
    if untyped.None? {
      return Failure(InvalidCapability);
    }
    if untyped.value.remaining == 0 {
      return Failure(NotEnoughMemory);
    }
    var tcb := state.GetTcb(current);
    if tcb.None? || tcb.value.cspace.None? {
      return Failure(FailedLookup);
    }
    var n := tcb.value.cspace.value;
    var cnode := state.GetCNode(n);
    if cnode.None? {
      return Failure(FailedLookup);
    }
    if dest >= CNODE_SLOTS {
      return Failure(RangeError);
    }
    if cnode.value[dest] != Null {
      return Failure(IllegalOperation);
    }
    r := Success(Admin.Retyping(cap.untyped, t.value, n, dest));
  }

  lemma RetypingIsPossible(k: Kernel, cur: TcbId, cptr: CPtr, f: Context)
    ensures var d := Admin.DecodeRetype(k, cur, cptr, f);
            d.Success? ==>
              && d.value.untyped in k.untypeds && k.untypeds[d.value.untyped].remaining > 0
              && d.value.cnode in k.cnodes && d.value.dest < CNODE_SLOTS
  {
  }

  /** Everything is validated before anything is allocated. */
  method UntypedRetype(state: KernelState, current: TcbId, cptr: CPtr, frame: TrapFrame)
    returns (r: Result<(), SyscallError>)
    requires state.Valid() && frame.Valid() && frame.Repr !! state.Repr
    requires !Admin.UntypedRetype(state.Model(), current, cptr, frame.View()).status.Panic?
    modifies state.Repr, frame.Repr
    ensures state.Valid()
    ensures Outcome(state.Model(), frame.View(), IpcMachine.StatusOf(r))
         == Admin.UntypedRetype(old(state.Model()), current, cptr, old(frame.View()))
  {
    hide KernelState.Valid;
    hide KernelState.Model;
    RetypingIsPossible(state.Model(), current, cptr, frame.View());
    hide Admin.DecodeRetype;
    hide Admin.NewObject;
    var retyping :- DecodeRetype(state, current, cptr, frame);
    var cap :- NewObject(state, retyping.untyped, retyping.objectType);
    state.SetSlot(retyping.cnode, retyping.dest, cap);
    var untyped := state.GetUntyped(retyping.untyped);
    state.PutUntyped(retyping.untyped, untyped.value.(remaining := untyped.value.remaining - 1));
    frame.Succeed();
    r := Success(());
  }

  // --------------------------------------------------------------------- configure

  method ResolveVSpace(state: KernelState, current: TcbId, cptr: CPtr) returns (r: Result<VSpaceId, SyscallError>)
    requires state.Valid()
    ensures r == Admin.ResolveVSpace(state.Model(), current, cptr)
  {
    hide KernelState.Valid;
    hide KernelState.Model;
    var cap :- state.LookupCap(current, cptr);
    match cap
    case VSpaceCap(id, rights) =>
      r := if Write in rights then Success(id) else Failure(IllegalOperation);
    case _ =>
      r := Failure(InvalidCapability);
  }

  /** A zero argument means that the thread gets no address space of its own. */
  method ResolveAddressSpace(state: KernelState, current: TcbId, arg: Word)
    returns (r: Result<Option<Address>, SyscallError>)
    requires state.Valid()
    ensures r == Admin.ResolveAddressSpace(state.Model(), current, arg)
  {
    hide KernelState.Valid;
    hide KernelState.Model;
    if arg == 0 {
      return Success(None);
    }
    var v :- ResolveVSpace(state, current, arg);
    var vspace := state.GetVSpace(v);
    if vspace.None? {
      return Failure(InvalidCapability);
    }
    r := Success(Some(vspace.value.root));
  }

  method DecodeConfigure(state: KernelState, current: TcbId, cptr: CPtr, frame: TrapFrame)
    returns (r: Result<Admin.Configuration, SyscallError>)
    requires state.Valid() && frame.Valid()
    ensures r == Admin.DecodeConfigure(state.Model(), current, cptr, frame.View())
  {
    hide KernelState.Valid;
    hide KernelState.Model;
    var cap :- state.LookupCap(current, cptr);
    if !cap.TcbCap? {
      return Failure(InvalidCapability);
    }
    if Write !in cap.tcbRights {
      return Failure(IllegalOperation);
    }
    var cspaceCap :- state.LookupCap(current, frame.mrs[1]);
    if !cspaceCap.CNodeCap? {
      return Failure(InvalidCapability);
    }
    var schedCap :- state.LookupCap(current, frame.mrs[2]);
    if !schedCap.SchedContextCap? {
      return Failure(InvalidCapability);
    }
    var addressSpace :- ResolveAddressSpace(state, current, frame.mrs[3]);
    var tcb := state.GetTcb(cap.tcb);
    if tcb.None? {
      return Failure(InvalidCapability);
    }
    r := Success(Admin.Configuration(cap.tcb, cspaceCap.cnode, schedCap.sched, addressSpace));
  }

  method Configure(state: KernelState, current: TcbId, cptr: CPtr, frame: TrapFrame)
    returns (r: Result<(), SyscallError>)
    requires state.Valid() && frame.Valid() && frame.Repr !! state.Repr
    modifies state.Repr, frame.Repr
    ensures state.Valid()
    ensures Outcome(state.Model(), frame.View(), IpcMachine.StatusOf(r))
         == Admin.Configure(old(state.Model()), current, cptr, old(frame.View()))
    ensures var (k, f) := (old(state.Model()), old(frame.View()));
            WellFormed(k) && cptr == f.mrs[0] ==>
              && IpcMachine.StatusOf(r) == IpcRefusals.StatusOf(ConfigureRefusal(k, current, f))
              && (r.Success? ==> ConfigureDone(k, current, f, state.Model()))
  {
    hide KernelState.Valid;
    hide KernelState.Model;
    hide WellFormed;
    hide ConfigureRefusal;
    hide ConfigureDone;
    ghost var (k, f) := (state.Model(), frame.View());
    if WellFormed(k) && cptr == f.mrs[0] { ConfigureIsExact(k, current, f); }
    var c :- DecodeConfigure(state, current, cptr, frame);
    var found := state.GetTcb(c.target);
    var tcb := found.value;
    var wasInactive := tcb.state == Inactive;
    tcb := tcb.(cspace := Some(c.cspace));
    tcb := tcb.(schedContext := Some(c.sched));
    tcb := tcb.(addressSpace := c.addressSpace);
    state.PutTcb(c.target, tcb);
    if wasInactive {
      state.MakeReady(c.target);
    }
    frame.Succeed();
    r := Success(());
  }
}
