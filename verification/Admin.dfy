/** `UntypedRetype` and `TCBConfigure` as step functions (src/admin.rs). */
module Admin {
  import opened Limits
  import opened Words
  import opened Wrappers
  import opened Capabilities
  import opened Objects
  import opened State
  import opened Pool

  // -------------------------------------------------------------------- retype

  /** What `UntypedRetype` establishes before it allocates anything. */
  datatype Retyping = Retyping(untyped: UntypedId, objectType: ObjectType, cnode: CNodeId, dest: Word)

  function ResolveUntyped(k: Kernel, cur: TcbId, cptr: CPtr): Result<UntypedId, SyscallError> {
    var cap :- LookupCap(k, cur, cptr);
    match cap
    case UntypedCap(id, rights) => if Write in rights then Success(id) else Failure(IllegalOperation)
    case _ => Failure(InvalidCapability)
  }

  function DecodeRetype(k: Kernel, cur: TcbId, cptr: CPtr, f: Context): Result<Retyping, SyscallError> {
    var u :- ResolveUntyped(k, cur, cptr);
    var t := ObjectTypeFromWord(f.Mr(1));
    if t.None? then Failure(InvalidArgument)
    else if u !in k.untypeds then Failure(InvalidCapability)
    else if k.untypeds[u].remaining == 0 then Failure(NotEnoughMemory)
    else if cur !in k.tcbs || k.tcbs[cur].cspace.None? then Failure(FailedLookup)
    else
      var n := k.tcbs[cur].cspace.value;
      if n !in k.cnodes then Failure(FailedLookup)
      else if f.Mr(2) >= CNODE_SLOTS then Failure(RangeError)
      else if k.cnodes[n][f.Mr(2)] != Null then Failure(IllegalOperation)
      else Success(Retyping(u, t.value, n, f.Mr(2)))
  }

  /** Making the object: the kernel after the attempt, and the capability to it if it succeeded. */
  datatype Created = Made(k: Kernel, cap: Capability) | NotMade(k: Kernel, error: SyscallError) | MakePanic

  function NewVSpace(k: Kernel): Created {
    var page := AllocTable(k.pageTables);
    if page.None? then NotMade(k, NotEnoughMemory)
    else
      var k1 := k.(pageTables := page.value.0);
      var i := AllocIndex(k1.vspaces, MAX_VSPACES);
      if i.None? then NotMade(k1, NotEnoughMemory)
      else Made(k1.(vspaces := k1.vspaces[i.value := VSpace(page.value.1)]), VSpaceCap(i.value, ALL_RIGHTS))
  }

  /** Making an object costs no budget and removes no node. */
  ghost predicate KeepsBudget(k: Kernel, u: UntypedId, c: Created)
    requires u in k.untypeds
  {
    c.Made? ==>
      && u in c.k.untypeds
      && c.k.untypeds[u].remaining == k.untypeds[u].remaining
      && k.cnodes.Keys <= c.k.cnodes.Keys
  }

  function AddFrame(k: Kernel, paddr: Address, size: FrameSize): Created {
    var i := AllocIndex(k.frames, MAX_FRAMES);
    if i.None? then NotMade(k, NotEnoughMemory)
    else
      Made(k.(frames := k.frames[i.value := Frame(paddr, size, [None, None])]), FrameCap(i.value, ALL_RIGHTS))
  }

  function NewFrame(k: Kernel, u: UntypedId, size: FrameSize): (c: Created)
    requires u in k.untypeds
    ensures KeepsBudget(k, u, c)
  {
    match BumpUntyped(k.untypeds[u], size.Bytes(), size.Bytes())
    case Overflow => MakePanic
    case Exhausted => NotMade(k, NotEnoughMemory)
    case Bumped(untyped, paddr) =>
      AddFrame(k.(untypeds := k.untypeds[u := untyped]), paddr, size)
  }

  function NewObject(k: Kernel, u: UntypedId, t: ObjectType): (c: Created)
    requires u in k.untypeds
    ensures KeepsBudget(k, u, c)
  {
    match t
    case CNodeType =>
      var i := AllocIndex(k.cnodes, MAX_CNODES);
      if i.None? then NotMade(k, NotEnoughMemory)
      else Made(k.(cnodes := k.cnodes[i.value := EmptyCNode()]), CNodeCap(i.value))
    case EndpointType =>
      var i := AllocIndex(k.endpoints, MAX_ENDPOINTS);
      if i.None? then NotMade(k, NotEnoughMemory)
      else
        Made(k.(endpoints := k.endpoints[i.value := Endpoint(Empty)]), EndpointCap(i.value, 0, ALL_RIGHTS))
    case NotificationType =>
      var i := AllocIndex(k.notifications, MAX_NOTIFICATIONS);
      if i.None? then NotMade(k, NotEnoughMemory)
      else
        Made(k.(notifications := k.notifications[i.value := Notification(0, [])]),
             NotificationCap(i.value, 0, ALL_RIGHTS))
    case TcbType =>
      var i := AllocIndex(k.tcbs, MAX_TCBS);
      if i.None? then NotMade(k, NotEnoughMemory)
      else Made(k.(tcbs := k.tcbs[i.value := NewTcb()]), TcbCap(i.value, ALL_RIGHTS))
    case SchedContextType =>
      var i := AllocIndex(k.schedContexts, MAX_SCHED_CONTEXTS);
      if i.None? then NotMade(k, NotEnoughMemory)
      else
        Made(k.(schedContexts := k.schedContexts[i.value := SchedulingContext(1, 1)]),
             SchedContextCap(i.value, ALL_RIGHTS))
    case VSpaceType => NewVSpace(k)
    case FrameSmallType => NewFrame(k, u, Small)
    case FrameMegaType => NewFrame(k, u, Mega)
    case UntypedType => NotMade(k, InvalidArgument)
  }

  function SpendBudget(k: Kernel, u: UntypedId): Kernel
    requires u in k.untypeds && k.untypeds[u].remaining > 0
  {
    k.(untypeds := k.untypeds[u := k.untypeds[u].(remaining := k.untypeds[u].remaining - 1)])
  }

  function UntypedRetype(k: Kernel, cur: TcbId, cptr: CPtr, f: Context): Outcome {
    match DecodeRetype(k, cur, cptr, f)
    case Failure(e) => Outcome(k, f, Err(e))
    case Success(r) =>
      match NewObject(k, r.untyped, r.objectType)
      case MakePanic => Outcome(k, f, Panic)
      case NotMade(k1, e) => Outcome(k1, f, Err(e))
      case Made(k1, cap) =>
        Outcome(SpendBudget(SetSlot(k1, r.cnode, r.dest, cap), r.untyped), ReplySuccess(f), Ok)
  }

  // ----------------------------------------------------------------- configure

  datatype Configuration = Configuration(
    target: TcbId, cspace: CNodeId, sched: SchedContextId, addressSpace: Option<Address>)

  function ResolveTcb(k: Kernel, cur: TcbId, cptr: CPtr): Result<TcbId, SyscallError> {
    var cap :- LookupCap(k, cur, cptr);
    match cap
    case TcbCap(id, rights) => if Write in rights then Success(id) else Failure(IllegalOperation)
    case _ => Failure(InvalidCapability)
  }

  function ResolveVSpace(k: Kernel, cur: TcbId, cptr: CPtr): Result<VSpaceId, SyscallError> {
    var cap :- LookupCap(k, cur, cptr);
    match cap
    case VSpaceCap(id, rights) => if Write in rights then Success(id) else Failure(IllegalOperation)
    case _ => Failure(InvalidCapability)
  }

  function ResolveAddressSpace(k: Kernel, cur: TcbId, arg: Word): Result<Option<Address>, SyscallError> {
    if arg == 0 then Success(None)
    else
      var v :- ResolveVSpace(k, cur, arg);
      if v !in k.vspaces then Failure(InvalidCapability) else Success(Some(k.vspaces[v].root))
  }

  function DecodeConfigure(k: Kernel, cur: TcbId, cptr: CPtr, f: Context): Result<Configuration, SyscallError> {
    var target :- ResolveTcb(k, cur, cptr);
    var cspaceCap :- LookupCap(k, cur, f.Mr(1));
    if !cspaceCap.CNodeCap? then Failure(InvalidCapability)
    else
      var schedCap :- LookupCap(k, cur, f.Mr(2));
      if !schedCap.SchedContextCap? then Failure(InvalidCapability)
      else
        var addressSpace :- ResolveAddressSpace(k, cur, f.Mr(3));
        if target !in k.tcbs then Failure(InvalidCapability)
        else Success(Configuration(target, cspaceCap.cnode, schedCap.sched, addressSpace))
  }

  /** Configuring a thread admits it to the ready queue the first time. */
  function ApplyConfiguration(k: Kernel, c: Configuration): (k': Kernel)
    requires c.target in k.tcbs
    ensures OnlyThreads(k, k')
  {
    var tcb := k.tcbs[c.target];
    var k1 := k.(tcbs := k.tcbs[c.target := tcb.(
                   cspace := Some(c.cspace), schedContext := Some(c.sched), addressSpace := c.addressSpace)]);
    if tcb.state == Inactive then MakeReady(k1, c.target) else k1
  }

  function Configure(k: Kernel, cur: TcbId, cptr: CPtr, f: Context): Outcome {
    match DecodeConfigure(k, cur, cptr, f)
    case Failure(e) => Outcome(k, f, Err(e))
    case Success(c) => Outcome(ApplyConfiguration(k, c), ReplySuccess(f), Ok)
  }
}
