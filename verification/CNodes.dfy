/** `CNodeInvoke` as step functions (src/cnode.rs). */
module CNodes {
  import opened Limits
  import opened Words
  import opened Wrappers
  import opened Capabilities
  import opened Objects
  import opened State

  const LABEL_MINT: nat := 1
  const LABEL_COPY: nat := 2
  const LABEL_MOVE: nat := 3
  const LABEL_DELETE: nat := 4
  const LABEL_REVOKE: nat := 5
  const LABEL_COPY_CROSS: nat := 6

  function Attenuate(source: Capability, rights: Rights, badge: Word): Result<Capability, SyscallError> {
    match source
    case UntypedCap(id, _) => Success(UntypedCap(id, rights))
    case EndpointCap(id, _, _) => Success(EndpointCap(id, badge, rights))
    case NotificationCap(id, _, _) => Success(NotificationCap(id, badge, rights))
    case TcbCap(id, _) => Success(TcbCap(id, rights))
    case SchedContextCap(id, _) => Success(SchedContextCap(id, rights))
    case VSpaceCap(id, _) => Success(VSpaceCap(id, rights))
    case FrameCap(id, _) => Success(FrameCap(id, rights))
    case Null | CNodeCap(_) | ReplyCap(_) => Failure(IllegalOperation)
  }

  /** The capability in a slot of a node, which must not be empty. */
  function ReadSlot(k: Kernel, n: CNodeId, s: Word): Result<Capability, SyscallError> {
    if n !in k.cnodes then Failure(InvalidCapability)
    else if s >= CNODE_SLOTS then Failure(RangeError)
    else if k.cnodes[n][s] == Null then Failure(InvalidCapability)
    else Success(k.cnodes[n][s])
  }

  /** Nothing but capability slots of existing nodes differs. */
  predicate OnlySlots(k: Kernel, r: Result<Kernel, SyscallError>) {
    r.Success? ==> r.value == k.(cnodes := r.value.cnodes) && r.value.cnodes.Keys == k.cnodes.Keys
  }

  /** Fills an empty slot. */
  function FillSlot(k: Kernel, n: CNodeId, s: Word, c: Capability): (r: Result<Kernel, SyscallError>)
    ensures OnlySlots(k, r)
  {
    if n !in k.cnodes then Failure(InvalidCapability)
    else if s >= CNODE_SLOTS then Failure(RangeError)
    else if k.cnodes[n][s] != Null then Failure(IllegalOperation)
    else Success(SetSlot(k, n, s, c))
  }

  function Mint(k: Kernel, target: CNodeId, src: Word, dest: Word, packed: Word): (r: Result<Kernel, SyscallError>)
    ensures OnlySlots(k, r)
  {
    var newRights := RightsOfWord(packed);
    var badge := packed / 256;
    var source :- ReadSlot(k, target, src);
    if !(newRights <= source.Rights()) then Failure(IllegalOperation)
    else
      var minted :- Attenuate(source, newRights, badge);
      FillSlot(k, target, dest, minted)
  }

  function Copy(k: Kernel, target: CNodeId, src: Word, dest: Word): (r: Result<Kernel, SyscallError>)
    ensures OnlySlots(k, r)
  {
    var source :- ReadSlot(k, target, src);
    FillSlot(k, target, dest, source)
  }

  function MoveCap(k: Kernel, target: CNodeId, src: Word, dest: Word): (r: Result<Kernel, SyscallError>)
    ensures OnlySlots(k, r)
  {
    var source :- ReadSlot(k, target, src);
    var k1 :- FillSlot(k, target, dest, source);
    Success(SetSlot(k1, target, src, Null))
  }

  function Delete(k: Kernel, target: CNodeId, src: Word): (r: Result<Kernel, SyscallError>)
    ensures OnlySlots(k, r)
  {
    var _ :- ReadSlot(k, target, src);
    Success(SetSlot(k, target, src, Null))
  }

  function ResolveCNode(k: Kernel, cur: TcbId, cptr: CPtr): Result<CNodeId, SyscallError> {
    var cap :- LookupCap(k, cur, cptr);
    if cap.CNodeCap? then Success(cap.cnode) else Failure(InvalidCapability)
  }

  function CopyCross(k: Kernel, cur: TcbId, target: CNodeId, sourceCNode: CPtr, sourceSlot: Word, dest: Word)
    : (r: Result<Kernel, SyscallError>)
    ensures OnlySlots(k, r)
  {
    var sourceId :- ResolveCNode(k, cur, sourceCNode);
    var source :- ReadSlot(k, sourceId, sourceSlot);
    FillSlot(k, target, dest, source)
  }

  function Operate(k: Kernel, cur: TcbId, target: CNodeId, f: Context): (r: Result<Kernel, SyscallError>)
    ensures OnlySlots(k, r)
  {
    var op := f.tag.labelId;
    if op == LABEL_MINT then Mint(k, target, f.Mr(1), f.Mr(2), f.Mr(3))
    else if op == LABEL_COPY then Copy(k, target, f.Mr(1), f.Mr(2))
    else if op == LABEL_MOVE then MoveCap(k, target, f.Mr(1), f.Mr(2))
    else if op == LABEL_DELETE then Delete(k, target, f.Mr(1))
    else if op == LABEL_COPY_CROSS then CopyCross(k, cur, target, f.Mr(1), f.Mr(2), f.Mr(3))
    else if op == LABEL_REVOKE then Failure(IllegalOperation)
    else Failure(InvalidArgument)
  }

  function Invoke(k: Kernel, cur: TcbId, cptr: CPtr, f: Context): Outcome {
    match ResolveCNode(k, cur, cptr)
    case Failure(e) => Outcome(k, f, Err(e))
    case Success(target) =>
      match Operate(k, cur, target, f)
      case Failure(e) => Outcome(k, f, Err(e))
      case Success(k1) => Outcome(k1, ReplySuccess(f), Ok)
  }
}
