/** When an administrative call is refused, and with which error, read off the capability slots, the
    registers and the pools. A call succeeds exactly if there is no refusal. */
module AdminRefusals {
  import opened Limits
  import opened Words
  import opened Wrappers
  import opened Capabilities
  import opened Objects
  import opened State
  import opened Invariants
  import opened Designation
  import opened IpcRefusals
  import Admin
  import Arena
  import CNodes
  import Failure
  import Frames
  import Pool

  // --------------------------------------------------------------- capability slots

  /** The content of a slot of a node. */
  function SlotOf(k: Kernel, n: CNodeId, s: Word): Capability {
    if n in k.cnodes && s < CNODE_SLOTS then k.cnodes[n][s] else Null
  }

  /** Something must be in the slot that is read. */
  function ReadRefusal(k: Kernel, n: CNodeId, s: Word): Refusal {
    if n !in k.cnodes then Some(InvalidCapability)
    else if s >= CNODE_SLOTS then Some(RangeError)
    else if SlotOf(k, n, s) == Null then Some(InvalidCapability)
    else None
  }

  /** Nothing may be in the slot that is filled. */
  function FillRefusal(k: Kernel, n: CNodeId, s: Word): Refusal {
    if n !in k.cnodes then Some(InvalidCapability)
    else if s >= CNODE_SLOTS then Some(RangeError)
    else if SlotOf(k, n, s) != Null then Some(IllegalOperation)
    else None
  }

  /** The right is requested by its bit of a packed word. */
  predicate Requests(packed: Word, r: Right) {
    match r
    case Read => packed % 2 == 1
    case Write => packed / 2 % 2 == 1
    case Grant => packed / 4 % 2 == 1
  }

  /** Kinds of capability that have no rights cannot be narrowed. */
  predicate HasNoRights(c: Capability) {
    c.Null? || c.CNodeCap? || c.ReplyCap?
  }

  function MintRefusal(k: Kernel, n: CNodeId, src: Word, dest: Word, packed: Word): Refusal {
    var c := SlotOf(k, n, src);
    if ReadRefusal(k, n, src).Some? then ReadRefusal(k, n, src)
    else if (exists r :: Requests(packed, r) && r !in c.Rights()) || HasNoRights(c) then Some(IllegalOperation)
    else FillRefusal(k, n, dest)
  }

  function CopyRefusal(k: Kernel, from: CNodeId, src: Word, to: CNodeId, dest: Word): Refusal {
    if ReadRefusal(k, from, src).Some? then ReadRefusal(k, from, src) else FillRefusal(k, to, dest)
  }

  /** What the label asks for, with the node invoked as target. */
  function OperationRefusal(k: Kernel, cur: TcbId, n: CNodeId, f: Context): Refusal {
    var op := f.tag.labelId;
    if op == CNodes.LABEL_MINT then MintRefusal(k, n, f.mrs[1], f.mrs[2], f.mrs[3])
    else if op == CNodes.LABEL_COPY || op == CNodes.LABEL_MOVE then CopyRefusal(k, n, f.mrs[1], n, f.mrs[2])
    else if op == CNodes.LABEL_DELETE then ReadRefusal(k, n, f.mrs[1])
    else if op == CNodes.LABEL_COPY_CROSS then
      var source := Designated(k, cur, f.mrs[1]);
      if !source.CNodeCap? then Some(InvalidCapability)
      else CopyRefusal(k, source.cnode, f.mrs[2], n, f.mrs[3])
    else if op == CNodes.LABEL_REVOKE then Some(IllegalOperation)
    else Some(InvalidArgument)
  }

  function CNodeRefusal(k: Kernel, cur: TcbId, f: Context): Refusal {
    var c := Designated(k, cur, f.mrs[0]);
    if !HasCSpace(k, cur) then Some(FailedLookup)
    else if !c.CNodeCap? then Some(InvalidCapability)
    else OperationRefusal(k, cur, c.cnode, f)
  }

  lemma RequestedAreRights(packed: Word, rights: Rights)
    ensures RightsOfWord(packed) <= rights <==> forall r :: Requests(packed, r) ==> r in rights
    ensures forall r :: r in RightsOfWord(packed) <==> Requests(packed, r)
  {
    forall r: Right ensures r in RightsOfWord(packed) <==> Requests(packed, r) {
      match r case Read => case Write => case Grant =>
    }
  }

  /** A minted capability: the object and kind of the source, the requested rights, and the new badge
      if the kind has one. */
  predicate IsMinted(c: Capability, source: Capability, packed: Word) {
    && (forall r :: r in c.Rights() <==> Requests(packed, r))
    && match source
       case UntypedCap(u, _) => c.UntypedCap? && c.untyped == u
       case EndpointCap(e, _, _) => c.EndpointCap? && c.endpoint == e && c.badge == packed / 256
       case NotificationCap(n, _, _) => c.NotificationCap? && c.notification == n && c.badge == packed / 256
       case TcbCap(t, _) => c.TcbCap? && c.tcb == t
       case SchedContextCap(s, _) => c.SchedContextCap? && c.sched == s
       case VSpaceCap(v, _) => c.VSpaceCap? && c.vspace == v
       case FrameCap(i, _) => c.FrameCap? && c.frame == i
       case Null | CNodeCap(_) | ReplyCap(_) => false
  }

  /** The kernel with `c` in slot `s` of node `n`. */
  function WithSlot(k: Kernel, n: CNodeId, s: Word, c: Capability): Kernel {
    if n in k.cnodes && s < CNODE_SLOTS then k.(cnodes := k.cnodes[n := k.cnodes[n][s := c]]) else k
  }

  /** How an operation on slots ends: refused for the reason given, or with kernel `k'`. */
  predicate EndsIn(r: Result<Kernel, SyscallError>, refusal: Refusal, k': Kernel) {
    r == if refusal.Some? then Failure(refusal.value) else Success(k')
  }

  lemma MintOutcome(k: Kernel, n: CNodeId, src: Word, dest: Word, packed: Word)
    ensures var (r, refusal) := (CNodes.Mint(k, n, src, dest, packed), MintRefusal(k, n, src, dest, packed));
            if refusal.Some? then r == Failure(refusal.value)
            else
              && r.Success? && n in r.value.cnodes && dest < CNODE_SLOTS
              && var c := r.value.cnodes[n][dest];
                 IsMinted(c, SlotOf(k, n, src), packed) && r.value == WithSlot(k, n, dest, c)
  {
    hide RightsOfWord;
    hide Requests;
    RequestedAreRights(packed, SlotOf(k, n, src).Rights());
  }

  lemma CopyOutcome(k: Kernel, n: CNodeId, src: Word, dest: Word)
    ensures EndsIn(CNodes.Copy(k, n, src, dest), CopyRefusal(k, n, src, n, dest),
                   WithSlot(k, n, dest, SlotOf(k, n, src)))
  {
  }

  lemma MoveOutcome(k: Kernel, n: CNodeId, src: Word, dest: Word)
    ensures EndsIn(CNodes.MoveCap(k, n, src, dest), CopyRefusal(k, n, src, n, dest),
                   WithSlot(WithSlot(k, n, dest, SlotOf(k, n, src)), n, src, Null))
  {
  }

  lemma DeleteOutcome(k: Kernel, n: CNodeId, src: Word)
    ensures EndsIn(CNodes.Delete(k, n, src), ReadRefusal(k, n, src), WithSlot(k, n, src, Null))
  {
  }

  lemma CopyCrossOutcome(k: Kernel, cur: TcbId, n: CNodeId, p: CPtr, src: Word, dest: Word)
    requires HasCSpace(k, cur)
    ensures var (r, c) := (CNodes.CopyCross(k, cur, n, p, src, dest), Designated(k, cur, p));
            if !c.CNodeCap? then r == Failure(InvalidCapability)
            else EndsIn(r, CopyRefusal(k, c.cnode, src, n, dest), WithSlot(k, n, dest, SlotOf(k, c.cnode, src)))
  {
    LookupFindsDesignated(k, cur, p);
    hide LookupCap;
    hide Designated;
  }

  /** What operation `f` asks for on node `n` has happened. */
  predicate OperationDone(k: Kernel, cur: TcbId, n: CNodeId, f: Context, k': Kernel) {
    var op := f.tag.labelId;
    if op == CNodes.LABEL_MINT then
      && n in k'.cnodes && f.mrs[2] < CNODE_SLOTS
      && var c := k'.cnodes[n][f.mrs[2]];
         IsMinted(c, SlotOf(k, n, f.mrs[1]), f.mrs[3]) && k' == WithSlot(k, n, f.mrs[2], c)
    else if op == CNodes.LABEL_COPY then
      k' == WithSlot(k, n, f.mrs[2], SlotOf(k, n, f.mrs[1]))
    else if op == CNodes.LABEL_MOVE then
      k' == WithSlot(WithSlot(k, n, f.mrs[2], SlotOf(k, n, f.mrs[1])), n, f.mrs[1], Null)
    else if op == CNodes.LABEL_DELETE then
      k' == WithSlot(k, n, f.mrs[1], Null)
    else
      && op == CNodes.LABEL_COPY_CROSS && Designated(k, cur, f.mrs[1]).CNodeCap?
      && k' == WithSlot(k, n, f.mrs[3], SlotOf(k, Designated(k, cur, f.mrs[1]).cnode, f.mrs[2]))
  }

  lemma OperateOutcome(k: Kernel, cur: TcbId, n: CNodeId, f: Context)
    requires HasCSpace(k, cur)
    ensures var (r, refusal) := (CNodes.Operate(k, cur, n, f), OperationRefusal(k, cur, n, f));
            if refusal.Some? then r == Failure(refusal.value)
            else r.Success? && OperationDone(k, cur, n, f, r.value)
  {
    hide CNodes.Mint;
    hide CNodes.Copy;
    hide CNodes.MoveCap;
    hide CNodes.Delete;
    hide CNodes.CopyCross;
    hide MintRefusal;
    hide CopyRefusal;
    hide ReadRefusal;
    hide WithSlot;
    hide SlotOf;
    hide Designated;
    MintOutcome(k, n, f.mrs[1], f.mrs[2], f.mrs[3]);
    CopyOutcome(k, n, f.mrs[1], f.mrs[2]);
    MoveOutcome(k, n, f.mrs[1], f.mrs[2]);
    DeleteOutcome(k, n, f.mrs[1]);
    CopyCrossOutcome(k, cur, n, f.mrs[1], f.mrs[2], f.mrs[3]);
  }

  /** A call ended as its refusal says, and changed nothing if it was refused. */
  predicate Concludes(k: Kernel, f: Context, o: Outcome, refusal: Refusal) {
    && o.status == StatusOf(refusal)
    && (refusal.Some? ==> o.k == k && o.frame == f)
    && (refusal.None? ==> o.frame == ReplySuccess(f))
  }

  /** `CNodeInvoke` administers the node that slot mr0 holds a capability to, as its label asks. */
  lemma CNodeInvokeIsExact(k: Kernel, cur: TcbId, f: Context)
    ensures var (o, refusal) := (CNodes.Invoke(k, cur, f.mrs[0], f), CNodeRefusal(k, cur, f));
            && Concludes(k, f, o, refusal)
            && (refusal.None? ==>
                  && Designated(k, cur, f.mrs[0]).CNodeCap?
                  && OperationDone(k, cur, Designated(k, cur, f.mrs[0]).cnode, f, o.k))
  {
    hide LookupCap;
    hide CNodes.Operate;
    hide OperationRefusal;
    hide OperationDone;
    hide Designated;
    LookupFindsDesignated(k, cur, f.mrs[0]);
    var c := Designated(k, cur, f.mrs[0]);
    if HasCSpace(k, cur) && c.CNodeCap? {
      OperateOutcome(k, cur, c.cnode, f);
    }
  }

  // ------------------------------------------------------------------------ configure

  /** The address space a `TCBConfigure` names: none, or one with the right to use it. */
  function SpaceRefusal(k: Kernel, cur: TcbId, p: CPtr): Refusal {
    var c := Designated(k, cur, p);
    if !c.VSpaceCap? then Some(InvalidCapability)
    else if Write !in c.vspaceRights then Some(IllegalOperation)
    else None
  }

  function ConfigureRefusal(k: Kernel, cur: TcbId, f: Context): Refusal {
    var c := Designated(k, cur, f.mrs[0]);
    if !HasCSpace(k, cur) then Some(FailedLookup)
    else if !c.TcbCap? then Some(InvalidCapability)
    else if Write !in c.tcbRights then Some(IllegalOperation)
    else if !Designated(k, cur, f.mrs[1]).CNodeCap? then Some(InvalidCapability)
    else if !Designated(k, cur, f.mrs[2]).SchedContextCap? then Some(InvalidCapability)
    else if f.mrs[3] != 0 && SpaceRefusal(k, cur, f.mrs[3]).Some? then SpaceRefusal(k, cur, f.mrs[3])
    else if f.mrs[3] != 0 && Designated(k, cur, f.mrs[3]).vspace !in k.vspaces then Some(InvalidCapability)
    else if c.tcb !in k.tcbs then Some(InvalidCapability)
    else None
  }

  /** The thread that the slots configure, with the roots they name. */
  function ConfiguredBySlots(k: Kernel, cur: TcbId, f: Context): Tcb
    requires ConfigureRefusal(k, cur, f).None?
  {
    var before := k.tcbs[Designated(k, cur, f.mrs[0]).tcb];
    before.(
      cspace := Some(Designated(k, cur, f.mrs[1]).cnode),
      schedContext := Some(Designated(k, cur, f.mrs[2]).sched),
      addressSpace := if f.mrs[3] == 0 then None else Some(k.vspaces[Designated(k, cur, f.mrs[3]).vspace].root),
      state := if before.state == Inactive then Ready else before.state)
  }

  /** The thread has its roots, and is at the back of the ready queue if it was inactive. */
  predicate ConfigureDone(k: Kernel, cur: TcbId, f: Context, k': Kernel)
    requires ConfigureRefusal(k, cur, f).None?
  {
    var t := Designated(k, cur, f.mrs[0]).tcb;
    k' == k.(tcbs := k.tcbs[t := ConfiguredBySlots(k, cur, f)],
             ready := if k.tcbs[t].state == Inactive then k.ready + [t] else k.ready)
  }

  lemma SpaceIsExact(k: Kernel, cur: TcbId, p: CPtr)
    requires HasCSpace(k, cur)
    ensures var (r, c) := (SpaceRefusal(k, cur, p), Designated(k, cur, p));
            && (r.None? ==> c.VSpaceCap?) && r != Some(NotEnoughMemory)
            && (Admin.ResolveVSpace(k, cur, p) == if r.Some? then Failure(r.value) else Success(c.vspace))
  {
    LookupFindsDesignated(k, cur, p);
    hide LookupCap;
  }

  lemma ConfigurationIsExact(k: Kernel, cur: TcbId, f: Context)
    ensures var (r, d) := (ConfigureRefusal(k, cur, f), Admin.DecodeConfigure(k, cur, f.mrs[0], f));
            if r.Some? then d == Failure(r.value)
            else
              d == Success(Admin.Configuration(
                Designated(k, cur, f.mrs[0]).tcb, Designated(k, cur, f.mrs[1]).cnode,
                Designated(k, cur, f.mrs[2]).sched,
                if f.mrs[3] == 0 then None else Some(k.vspaces[Designated(k, cur, f.mrs[3]).vspace].root)))
  {
    hide LookupCap;
    hide Designated;
    hide Admin.ResolveVSpace;
    hide SpaceRefusal;
    LookupFindsDesignated(k, cur, f.mrs[0]);
    LookupFindsDesignated(k, cur, f.mrs[1]);
    LookupFindsDesignated(k, cur, f.mrs[2]);
    if HasCSpace(k, cur) { SpaceIsExact(k, cur, f.mrs[3]); }
  }

  /** `TCBConfigure` gives the thread that slot mr0 names the roots that slots mr1, mr2 and mr3 name, and
      admits it at the back of the ready queue if it was inactive. */
  lemma ConfigureIsExact(k: Kernel, cur: TcbId, f: Context)
    requires WellFormed(k)
    ensures var (o, refusal) := (Admin.Configure(k, cur, f.mrs[0], f), ConfigureRefusal(k, cur, f));
            && Concludes(k, f, o, refusal)
            && (refusal.None? ==> ConfigureDone(k, cur, f, o.k))
  {
    hide Placed;
    hide Linked;
    hide PoolsBounded;
    hide Admin.DecodeConfigure;
    hide Designated;
    hide SpaceRefusal;
    ConfigurationIsExact(k, cur, f);
    if ConfigureRefusal(k, cur, f).None? {
      var c := Admin.DecodeConfigure(k, cur, f.mrs[0], f).value;
      ApplyIsExact(k, c);
      hide Admin.ApplyConfiguration;
    }
  }

  lemma ApplyIsExact(k: Kernel, c: Admin.Configuration)
    requires WellFormed(k) && c.target in k.tcbs
    ensures var before := k.tcbs[c.target];
            Admin.ApplyConfiguration(k, c) ==
              k.(tcbs := k.tcbs[c.target := before.(
                   cspace := Some(c.cspace), schedContext := Some(c.sched), addressSpace := c.addressSpace,
                   state := if before.state == Inactive then Ready else before.state)],
                 ready := if before.state == Inactive then k.ready + [c.target] else k.ready)
  {
    hide Placed;
    hide Linked;
    hide PoolsBounded;
    var before := k.tcbs[c.target];
    if before.state == Inactive {
      QueueHasRoom(k, ReadyQueue, c.target);
      var tcb := before.(cspace := Some(c.cspace), schedContext := Some(c.sched), addressSpace := c.addressSpace);
      assert k.tcbs[c.target := tcb][c.target := tcb.(state := Ready)] == k.tcbs[c.target := tcb.(state := Ready)];
    }
  }

  // --------------------------------------------------------------------------- frames

  /** How many spare pages a mapping needs: two levels of tables below the root, or one. */
  function SparesFor(size: FrameSize): nat {
    if size == Small then 2 else 1
  }

  function MapRefusal(k: Kernel, cur: TcbId, i: FrameId, f: Context, w: Frames.Walk): Refusal {
    var v := Designated(k, cur, f.mrs[1]);
    if SpaceRefusal(k, cur, f.mrs[1]).Some? then SpaceRefusal(k, cur, f.mrs[1])
    else if i !in k.frames then Some(InvalidCapability)
    else if k.frames[i].mappedAt[0].Some? && k.frames[i].mappedAt[1].Some? then Some(IllegalOperation)
    else if f.mrs[2] % k.frames[i].size.Bytes() != 0 then Some(AlignmentError)
    else if v.vspace !in k.vspaces then Some(InvalidCapability)
    else if w.translated then Some(IllegalOperation)
    else if k.pageTables.next + SparesFor(k.frames[i].size) * PAGE_SIZE > MAX_KERNEL_PAGE_TABLES * PAGE_SIZE
    then Some(NotEnoughMemory)
    else None
  }

  /** The first mapping of a frame into address space `v`. */
  function MappingInto(m: Mappings, v: VSpaceId): Option<nat> {
    if m[0].Some? && m[0].value.0 == v then Some(0)
    else if m[1].Some? && m[1].value.0 == v then Some(1)
    else None
  }

  function UnmapRefusal(k: Kernel, cur: TcbId, i: FrameId, f: Context): Refusal {
    var v := Designated(k, cur, f.mrs[1]);
    if SpaceRefusal(k, cur, f.mrs[1]).Some? then SpaceRefusal(k, cur, f.mrs[1])
    else if i !in k.frames then Some(InvalidCapability)
    else if MappingInto(k.frames[i].mappedAt, v.vspace).Some? && v.vspace !in k.vspaces then Some(InvalidCapability)
    else None
  }

  function FrameRefusal(k: Kernel, cur: TcbId, f: Context, w: Frames.Walk): Refusal {
    var c := Designated(k, cur, f.mrs[0]);
    if !HasCSpace(k, cur) then Some(FailedLookup)
    else if !c.FrameCap? then Some(InvalidCapability)
    else if Write !in c.frameRights then Some(IllegalOperation)
    else if f.tag.labelId == Frames.LABEL_MAP then MapRefusal(k, cur, c.frame, f, w)
    else if f.tag.labelId == Frames.LABEL_UNMAP then UnmapRefusal(k, cur, c.frame, f)
    else Some(InvalidArgument)
  }

  /** The kernel with mapping `slot` of frame `i` replaced. */
  function WithMapping(k: Kernel, i: FrameId, slot: nat, m: Option<(VSpaceId, Word)>): Kernel
    requires i in k.frames && slot < MAX_FRAME_MAPPINGS
  {
    k.(frames := k.frames[i := k.frames[i].(mappedAt := k.frames[i].mappedAt[slot := m])])
  }

  /** The frame is mapped in its first free slot, and the walk has linked the next pages of the arena. */
  predicate MapDone(k: Kernel, cur: TcbId, i: FrameId, f: Context, w: Frames.Walk, k': Kernel) {
    && i in k.frames && Designated(k, cur, f.mrs[1]).VSpaceCap?
    && var (t, max) := (k.pageTables, SparesFor(k.frames[i].size));
       var taken := if w.tables < max then w.tables else max;
       k' == WithMapping(k, i, if k.frames[i].mappedAt[0].None? then 0 else 1,
                         Some((Designated(k, cur, f.mrs[1]).vspace, f.mrs[2])))
             .(pageTables := t.(next := t.next + taken * PAGE_SIZE,
                                branches := t.branches + Arena.PagesFrom(t.base + t.next, taken)))
  }

  /** The first mapping into the address space is gone; without one nothing happens. */
  predicate UnmapDone(k: Kernel, cur: TcbId, i: FrameId, f: Context, k': Kernel) {
    && i in k.frames && Designated(k, cur, f.mrs[1]).VSpaceCap?
    && var slot := MappingInto(k.frames[i].mappedAt, Designated(k, cur, f.mrs[1]).vspace);
       k' == if slot.None? then k else WithMapping(k, i, slot.value, None)
  }

  /** The kernel after a frame call that is refused: a page taken before the arena was used up stays taken. */
  function AfterFrameRefusal(k: Kernel, refusal: Refusal): Kernel {
    if refusal == Some(NotEnoughMemory) && k.pageTables.next + PAGE_SIZE <= MAX_KERNEL_PAGE_TABLES * PAGE_SIZE
    then k.(pageTables := k.pageTables.(next := k.pageTables.next + PAGE_SIZE))
    else k
  }

  /** One page is not enough for two. */
  lemma OneSpareIsLost(t: PageTables, size: FrameSize)
    requires t.next + SparesFor(size) * PAGE_SIZE > MAX_KERNEL_PAGE_TABLES * PAGE_SIZE
    ensures Frames.AllocSpares(t, SparesFor(size))
         == (if t.next + PAGE_SIZE <= MAX_KERNEL_PAGE_TABLES * PAGE_SIZE then t.(next := t.next + PAGE_SIZE) else t,
             None)
  {
  }

  lemma MapIsExact(k: Kernel, cur: TcbId, i: FrameId, f: Context, w: Frames.Walk)
    requires HasCSpace(k, cur)
    ensures var (o, refusal) := (Frames.Map(k, cur, i, f, w), MapRefusal(k, cur, i, f, w));
            && o.status == StatusOf(refusal)
            && (refusal.Some? ==> o.frame == f && o.k == AfterFrameRefusal(k, refusal))
            && (refusal.None? ==> o.frame == ReplySuccess(f) && MapDone(k, cur, i, f, w, o.k))
  {
    hide Admin.ResolveVSpace;
    hide SpaceRefusal;
    hide Designated;
    SpaceIsExact(k, cur, f.mrs[1]);
    if i in k.frames
      && k.pageTables.next + SparesFor(k.frames[i].size) * PAGE_SIZE > MAX_KERNEL_PAGE_TABLES * PAGE_SIZE
    {
      OneSpareIsLost(k.pageTables, k.frames[i].size);
      hide Frames.AllocSpares;
    } else if i in k.frames && k.pageTables.next <= MAX_KERNEL_PAGE_TABLES * PAGE_SIZE {
      Arena.SparesInARow(k.pageTables, SparesFor(k.frames[i].size));
      Arena.MapCost(k, cur, i, f, w);
      hide Frames.AllocSpares;
    }
    hide Arena.PagesFrom;
  }

  lemma UnmapIsExact(k: Kernel, cur: TcbId, i: FrameId, f: Context)
    requires HasCSpace(k, cur)
    ensures var (o, refusal) := (Frames.Unmap(k, cur, i, f), UnmapRefusal(k, cur, i, f));
            && Concludes(k, f, o, refusal) && refusal != Some(NotEnoughMemory)
            && (refusal.None? ==> UnmapDone(k, cur, i, f, o.k))
  {
    hide Admin.ResolveVSpace;
    hide SpaceRefusal;
    hide Designated;
    SpaceIsExact(k, cur, f.mrs[1]);
  }

  /** `FrameInvoke` maps or unmaps the frame that slot mr0 names in the address space that slot mr1
      names, both with the right to write, and only where nothing is translated yet. */
  lemma FrameInvokeIsExact(k: Kernel, cur: TcbId, f: Context, w: Frames.Walk)
    ensures var (o, refusal) := (Frames.Invoke(k, cur, f.mrs[0], f, w), FrameRefusal(k, cur, f, w));
            && o.status == StatusOf(refusal)
            && (refusal.Some? ==> o.frame == f && o.k == AfterFrameRefusal(k, refusal))
            && (refusal.None? ==>
                  && o.frame == ReplySuccess(f) && Designated(k, cur, f.mrs[0]).FrameCap?
                  && var i := Designated(k, cur, f.mrs[0]).frame;
                     if f.tag.labelId == Frames.LABEL_MAP then MapDone(k, cur, i, f, w, o.k)
                     else UnmapDone(k, cur, i, f, o.k))
  {
    hide LookupCap;
    hide Frames.Map;
    hide Frames.Unmap;
    hide MapRefusal;
    hide UnmapRefusal;
    hide MapDone;
    hide UnmapDone;
    hide Designated;
    LookupFindsDesignated(k, cur, f.mrs[0]);
    var c := Designated(k, cur, f.mrs[0]);
    if HasCSpace(k, cur) && c.FrameCap? {
      MapIsExact(k, cur, c.frame, f, w);
      UnmapIsExact(k, cur, c.frame, f);
    }
  }

  // --------------------------------------------------------------------------- retype

  /** The least multiple of the frame size at or above the cursor. */
  function FrameAddress(r: Range, size: FrameSize): nat {
    (r.next + size.Bytes() - 1) / size.Bytes() * size.Bytes()
  }

  /** Memory for a frame takes a range with room for one that is aligned to its size. */
  function RangeRefusal(u: Untyped, size: FrameSize): Refusal {
    if u.memory.None? || FrameAddress(u.memory.value, size) + size.Bytes() > u.memory.value.end
    then Some(NotEnoughMemory)
    else None
  }

  function RoomRefusal(used: nat, max: nat): Refusal {
    if used >= max then Some(NotEnoughMemory) else None
  }

  /** An object of the type with this number needs room in its pool, an address space a page of the
      arena, and a frame memory of its own. There is no type 9, and an Untyped cannot be made. */
  function ObjectRefusal(k: Kernel, u: Untyped, number: Word): Refusal {
    match number
    case 0 => RoomRefusal(|k.cnodes|, MAX_CNODES)
    case 2 => RoomRefusal(|k.endpoints|, MAX_ENDPOINTS)
    case 3 => RoomRefusal(|k.notifications|, MAX_NOTIFICATIONS)
    case 4 => RoomRefusal(|k.tcbs|, MAX_TCBS)
    case 5 => RoomRefusal(|k.schedContexts|, MAX_SCHED_CONTEXTS)
    case 6 =>
      if k.pageTables.next + PAGE_SIZE > MAX_KERNEL_PAGE_TABLES * PAGE_SIZE then Some(NotEnoughMemory)
      else RoomRefusal(|k.vspaces|, MAX_VSPACES)
    case 7 => if RangeRefusal(u, Small).Some? then RangeRefusal(u, Small) else RoomRefusal(|k.frames|, MAX_FRAMES)
    case 8 => if RangeRefusal(u, Mega).Some? then RangeRefusal(u, Mega) else RoomRefusal(|k.frames|, MAX_FRAMES)
    case _ => Some(InvalidArgument)
  }

  /** What a retype needs before it makes the object. */
  function RequestRefusal(k: Kernel, cur: TcbId, f: Context): Refusal {
    var c := Designated(k, cur, f.mrs[0]);
    if !HasCSpace(k, cur) then Some(FailedLookup)
    else if !c.UntypedCap? then Some(InvalidCapability)
    else if Write !in c.untypedRights then Some(IllegalOperation)
    else if f.mrs[1] > 8 then Some(InvalidArgument)
    else if c.untyped !in k.untypeds then Some(InvalidCapability)
    else if k.untypeds[c.untyped].remaining == 0 then Some(NotEnoughMemory)
    else if f.mrs[2] >= CNODE_SLOTS then Some(RangeError)
    else if Designated(k, cur, f.mrs[2]) != Null then Some(IllegalOperation)
    else None
  }

  function RetypeRefusal(k: Kernel, cur: TcbId, f: Context): Refusal {
    var r := RequestRefusal(k, cur, f);
    if r.Some? then r else ObjectRefusal(k, k.untypeds[Designated(k, cur, f.mrs[0]).untyped], f.mrs[1])
  }

  /** The kernel when an object cannot be made: the page or the memory taken for it stays taken, if there
      was one. */
  function WithoutObject(k: Kernel, u: UntypedId, number: Word): Kernel
    requires u in k.untypeds
  {
    match number
    case 6 => AfterFrameRefusal(k, Some(NotEnoughMemory))
    case 7 => WithoutFrame(k, u, Small)
    case 8 => WithoutFrame(k, u, Mega)
    case _ => k
  }

  function WithoutFrame(k: Kernel, u: UntypedId, size: FrameSize): Kernel
    requires u in k.untypeds
  {
    if RangeRefusal(k.untypeds[u], size).Some? then k
    else
      var range := k.untypeds[u].memory.value;
      var rest := Range(FrameAddress(range, size) + size.Bytes(), range.end);
      k.(untypeds := k.untypeds[u := k.untypeds[u].(memory := Some(rest))])
  }

  function AfterRetypeRefusal(k: Kernel, cur: TcbId, f: Context): Kernel {
    if RequestRefusal(k, cur, f).Some? then k else WithoutObject(k, Designated(k, cur, f.mrs[0]).untyped, f.mrs[1])
  }

  /** The first index of a pool that is free. */
  function Next<T>(m: map<nat, T>, max: nat): nat {
    Pool.FirstFree(m, 0, max)
  }

  /** The kernel with a new object of the type with this number, and the capability to it. */
  function WithObject(k: Kernel, u: UntypedId, number: Word): (Kernel, Capability)
    requires u in k.untypeds
  {
    match number
    case 0 =>
      var i := Next(k.cnodes, MAX_CNODES);
      (k.(cnodes := k.cnodes[i := seq(CNODE_SLOTS, s => Null)]), CNodeCap(i))
    case 2 =>
      var i := Next(k.endpoints, MAX_ENDPOINTS);
      (k.(endpoints := k.endpoints[i := Endpoint(Empty)]), EndpointCap(i, 0, {Read, Write, Grant}))
    case 3 =>
      var i := Next(k.notifications, MAX_NOTIFICATIONS);
      (k.(notifications := k.notifications[i := Notification(0, [])]), NotificationCap(i, 0, {Read, Write, Grant}))
    case 4 =>
      var i := Next(k.tcbs, MAX_TCBS);
      (k.(tcbs := k.tcbs[i := Tcb(Inactive, None, None, ZeroContext(), None, None)]), TcbCap(i, {Read, Write, Grant}))
    case 5 =>
      var i := Next(k.schedContexts, MAX_SCHED_CONTEXTS);
      (k.(schedContexts := k.schedContexts[i := SchedulingContext(1, 1)]), SchedContextCap(i, {Read, Write, Grant}))
    case 6 =>
      var (i, t) := (Next(k.vspaces, MAX_VSPACES), k.pageTables);
      (k.(vspaces := k.vspaces[i := VSpace(t.base + t.next)], pageTables := t.(next := t.next + PAGE_SIZE)),
       VSpaceCap(i, {Read, Write, Grant}))
    case _ => WithFrame(k, u, if number == 7 then Small else Mega)
  }

  /** The kernel with a new frame, carved from the range of an Untyped. */
  function WithFrame(k: Kernel, u: UntypedId, size: FrameSize): (Kernel, Capability)
    requires u in k.untypeds
  {
    var (i, range) := (Next(k.frames, MAX_FRAMES), k.untypeds[u].memory);
    if range.None? then (k, Null)
    else
      var a := FrameAddress(range.value, size);
      (k.(frames := k.frames[i := Frame(a, size, [None, None])],
          untypeds := k.untypeds[u := k.untypeds[u].(memory := Some(Range(a + size.Bytes(), range.value.end)))]),
       FrameCap(i, {Read, Write, Grant}))
  }

  lemma AddressIsExact(r: Range, size: FrameSize)
    ensures AlignUp(r.next, size.Bytes()) == FrameAddress(r, size)
  {
    PageSizesArePowers();
    AlignUpRoundsUp(r.next, if size.Small? then 12 else 21);
    hide AlignUp;
    if size.Small? {
      RoundedUpIs(AlignUp(r.next, PAGE_SIZE), r.next, PAGE_SIZE);
    } else {
      RoundedUpIs(AlignUp(r.next, MEGAPAGE_SIZE), r.next, MEGAPAGE_SIZE);
    }
  }

  lemma RoundedUpIs(r: nat, x: nat, p: nat)
    requires p > 0 && IsRoundedUp(r, x, p)
    ensures r == (x + p - 1) / p * p
  {
    var q := r / p;
    assert r == p * q;
    QuotientIs(x + p - 1, p, q);
  }

  lemma PoolHasRoom<T>(m: map<nat, T>, max: nat)
    requires Pool.Bounded(m, max)
    ensures Pool.AllocIndex(m, max) == if |m| >= max then None else Some(Next(m, max))
  {
    Failure.FullPool(m, max);
  }

  /** What an attempt to make an object comes to. */
  predicate MakesObject(k: Kernel, u: UntypedId, number: Word, c: Admin.Created)
    requires u in k.untypeds
  {
    var refusal := ObjectRefusal(k, k.untypeds[u], number);
    if refusal.Some? then c == Admin.NotMade(WithoutObject(k, u, number), refusal.value)
    else c.Made? && (c.k, c.cap) == WithObject(k, u, number)
  }

  lemma BumpIsExact(u: Untyped, size: FrameSize)
    requires UntypedBounded(u)
    ensures BumpUntyped(u, size.Bytes(), size.Bytes()) ==
              if RangeRefusal(u, size).Some? then Exhausted
              else
                var a := FrameAddress(u.memory.value, size);
                Bumped(u.(memory := Some(Range(a + size.Bytes(), u.memory.value.end))), a)
  {
    hide AlignUp;
    hide FrameAddress;
    if u.memory.Some? { AddressIsExact(u.memory.value, size); }
  }

  lemma FrameIsExact(k: Kernel, u: UntypedId, size: FrameSize)
    requires u in k.untypeds && PoolsBounded(k) && BumpsBounded(k)
    ensures var (c, refusal) := (Admin.NewFrame(k, u, size), RangeRefusal(k.untypeds[u], size));
            if refusal.Some? then c == Admin.NotMade(WithoutFrame(k, u, size), refusal.value)
            else if |k.frames| >= MAX_FRAMES then c == Admin.NotMade(WithoutFrame(k, u, size), NotEnoughMemory)
            else c.Made? && (c.k, c.cap) == WithFrame(k, u, size)
  {
    hide Pool.AllocIndex;
    hide Pool.FirstFree;
    hide FrameAddress;
    assert UntypedBounded(k.untypeds[u]);
    BumpIsExact(k.untypeds[u], size);
    hide BumpUntyped;
    PoolHasRoom(k.frames, MAX_FRAMES);
    hide Pool.Bounded;
  }

  lemma ObjectIsExact(k: Kernel, u: UntypedId, t: ObjectType, number: Word)
    requires u in k.untypeds && PoolsBounded(k) && BumpsBounded(k)
    requires ObjectTypeFromWord(number) == Some(t)
    ensures MakesObject(k, u, number, Admin.NewObject(k, u, t))
  {
    hide Admin.NewFrame;
    hide WithFrame;
    hide WithoutFrame;
    hide RangeRefusal;
    hide Pool.AllocIndex;
    hide Next;
    hide Pool.Bounded;
    match t
    case CNodeType => PoolHasRoom(k.cnodes, MAX_CNODES);
    case EndpointType => PoolHasRoom(k.endpoints, MAX_ENDPOINTS);
    case NotificationType => PoolHasRoom(k.notifications, MAX_NOTIFICATIONS);
    case TcbType => PoolHasRoom(k.tcbs, MAX_TCBS);
    case SchedContextType => PoolHasRoom(k.schedContexts, MAX_SCHED_CONTEXTS);
    case VSpaceType => PoolHasRoom(k.vspaces, MAX_VSPACES);
    case FrameSmallType => FrameIsExact(k, u, Small);
    case FrameMegaType => FrameIsExact(k, u, Mega);
    case UntypedType =>
  }

  lemma RetypingIsExact(k: Kernel, cur: TcbId, f: Context)
    ensures var (c, d) := (Designated(k, cur, f.mrs[0]), Admin.DecodeRetype(k, cur, f.mrs[0], f));
            if d.Success? then
              && RequestRefusal(k, cur, f) == None
              && HasCSpace(k, cur) && c.UntypedCap? && d.value.untyped == c.untyped
              && ObjectTypeFromWord(f.mrs[1]) == Some(d.value.objectType)
              && k.tcbs[cur].cspace == Some(d.value.cnode) && d.value.dest == f.mrs[2]
            else RequestRefusal(k, cur, f) == Some(d.error)
  {
    hide LookupCap;
    hide ObjectRefusal;
    LookupFindsDesignated(k, cur, f.mrs[0]);
  }

  /** There is a new object, a capability to it in the caller's CSpace, and one object less in the budget. */
  predicate RetypeDone(k: Kernel, cur: TcbId, f: Context, k': Kernel) {
    && HasCSpace(k, cur)
    && var (n, c) := (k.tcbs[cur].cspace.value, Designated(k, cur, f.mrs[0]));
       && c.UntypedCap? && c.untyped in k.untypeds && k.untypeds[c.untyped].remaining > 0
       && var ((k1, cap), left) := (WithObject(k, c.untyped, f.mrs[1]), k.untypeds[c.untyped].remaining - 1);
          && c.untyped in k1.untypeds
          && k' == WithSlot(k1, n, f.mrs[2], cap)
                   .(untypeds := k1.untypeds[c.untyped := k1.untypeds[c.untyped].(remaining := left)])
  }

  /** `UntypedRetype` makes an object of the type that mr1 numbers, puts a capability to it with all rights
      in slot mr2 of the caller's CSpace, and takes one from the budget of the Untyped that slot mr0
      names. */
  lemma RetypeIsExact(k: Kernel, cur: TcbId, f: Context)
    requires WellFormed(k)
    ensures var (o, refusal) := (Admin.UntypedRetype(k, cur, f.mrs[0], f), RetypeRefusal(k, cur, f));
            && o.status == StatusOf(refusal)
            && (refusal.Some? ==> o.frame == f && o.k == AfterRetypeRefusal(k, cur, f))
            && (refusal.None? ==> o.frame == ReplySuccess(f) && RetypeDone(k, cur, f, o.k))
  {
    hide Placed;
    hide Linked;
    hide ObjectRefusal;
    hide WithObject;
    hide WithoutObject;
    hide PoolsBounded;
    hide Designated;
    RetypingIsExact(k, cur, f);
    var d := Admin.DecodeRetype(k, cur, f.mrs[0], f);
    if d.Success? {
      ObjectIsExact(k, d.value.untyped, d.value.objectType, f.mrs[1]);
      hide Admin.NewObject;
    }
  }
}
