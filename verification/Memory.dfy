/** Frames never overlap: each is aligned, and lies in the physical range of the Untyped it was
    carved from, apart from every other frame. */
module Memory {
  import opened Limits
  import opened Words
  import opened Wrappers
  import opened Capabilities
  import opened Objects
  import opened State
  import opened Invariants
  import opened Syscalls
  import opened Upkeep
  import Admin
  import CNodes
  import Frames
  import Pool

  /** The ranges the Untypeds were given at boot. */
  type Homes = map<UntypedId, Range>

  predicate Within(lo: Address, hi: Address, r: Range) {
    r.next <= lo <= hi <= r.end
  }

  predicate Apart(a: Range, b: Range) {
    a.end <= b.next || b.end <= a.next
  }

  ghost predicate HomesApart(homes: Homes) {
    forall u, v | u in homes && v in homes && u != v :: Apart(homes[u], homes[v])
  }

  /** The bump cursor of each Untyped moves up in its own range. */
  predicate AtHome(homes: Homes, u: UntypedId, v: Untyped) {
    v.memory.Some? ==> u in homes && v.memory.value.end == homes[u].end
                       && Within(v.memory.value.next, v.memory.value.end, homes[u])
  }

  /** The physical range of a frame. */
  function Extent(f: Frame): Range {
    Range(f.paddr, f.paddr + f.size.Bytes())
  }

  predicate Aligned(f: Frame) {
    f.paddr % f.size.Bytes() == 0
  }

  /** The frame was carved from `u`: it lies below the cursor, in the range of `u`. */
  predicate CarvedFrom(k: Kernel, homes: Homes, f: Frame, u: UntypedId) {
    && u in k.untypeds && k.untypeds[u].memory.Some? && u in homes
    && homes[u].next <= f.paddr && f.paddr + f.size.Bytes() <= k.untypeds[u].memory.value.next
  }

  ghost predicate Carved(k: Kernel, homes: Homes, f: Frame) {
    exists u :: CarvedFrom(k, homes, f, u)
  }

  ghost predicate FramesApart(k: Kernel) {
    forall i, j | i in k.frames && j in k.frames && i != j :: Apart(Extent(k.frames[i]), Extent(k.frames[j]))
  }

  ghost predicate MemoryOk(k: Kernel, homes: Homes) {
    && HomesApart(homes)
    && (forall u | u in k.untypeds :: AtHome(homes, u, k.untypeds[u]))
    && (forall i | i in k.frames :: Aligned(k.frames[i]) && Carved(k, homes, k.frames[i]))
    && FramesApart(k)
  }

  /** The ranges the Untypeds of `k` have left. */
  function RangesOf(k: Kernel): Homes {
    map u | u in k.untypeds && k.untypeds[u].memory.Some? :: k.untypeds[u].memory.value
  }

  // ------------------------------------------------------------------- one retype

  /** A bump hands out a chunk aligned to any power of two, between the old cursor and the new one. */
  lemma BumpCarves(u: Untyped, size: nat, k: nat)
    ensures var b := BumpUntyped(u, size, Pow2(k));
            b.Bumped? ==>
              && u.memory.Some? && b.untyped.memory.Some?
              && b.paddr % Pow2(k) == 0
              && u.memory.value.next <= b.paddr < u.memory.value.next + Pow2(k)
              && b.untyped == u.(memory := Some(Range(b.paddr + size, u.memory.value.end)))
              && b.untyped.memory.value.next <= u.memory.value.end
  {
    if u.memory.Some? {
      AlignUpRoundsUp(u.memory.value.next, k);
    }
    hide AlignUp;
  }

  /** Frames are bumped with their size for alignment. */
  lemma FrameBumpCarves(u: Untyped, size: FrameSize)
    ensures var b := BumpUntyped(u, size.Bytes(), size.Bytes());
            b.Bumped? ==>
              && u.memory.Some? && b.untyped.memory.Some?
              && b.paddr % size.Bytes() == 0
              && u.memory.value.next <= b.paddr
              && b.untyped.memory.value == Range(b.paddr + size.Bytes(), u.memory.value.end)
              && b.untyped.memory.value.next <= u.memory.value.end
  {
    PageSizesArePowers();
    hide BumpUntyped;
    BumpCarves(u, size.Bytes(), if size.Small? then 12 else 21);
  }

  /** The frames carved before stay where they are, as the cursors only move up. */
  lemma CarvedStays(k: Kernel, k': Kernel, homes: Homes, f: Frame, u: UntypedId, next: Address)
    requires Carved(k, homes, f)
    requires u in k.untypeds && k.untypeds[u].memory.Some? && k.untypeds[u].memory.value.next <= next
    requires u in k'.untypeds && k'.untypeds[u].memory.Some? && k'.untypeds[u].memory.value.next == next
    requires forall v | v in k.untypeds && v != u :: v in k'.untypeds && k'.untypeds[v] == k.untypeds[v]
    ensures Carved(k', homes, f)
  {
    var v :| CarvedFrom(k, homes, f, v);
    assert CarvedFrom(k', homes, f, v);
  }

  /** A chunk above the cursor of `u` is apart from every frame there is. */
  lemma NewChunkIsApart(k: Kernel, homes: Homes, f: Frame, u: UntypedId, chunk: Range)
    requires MemoryOk(k, homes) && Carved(k, homes, f)
    requires u in k.untypeds && k.untypeds[u].memory.Some?
    requires k.untypeds[u].memory.value.next <= chunk.next <= chunk.end <= k.untypeds[u].memory.value.end
    ensures Apart(Extent(f), chunk)
  {
    var v :| CarvedFrom(k, homes, f, v);
    assert AtHome(homes, u, k.untypeds[u]) && AtHome(homes, v, k.untypeds[v]);
    if u != v {
      assert Apart(homes[u], homes[v]);
    }
  }

  /** A bump without a frame keeps the memory in order. */
  lemma BumpKeepsMemory(k: Kernel, homes: Homes, u: UntypedId, size: FrameSize)
    requires MemoryOk(k, homes) && BumpsBounded(k) && u in k.untypeds
    ensures var b := BumpUntyped(k.untypeds[u], size.Bytes(), size.Bytes());
            b.Bumped? ==> MemoryOk(k.(untypeds := k.untypeds[u := b.untyped]), homes)
  {
    var b := BumpUntyped(k.untypeds[u], size.Bytes(), size.Bytes());
    FrameBumpCarves(k.untypeds[u], size);
    hide BumpUntyped;
    if b.Bumped? {
      var k1 := k.(untypeds := k.untypeds[u := b.untyped]);
      assert AtHome(homes, u, k.untypeds[u]);
      forall i | i in k1.frames ensures Carved(k1, homes, k1.frames[i]) {
        CarvedStays(k, k1, homes, k.frames[i], u, b.untyped.memory.value.next);
      }
    }
  }

  lemma AddedFrameKeepsMemory(k: Kernel, homes: Homes, i: FrameId, f: Frame)
    requires MemoryOk(k, homes) && i !in k.frames
    requires Aligned(f) && Carved(k, homes, f)
    requires forall j | j in k.frames :: Apart(Extent(k.frames[j]), Extent(f))
    ensures MemoryOk(k.(frames := k.frames[i := f]), homes)
  {
    var k' := k.(frames := k.frames[i := f]);
    forall j | j in k'.frames ensures Carved(k', homes, k'.frames[j]) {
      var u :| CarvedFrom(k, homes, k'.frames[j], u);
      assert CarvedFrom(k', homes, k'.frames[j], u);
    }
  }

  lemma NewFrameKeepsMemory(k: Kernel, homes: Homes, u: UntypedId, size: FrameSize)
    requires MemoryOk(k, homes) && BumpsBounded(k) && u in k.untypeds
    ensures var c := Admin.NewFrame(k, u, size); c.Made? || c.NotMade? ==> MemoryOk(c.k, homes)
  {
    var b := BumpUntyped(k.untypeds[u], size.Bytes(), size.Bytes());
    FrameBumpCarves(k.untypeds[u], size);
    BumpKeepsMemory(k, homes, u, size);
    hide BumpUntyped;
    hide MemoryOk;
    hide BumpsBounded;
    if b.Bumped? {
      var k1 := k.(untypeds := k.untypeds[u := b.untyped]);
      var i := Pool.AllocIndex(k1.frames, MAX_FRAMES);
      if i.Some? {
        NewFrameIsApart(k, homes, u, b.untyped, b.paddr, size, i.value);
      }
      AddedFrame(k1, b.paddr, size);
    }
    hide Admin.AddFrame;
    hide Pool.AllocIndex;
  }

  lemma AddedFrame(k: Kernel, paddr: Address, size: FrameSize)
    ensures var i := Pool.AllocIndex(k.frames, MAX_FRAMES);
            && (i.Some? ==> i.value !in k.frames)
            && Admin.AddFrame(k, paddr, size)
                 == if i.None? then Admin.NotMade(k, NotEnoughMemory)
                    else Admin.Made(k.(frames := k.frames[i.value := Frame(paddr, size, [None, None])]),
                                    FrameCap(i.value, ALL_RIGHTS))
  {
  }

  lemma NewFrameIsApart(k: Kernel, homes: Homes, u: UntypedId, v: Untyped, paddr: Address, size: FrameSize, i: FrameId)
    requires MemoryOk(k, homes) && u in k.untypeds && k.untypeds[u].memory.Some? && i !in k.frames
    requires k.untypeds[u].memory.value.next <= paddr && paddr % size.Bytes() == 0
    requires v.memory == Some(Range(paddr + size.Bytes(), k.untypeds[u].memory.value.end))
    requires paddr + size.Bytes() <= k.untypeds[u].memory.value.end
    requires MemoryOk(k.(untypeds := k.untypeds[u := v]), homes)
    ensures MemoryOk(k.(untypeds := k.untypeds[u := v], frames := k.frames[i := Frame(paddr, size, [None, None])]), homes)
  {
    var k1 := k.(untypeds := k.untypeds[u := v]);
    var f := Frame(paddr, size, [None, None]);
    assert AtHome(homes, u, k.untypeds[u]);
    assert CarvedFrom(k1, homes, f, u);
    forall j | j in k1.frames ensures Apart(Extent(k1.frames[j]), Extent(f)) {
      NewChunkIsApart(k, homes, k.frames[j], u, Extent(f));
    }
    AddedFrameKeepsMemory(k1, homes, i, f);
  }

  // ------------------------------------------------------------------ every call

  /** The same Untypeds, and the same frames in the same places. */
  ghost predicate SameMemory(k: Kernel, k': Kernel) {
    && k'.untypeds == k.untypeds
    && k'.frames.Keys == k.frames.Keys
    && forall i | i in k.frames :: k'.frames[i].paddr == k.frames[i].paddr && k'.frames[i].size == k.frames[i].size
  }

  lemma SameMemoryKeeps(k: Kernel, k': Kernel, homes: Homes)
    requires MemoryOk(k, homes) && SameMemory(k, k')
    ensures MemoryOk(k', homes)
  {
    forall i | i in k'.frames ensures Aligned(k'.frames[i]) && Carved(k', homes, k'.frames[i]) {
      var u :| CarvedFrom(k, homes, k.frames[i], u);
      assert CarvedFrom(k', homes, k'.frames[i], u);
    }
    forall i, j | i in k'.frames && j in k'.frames && i != j ensures Apart(Extent(k'.frames[i]), Extent(k'.frames[j])) {
      assert Apart(Extent(k.frames[i]), Extent(k.frames[j]));
    }
  }

  lemma NewObjectKeepsMemory(k: Kernel, homes: Homes, u: UntypedId, t: ObjectType)
    requires MemoryOk(k, homes) && BumpsBounded(k) && u in k.untypeds
    ensures var c := Admin.NewObject(k, u, t); c.Made? || c.NotMade? ==> MemoryOk(c.k, homes)
  {
    hide MemoryOk;
    hide Admin.NewFrame;
    var c := Admin.NewObject(k, u, t);
    match t
    case FrameSmallType => NewFrameKeepsMemory(k, homes, u, Small);
    case FrameMegaType => NewFrameKeepsMemory(k, homes, u, Mega);
    case CNodeType | UntypedType | EndpointType | NotificationType | TcbType | SchedContextType | VSpaceType =>
      if c.Made? || c.NotMade? {
        OtherObjectMemory(k, u, t);
        hide Admin.NewObject;
        SameMemoryKeeps(k, c.k, homes);
      }
  }

  lemma OtherObjectMemory(k: Kernel, u: UntypedId, t: ObjectType)
    requires u in k.untypeds && t != FrameSmallType && t != FrameMegaType
    ensures var c := Admin.NewObject(k, u, t);
            c.Made? || c.NotMade? ==> c.k.untypeds == k.untypeds && c.k.frames == k.frames
  {
    hide Pool.AllocIndex;
    hide Admin.NewFrame;
  }

  lemma RetypeKeepsMemory(k: Kernel, homes: Homes, cur: TcbId, f: Context)
    requires MemoryOk(k, homes) && BumpsBounded(k)
    ensures MemoryOk(Admin.UntypedRetype(k, cur, f.Mr(0), f).k, homes)
  {
    hide LookupCap;
    hide MemoryOk;
    var d := Admin.DecodeRetype(k, cur, f.Mr(0), f);
    if d.Success? {
      var r := d.value;
      NewObjectKeepsMemory(k, homes, r.untyped, r.objectType);
      var c := Admin.NewObject(k, r.untyped, r.objectType);
      hide Admin.NewObject;
      if c.Made? {
        SameMemoryKeeps(c.k, SetSlot(c.k, r.cnode, r.dest, c.cap), homes);
        SpendKeepsMemory(SetSlot(c.k, r.cnode, r.dest, c.cap), homes, r.untyped);
      }
    }
  }

  lemma SpendKeepsMemory(k: Kernel, homes: Homes, u: UntypedId)
    requires MemoryOk(k, homes) && u in k.untypeds && k.untypeds[u].remaining > 0
    ensures MemoryOk(Admin.SpendBudget(k, u), homes)
  {
    var k' := Admin.SpendBudget(k, u);
    forall i | i in k'.frames ensures Carved(k', homes, k'.frames[i]) {
      var v :| CarvedFrom(k, homes, k.frames[i], v);
      assert CarvedFrom(k', homes, k'.frames[i], v);
    }
    assert AtHome(homes, u, k.untypeds[u]);
  }

  lemma OthersKeepMemory(k: Kernel, cur: TcbId, tr: Trap)
    ensures SameMemory(k, CNodes.Invoke(k, cur, tr.frame.Mr(0), tr.frame).k)
    ensures SameMemory(k, Admin.Configure(k, cur, tr.frame.Mr(0), tr.frame).k)
  {
    hide LookupCap;
    hide CNodes.Operate;
    hide Admin.DecodeConfigure;
    hide Admin.ApplyConfiguration;
  }

  lemma MappingKeepsMemory(k: Kernel, k': Kernel, id: FrameId, m: Mappings)
    requires id in k.frames && k'.untypeds == k.untypeds
    requires k'.frames == k.frames[id := k.frames[id].(mappedAt := m)]
    ensures SameMemory(k, k')
  {
  }

  lemma MapKeepsMemory(k: Kernel, cur: TcbId, id: FrameId, f: Context, w: Frames.Walk)
    ensures SameMemory(k, Frames.Map(k, cur, id, f, w).k)
  {
    hide SameMemory;
    hide LookupCap;
    hide Frames.AllocSpares;
    hide Frames.ReleaseLast;
    var o := Frames.Map(k, cur, id, f, w);
    if o.status.Ok? {
      var m := k.frames[id].mappedAt[Frames.DecodeMap(k, cur, id, f, w).value.slot
                                     := Some((Frames.DecodeMap(k, cur, id, f, w).value.vspace, f.Mr(2)))];
      MappingKeepsMemory(k, o.k, id, m);
    } else {
      SameFramesSameMemory(k, o.k);
    }
  }

  lemma SameFramesSameMemory(k: Kernel, k': Kernel)
    requires k'.untypeds == k.untypeds && k'.frames == k.frames
    ensures SameMemory(k, k')
  {
  }

  lemma UnmapKeepsMemory(k: Kernel, cur: TcbId, id: FrameId, f: Context)
    ensures SameMemory(k, Frames.Unmap(k, cur, id, f).k)
  {
    hide SameMemory;
    hide Frames.ResolveFrame;
    var k' := Frames.Unmap(k, cur, id, f).k;
    if k' != k {
      MappingKeepsMemory(k, k', id, k'.frames[id].mappedAt);
    } else {
      SameFramesSameMemory(k, k');
    }
  }

  lemma FrameInvokeKeepsMemory(k: Kernel, cur: TcbId, f: Context, w: Frames.Walk)
    ensures SameMemory(k, Frames.Invoke(k, cur, f.Mr(0), f, w).k)
  {
    hide Frames.Map;
    hide Frames.Unmap;
    hide LookupCap;
    var d := Frames.ResolveFrame(k, cur, f.Mr(0));
    if d.Success? {
      MapKeepsMemory(k, cur, d.value, f, w);
      UnmapKeepsMemory(k, cur, d.value, f);
    }
  }

  lemma HandlerKeepsMemory(k: Kernel, homes: Homes, cur: TcbId, tr: Trap)
    requires MemoryOk(k, homes) && Normalized(k) && Calm(k) && BumpsBounded(k)
    ensures MemoryOk(Handle(k, cur, tr).k, homes)
  {
    hide MemoryOk;
    if IsIpc(tr.frame.syscall) {
      IpcHandlerTidy(k, cur, tr);
      hide Handle;
      SameMemoryKeeps(k, Handle(k, cur, tr).k, homes);
    } else {
      hide Admin.UntypedRetype;
      hide CNodes.Invoke;
      hide Admin.Configure;
      hide Frames.Invoke;
      if tr.frame.syscall == UNTYPED_RETYPE {
        RetypeKeepsMemory(k, homes, cur, tr.frame);
      } else {
        OthersKeepMemory(k, cur, tr);
        FrameInvokeKeepsMemory(k, cur, tr.frame, tr.walk);
        SameMemoryKeeps(k, Handle(k, cur, tr).k, homes);
      }
    }
  }

  lemma {:induction false} RunKeepsMemory(k: Kernel, trs: seq<Trap>, homes: Homes)
    requires Inv(k) && MemoryOk(k, homes)
    ensures MemoryOk(Run(k, trs), homes)
    decreases |trs|
  {
    hide Handle;
    hide MemoryOk;
    if trs != [] {
      HandlerKeepsMemory(k, homes, k.current.value, trs[0]);
      StepKeepsInv(k, trs[0]);
      RunKeepsMemory(Step(k, trs[0]), trs[1..], homes);
    }
  }

  /** From a kernel without frames whose Untypeds own disjoint ranges: in every run all frames are
      aligned to their size, lie in one of those ranges, and are disjoint from each other. */
  lemma FramesNeverOverlap(k: Kernel, trs: seq<Trap>)
    requires Inv(k) && k.frames == map[] && HomesApart(RangesOf(k))
    ensures var fs := Run(k, trs).frames;
            && (forall i | i in fs ::
                  Aligned(fs[i]) && exists u :: u in RangesOf(k) && Within(Extent(fs[i]).next, Extent(fs[i]).end, RangesOf(k)[u]))
            && (forall i, j | i in fs && j in fs && i != j :: Apart(Extent(fs[i]), Extent(fs[j])))
  {
    hide Handle;
    var homes := RangesOf(k);
    forall u | u in k.untypeds ensures AtHome(homes, u, k.untypeds[u]) {
      assert UntypedBounded(k.untypeds[u]);
    }
    RunKeepsMemory(k, trs, homes);
    var k' := Run(k, trs);
    hide Run;
    forall i | i in k'.frames
      ensures exists u :: u in homes && Within(Extent(k'.frames[i]).next, Extent(k'.frames[i]).end, homes[u])
    {
      var u :| CarvedFrom(k', homes, k'.frames[i], u);
      assert AtHome(homes, u, k'.untypeds[u]);
      assert Within(Extent(k'.frames[i]).next, Extent(k'.frames[i]).end, homes[u]);
    }
  }
}
