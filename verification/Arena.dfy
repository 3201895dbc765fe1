/** Page-table arena accounting: every page table in use has a page of its own below the cursor,
    and mapping costs exactly the tables its walk takes. */
module Arena {
  import opened Limits
  import opened Words
  import opened Wrappers
  import opened Capabilities
  import opened Objects
  import opened State
  import opened Invariants
  import opened Syscalls
  import opened Upkeep
  import opened Frames
  import Admin
  import CNodes
  import Pool

  /** An aligned page of the arena below the cursor. */
  predicate PageBelow(t: PageTables, a: Address) {
    t.base <= a && a + PAGE_SIZE <= t.base + t.next && a % PAGE_SIZE == 0
  }

  ghost predicate RootsApart(vs: map<VSpaceId, VSpace>) {
    forall u, v | u in vs && v in vs && u != v :: vs[u].root != vs[v].root
  }

  ghost predicate BranchesApart(bs: seq<Address>) {
    forall i, j :: 0 <= i < j < |bs| ==> bs[i] != bs[j]
  }

  /** All page tables in use are distinct pages of the arena below the cursor. */
  ghost predicate ArenaOk(k: Kernel) {
    && k.pageTables.base % PAGE_SIZE == 0 && k.pageTables.next % PAGE_SIZE == 0
    && k.pageTables.next <= MAX_KERNEL_PAGE_TABLES * PAGE_SIZE
    && (forall v | v in k.vspaces :: PageBelow(k.pageTables, k.vspaces[v].root))
    && (forall b | b in k.pageTables.branches :: PageBelow(k.pageTables, b))
    && RootsApart(k.vspaces)
    && BranchesApart(k.pageTables.branches)
    && (forall v | v in k.vspaces :: k.vspaces[v].root !in k.pageTables.branches)
  }

  // ------------------------------------------------------------------ spare pages

  /** `count` pages in a row from the cursor. */
  function PagesFrom(a: Address, count: nat): seq<Address> {
    seq(count, i requires 0 <= i < count => a + i * PAGE_SIZE)
  }

  /** Taking spares succeeds exactly if that many are left, and takes them in a row. */
  lemma {:induction false} SparesInARow(t: PageTables, count: nat)
    requires t.next <= MAX_KERNEL_PAGE_TABLES * PAGE_SIZE
    ensures var (t', r) := AllocSpares(t, count);
            && (r.Some? <==> t.next + count * PAGE_SIZE <= MAX_KERNEL_PAGE_TABLES * PAGE_SIZE)
            && (r.Some? ==> t' == t.(next := t.next + count * PAGE_SIZE) && r.value == PagesFrom(t.base + t.next, count))
    decreases count
  {
    if count == 0 {
      assert PagesFrom(t.base + t.next, 0) == [];
    } else {
      var page := AllocTable(t);
      if page.Some? {
        SparesInARow(page.value.0, count - 1);
        assert PagesFrom(t.base + t.next, count)
            == [t.base + t.next] + PagesFrom(t.base + t.next + PAGE_SIZE, count - 1);
      }
    }
  }

  /** What a failed attempt leaves behind is still in order. */
  lemma {:induction false} SparesOnlyAdvance(t: PageTables, count: nat)
    requires t.next % PAGE_SIZE == 0 && t.next <= MAX_KERNEL_PAGE_TABLES * PAGE_SIZE
    ensures var t' := AllocSpares(t, count).0;
            && t' == t.(next := t'.next) && t.next <= t'.next
            && t'.next % PAGE_SIZE == 0 && t'.next <= MAX_KERNEL_PAGE_TABLES * PAGE_SIZE
    decreases count
  {
    if count > 0 && AllocTable(t).Some? {
      SparesOnlyAdvance(AllocTable(t).value.0, count - 1);
    }
  }

  lemma PagesPrefix(a: Address, count: nat, max: nat)
    requires count <= max
    ensures PagesFrom(a, max)[..count] == PagesFrom(a, count)
  {
  }

  // ------------------------------------------------------------------------- Map

  /** A successful `Map` moves the cursor by exactly the tables its walk took, which become branch
      tables, and records the mapping in the first free slot. */
  lemma MapCost(k: Kernel, cur: TcbId, id: FrameId, f: Context, w: Walk)
    requires k.pageTables.next <= MAX_KERNEL_PAGE_TABLES * PAGE_SIZE
    ensures var o, t := Map(k, cur, id, f, w), k.pageTables;
            o.status.Ok? ==>
              var m := DecodeMap(k, cur, id, f, w).value;
              var taken := TablesTaken(w, MaxNewTables(k.frames[id].size));
              && id in k.frames
              && o.k.pageTables == t.(next := t.next + taken * PAGE_SIZE,
                                      branches := t.branches + PagesFrom(t.base + t.next, taken))
              && o.k == k.(pageTables := o.k.pageTables,
                           frames := k.frames[id := k.frames[id].(
                             mappedAt := k.frames[id].mappedAt[m.slot := Some((m.vspace, f.Mr(2)))])])
  {
    hide DecodeMap;
    var d := DecodeMap(k, cur, id, f, w);
    if d.Success? {
      var max := MaxNewTables(k.frames[id].size);
      var taken := TablesTaken(w, max);
      SparesInARow(k.pageTables, max);
      PagesPrefix(k.pageTables.base + k.pageTables.next, taken, max);
      hide AllocSpares;
    }
  }

  lemma NewBranchesApart(t: PageTables, count: nat)
    requires t.base % PAGE_SIZE == 0 && t.next % PAGE_SIZE == 0
    requires BranchesApart(t.branches) && forall b | b in t.branches :: PageBelow(t, b)
    ensures var added := PagesFrom(t.base + t.next, count);
            var t' := t.(next := t.next + count * PAGE_SIZE, branches := t.branches + added);
            && (forall b | b in added :: PageBelow(t', b) && !PageBelow(t, b))
            && BranchesApart(t'.branches)
  {
    var ps := PagesFrom(t.base + t.next, count);
    forall i | 0 <= i < count
      ensures ps[i] % PAGE_SIZE == 0 && t.base + t.next <= ps[i] <= t.base + t.next + (count - 1) * PAGE_SIZE
    {
    }
    var bs := t.branches + ps;
    forall i, j | 0 <= i < j < |bs| ensures bs[i] != bs[j] {
      if j < |t.branches| {
        assert t.branches[i] != t.branches[j];
      } else if i < |t.branches| {
        assert t.branches[i] in t.branches;
      }
    }
  }

  lemma MapKeepsArena(k: Kernel, cur: TcbId, id: FrameId, f: Context, w: Walk)
    requires ArenaOk(k)
    ensures ArenaOk(Map(k, cur, id, f, w).k)
  {
    hide DecodeMap;
    var o := Map(k, cur, id, f, w);
    var d := DecodeMap(k, cur, id, f, w);
    if o.status.Ok? {
      MapCost(k, cur, id, f, w);
      hide Map;
      GrownArenaOk(k, o.k, TablesTaken(w, MaxNewTables(k.frames[id].size)));
    } else if d.Success? {
      SparesOnlyAdvance(k.pageTables, MaxNewTables(k.frames[id].size));
      hide AllocSpares;
      AdvancedArenaOk(k, o.k);
    }
  }

  lemma AdvancedArenaOk(k: Kernel, k': Kernel)
    requires ArenaOk(k) && k'.vspaces == k.vspaces
    requires k'.pageTables == k.pageTables.(next := k'.pageTables.next) && k.pageTables.next <= k'.pageTables.next
    requires k'.pageTables.next % PAGE_SIZE == 0 && k'.pageTables.next <= MAX_KERNEL_PAGE_TABLES * PAGE_SIZE
    ensures ArenaOk(k')
  {
  }

  lemma GrownArenaOk(k: Kernel, k': Kernel, taken: nat)
    requires ArenaOk(k) && k'.vspaces == k.vspaces
    requires var t := k.pageTables;
             k'.pageTables == t.(next := t.next + taken * PAGE_SIZE,
                                 branches := t.branches + PagesFrom(t.base + t.next, taken))
    requires k'.pageTables.next <= MAX_KERNEL_PAGE_TABLES * PAGE_SIZE
    ensures ArenaOk(k')
  {
    NewBranchesApart(k.pageTables, taken);
    hide PagesFrom;
  }

  // ------------------------------------------------------------------ every call

  lemma NewVSpaceKeepsArena(k: Kernel)
    requires ArenaOk(k)
    ensures var c := Admin.NewVSpace(k); c.Made? || c.NotMade? ==> ArenaOk(c.k)
  {
    hide Pool.AllocIndex;
    var page := AllocTable(k.pageTables);
    if page.Some? {
      AdvancedArenaOk(k, k.(pageTables := page.value.0));
      var i := Pool.AllocIndex(k.vspaces, MAX_VSPACES);
      if i.Some? { AddedRootArenaOk(k, page.value.0, page.value.1, i.value); }
    }
    hide ArenaOk;
  }

  lemma AddedRootArenaOk(k: Kernel, t: PageTables, root: Address, v: VSpaceId)
    requires ArenaOk(k) && AllocTable(k.pageTables) == Some((t, root))
    ensures ArenaOk(k.(pageTables := t, vspaces := k.vspaces[v := VSpace(root)]))
  {
    assert !PageBelow(k.pageTables, root);
  }

  lemma SameArena(k: Kernel, k': Kernel)
    requires ArenaOk(k) && k'.pageTables == k.pageTables && k'.vspaces == k.vspaces
    ensures ArenaOk(k')
  {
  }

  lemma OtherObjectArena(k: Kernel, u: UntypedId, t: ObjectType)
    requires u in k.untypeds && t != VSpaceType
    ensures var c := Admin.NewObject(k, u, t);
            c.Made? || c.NotMade? ==> c.k.pageTables == k.pageTables && c.k.vspaces == k.vspaces
  {
    hide Pool.AllocIndex;
    hide BumpUntyped;
    hide Admin.NewVSpace;
  }

  lemma RetypeKeepsArena(k: Kernel, cur: TcbId, f: Context)
    requires ArenaOk(k)
    ensures ArenaOk(Admin.UntypedRetype(k, cur, f.Mr(0), f).k)
  {
    hide LookupCap;
    hide ArenaOk;
    var d := Admin.DecodeRetype(k, cur, f.Mr(0), f);
    if d.Success? {
      var r := d.value;
      var c := Admin.NewObject(k, r.untyped, r.objectType);
      if r.objectType == VSpaceType {
        NewVSpaceKeepsArena(k);
        hide Admin.NewVSpace;
      } else {
        OtherObjectArena(k, r.untyped, r.objectType);
        hide Admin.NewObject;
        if c.Made? || c.NotMade? { SameArena(k, c.k); }
      }
      if c.Made? {
        SameArena(c.k, Admin.SpendBudget(SetSlot(c.k, r.cnode, r.dest, c.cap), r.untyped));
      }
    }
  }

  lemma FrameInvokeKeepsArena(k: Kernel, cur: TcbId, f: Context, w: Walk)
    requires ArenaOk(k)
    ensures ArenaOk(Invoke(k, cur, f.Mr(0), f, w).k)
  {
    hide Map;
    hide ArenaOk;
    hide LookupCap;
    var d := ResolveFrame(k, cur, f.Mr(0));
    if d.Success? {
      MapKeepsArena(k, cur, d.value, f, w);
      SameArena(k, Unmap(k, cur, d.value, f).k);
    }
  }

  lemma OthersKeepArena(k: Kernel, cur: TcbId, f: Context)
    ensures var k' := CNodes.Invoke(k, cur, f.Mr(0), f).k; k'.pageTables == k.pageTables && k'.vspaces == k.vspaces
    ensures var k' := Admin.Configure(k, cur, f.Mr(0), f).k; k'.pageTables == k.pageTables && k'.vspaces == k.vspaces
  {
    hide LookupCap;
    hide CNodes.Operate;
    hide Admin.DecodeConfigure;
    hide Admin.ApplyConfiguration;
  }

  lemma HandlerKeepsArena(k: Kernel, cur: TcbId, tr: Trap)
    requires ArenaOk(k) && Normalized(k) && Calm(k)
    ensures ArenaOk(Handle(k, cur, tr).k)
  {
    hide ArenaOk;
    if IsIpc(tr.frame.syscall) {
      IpcHandlerTidy(k, cur, tr);
      hide Handle;
      SameArena(k, Handle(k, cur, tr).k);
    } else {
      hide Admin.UntypedRetype;
      hide CNodes.Invoke;
      hide Admin.Configure;
      hide Invoke;
      if tr.frame.syscall == UNTYPED_RETYPE {
        RetypeKeepsArena(k, cur, tr.frame);
      } else if tr.frame.syscall == FRAME_INVOKE {
        FrameInvokeKeepsArena(k, cur, tr.frame, tr.walk);
      } else {
        OthersKeepArena(k, cur, tr.frame);
        SameArena(k, Handle(k, cur, tr).k);
      }
    }
  }

  /** In every run all VSpace roots and branch tables are distinct aligned pages below the cursor. */
  lemma {:induction false} RunKeepsArena(k: Kernel, trs: seq<Trap>)
    requires Inv(k) && ArenaOk(k)
    ensures ArenaOk(Run(k, trs))
    decreases |trs|
  {
    hide Handle;
    hide ArenaOk;
    if trs != [] {
      HandlerKeepsArena(k, k.current.value, trs[0]);
      StepKeepsInv(k, trs[0]);
      RunKeepsArena(Step(k, trs[0]), trs[1..]);
    }
  }

  // ------------------------------------------------------------- map, then unmap

  /** Trap `m` maps frame `id` into address space `v`, over branch tables that are there already. */
  predicate Maps(k: Kernel, m: Trap, id: FrameId, v: VSpaceId) {
    && k.current.Some? && m.frame.syscall == FRAME_INVOKE && m.frame.tag.labelId == LABEL_MAP
    && ResolveFrame(k, k.current.value, m.frame.Mr(0)) == Success(id)
    && DecodeMap(k, k.current.value, id, m.frame, m.walk).Success?
    && DecodeMap(k, k.current.value, id, m.frame, m.walk).value.vspace == v
    && m.walk.tables == 0
    && k.pageTables.next + MaxNewTables(k.frames[id].size) * PAGE_SIZE <= MAX_KERNEL_PAGE_TABLES * PAGE_SIZE
  }

  /** Trap `u` unmaps what trap `m` maps, through the same capabilities. */
  predicate UnmapsAgain(m: Trap, u: Trap) {
    && u.frame.syscall == FRAME_INVOKE && u.frame.tag.labelId == LABEL_UNMAP
    && u.frame.Mr(0) == m.frame.Mr(0) && u.frame.Mr(1) == m.frame.Mr(1)
  }

  lemma MappedKernel(k: Kernel, m: Trap, id: FrameId, v: VSpaceId)
    requires Maps(k, m, id, v)
    ensures id in k.frames && FreeMapping(k.frames[id].mappedAt).Some? && v in k.vspaces
    ensures ResolveFrame(k, k.current.value, m.frame.Mr(0)) == Success(id)
    ensures Admin.ResolveVSpace(k, k.current.value, m.frame.Mr(1)) == Success(v)
    ensures var slot := FreeMapping(k.frames[id].mappedAt).value;
            Step(k, m) == k.(frames := k.frames[id := k.frames[id].(
                               mappedAt := k.frames[id].mappedAt[slot := Some((v, m.frame.Mr(2)))])])
  {
    var cur := k.current.value;
    var d := DecodeMap(k, cur, id, m.frame, m.walk);
    hide LookupCap;
    assert d.value.slot == FreeMapping(k.frames[id].mappedAt).value;
    MapCost(k, cur, id, m.frame, m.walk);
    SparesInARow(k.pageTables, MaxNewTables(k.frames[id].size));
    assert Map(k, cur, id, m.frame, m.walk).status.Ok?;
    hide Map;
    hide DecodeMap;
    hide ResolveFrame;
    assert k.pageTables.branches + PagesFrom(k.pageTables.base + k.pageTables.next, 0) == k.pageTables.branches;
    assert Step(k, m) == Map(k, cur, id, m.frame, m.walk).k;
  }

  /** Clearing the first mapping into `v` after adding one gives back the old table exactly if the
      one added is the first. */
  lemma MappingsRestored(ms: Mappings, v: VSpaceId, vaddr: Word)
    requires FreeMapping(ms).Some?
    ensures var slot := FreeMapping(ms).value;
            var added := ms[slot := Some((v, vaddr))];
            && FindMapping(added, v).Some?
            && (added[FindMapping(added, v).value := None] == ms <==> !(ms[0].Some? && ms[0].value.0 == v))
  {
    var slot := FreeMapping(ms).value;
    var added := ms[slot := Some((v, vaddr))];
    var restored := added[FindMapping(added, v).value := None];
    if ms[0].Some? && ms[0].value.0 == v {
      assert restored[0] != ms[0];
    } else {
      assert restored == ms;
    }
  }

  lemma UnmappedKernel(k: Kernel, u: Trap, id: FrameId, v: VSpaceId)
    requires k.current.Some? && u.frame.syscall == FRAME_INVOKE && u.frame.tag.labelId == LABEL_UNMAP
    requires ResolveFrame(k, k.current.value, u.frame.Mr(0)) == Success(id)
    requires Admin.ResolveVSpace(k, k.current.value, u.frame.Mr(1)) == Success(v)
    requires id in k.frames && v in k.vspaces && FindMapping(k.frames[id].mappedAt, v).Some?
    ensures Step(k, u) == k.(frames := k.frames[id := k.frames[id].(
                               mappedAt := k.frames[id].mappedAt[FindMapping(k.frames[id].mappedAt, v).value := None])])
  {
    hide ResolveFrame;
    hide Admin.ResolveVSpace;
    hide FindMapping;
    assert Step(k, u) == Unmap(k, k.current.value, id, u.frame).k;
  }

  lemma SameLookups(k: Kernel, k': Kernel, cur: TcbId, p: CPtr, q: CPtr)
    requires k'.tcbs == k.tcbs && k'.cnodes == k.cnodes
    ensures ResolveFrame(k', cur, p) == ResolveFrame(k, cur, p)
    ensures Admin.ResolveVSpace(k', cur, q) == Admin.ResolveVSpace(k, cur, q)
  {
  }

  /** Mapping a frame over existing branch tables and unmapping it again costs nothing: it gives
      back the very same kernel, unless the frame's first mapping already was into that space. */
  lemma MapThenUnmap(k: Kernel, m: Trap, u: Trap, id: FrameId, v: VSpaceId)
    requires Maps(k, m, id, v) && UnmapsAgain(m, u)
    ensures id in k.frames
    ensures var first := k.frames[id].mappedAt[0];
            Step(Step(k, m), u) == k <==> !(first.Some? && first.value.0 == v)
  {
    MappedKernel(k, m, id, v);
    hide Maps;
    hide Dispatch;
    var k1 := Step(k, m);
    var ms := k.frames[id].mappedAt;
    MappingsRestored(ms, v, m.frame.Mr(2));
    SameLookups(k, k1, k.current.value, m.frame.Mr(0), m.frame.Mr(1));
    UnmappedKernel(k1, u, id, v);
    hide FindMapping;
    hide FreeMapping;
    var added := k1.frames[id].mappedAt;
    var ms' := added[FindMapping(added, v).value := None];
    assert Step(k1, u).frames == k.frames[id := k.frames[id].(mappedAt := ms')];
    if ms' == ms {
      assert Step(k1, u).frames == k.frames;
    } else {
      assert Step(k1, u).frames[id].mappedAt != ms;
    }
  }

  function Rounds(m: Trap, u: Trap, n: nat): seq<Trap> {
    if n == 0 then [] else [m, u] + Rounds(m, u, n - 1)
  }

  /** However often a program maps and unmaps, the arena does not drain. */
  lemma {:induction false} RoundsCostNothing(k: Kernel, m: Trap, u: Trap, id: FrameId, v: VSpaceId, n: nat)
    requires Maps(k, m, id, v) && UnmapsAgain(m, u)
    requires id in k.frames && !(k.frames[id].mappedAt[0].Some? && k.frames[id].mappedAt[0].value.0 == v)
    ensures Run(k, Rounds(m, u, n)) == k
    decreases n
  {
    hide Dispatch;
    hide Maps;
    if n > 0 {
      MapThenUnmap(k, m, u, id, v);
      var trs := Rounds(m, u, n);
      assert trs[0] == m && trs[1..][0] == u && trs[1..][1..] == Rounds(m, u, n - 1);
      RoundsCostNothing(k, m, u, id, v, n - 1);
      assert Run(k, trs) == Run(Step(k, m), trs[1..]);
      assert Run(Step(k, m), trs[1..]) == Run(Step(Step(k, m), u), trs[1..][1..]);
    }
  }

  // ------------------------------------------------------- runs that take no table

  /** The trap needs no page of the arena: it makes no object, and its page-table walk, if it has
      one, finds every branch table there already. */
  predicate TakesNoTable(tr: Trap) {
    tr.frame.syscall != UNTYPED_RETYPE && (tr.frame.syscall == FRAME_INVOKE ==> tr.walk.tables == 0)
  }

  /** Enough pages are left for the spares of any mapping. */
  predicate SparesLeft(t: PageTables) {
    t.next + 2 * PAGE_SIZE <= MAX_KERNEL_PAGE_TABLES * PAGE_SIZE
  }

  lemma MapTakesNothing(k: Kernel, cur: TcbId, id: FrameId, f: Context, w: Walk)
    requires SparesLeft(k.pageTables) && w.tables == 0
    ensures Map(k, cur, id, f, w).k.pageTables == k.pageTables
  {
    var d := DecodeMap(k, cur, id, f, w);
    hide DecodeMap;
    if d.Success? {
      SparesInARow(k.pageTables, MaxNewTables(k.frames[id].size));
      MapCost(k, cur, id, f, w);
      assert k.pageTables.branches + PagesFrom(k.pageTables.base + k.pageTables.next, 0) == k.pageTables.branches;
    }
    hide AllocSpares;
  }

  lemma FrameInvokeTakesNothing(k: Kernel, cur: TcbId, f: Context, w: Walk)
    requires SparesLeft(k.pageTables) && w.tables == 0
    ensures Invoke(k, cur, f.Mr(0), f, w).k.pageTables == k.pageTables
  {
    hide LookupCap;
    hide Map;
    var d := ResolveFrame(k, cur, f.Mr(0));
    if d.Success? { MapTakesNothing(k, cur, d.value, f, w); }
  }

  lemma StepTakesNothing(k: Kernel, tr: Trap)
    requires Inv(k) && SparesLeft(k.pageTables) && TakesNoTable(tr)
    ensures Step(k, tr).pageTables == k.pageTables
  {
    var cur := k.current.value;
    if IsIpc(tr.frame.syscall) {
      IpcHandlerTidy(k, cur, tr);
      hide Handle;
    } else {
      hide CNodes.Invoke;
      hide Admin.Configure;
      hide Invoke;
      if tr.frame.syscall == FRAME_INVOKE {
        FrameInvokeTakesNothing(k, cur, tr.frame, tr.walk);
      } else {
        OthersKeepArena(k, cur, tr.frame);
      }
    }
  }

  /** Over any run that makes no object and whose walks, for whatever frames, spaces and addresses,
      find their branch tables there, the arena is left exactly as it was: mapping and unmapping,
      in any order and mixed with any other calls, does not drain it. */
  lemma {:induction false} MappingRunsCostNothing(k: Kernel, trs: seq<Trap>)
    requires Inv(k) && SparesLeft(k.pageTables)
    requires forall i :: 0 <= i < |trs| ==> TakesNoTable(trs[i])
    ensures Run(k, trs).pageTables == k.pageTables
    decreases |trs|
  {
    hide Dispatch;
    hide TakesNoTable;
    if trs != [] {
      StepTakesNothing(k, trs[0]);
      StepKeepsInv(k, trs[0]);
      MappingRunsCostNothing(Step(k, trs[0]), trs[1..]);
    }
  }
}
