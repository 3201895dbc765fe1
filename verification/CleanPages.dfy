/** The arena hands out zeroed pages (src/object.rs) because it never hands out a page that has been
    a page table: what the page-table walk has written to stays in use. */
module CleanPages {
  import opened Capabilities
  import opened Objects
  import opened State
  import opened Invariants
  import opened Syscalls
  import opened Upkeep
  import opened Frames
  import opened Arena
  import Admin
  import Authority
  import CNodes
  import Pool

  /** The page holds a page table: the root of an address space or a branch table. Nothing writes to
      other pages of the arena. */
  ghost predicate HoldsTable(k: Kernel, a: Address) {
    (exists v :: v in k.vspaces && k.vspaces[v].root == a) || a in k.pageTables.branches
  }

  /** Branch tables are only added. */
  predicate KeepsBranches(k: Kernel, k': Kernel) {
    k.pageTables.branches <= k'.pageTables.branches
  }

  lemma {:induction false} SparesKeepBranches(t: PageTables, count: nat)
    ensures AllocSpares(t, count).0.branches == t.branches
    decreases count
  {
    if count > 0 && AllocTable(t).Some? {
      SparesKeepBranches(AllocTable(t).value.0, count - 1);
    }
  }

  lemma MapKeepsBranches(k: Kernel, cur: TcbId, id: FrameId, f: Context, w: Walk)
    ensures KeepsBranches(k, Map(k, cur, id, f, w).k)
  {
    hide DecodeMap;
    hide AllocSpares;
    var d := DecodeMap(k, cur, id, f, w);
    if d.Success? {
      SparesKeepBranches(k.pageTables, MaxNewTables(k.frames[id].size));
    }
  }

  lemma FrameInvokeKeepsBranches(k: Kernel, cur: TcbId, f: Context, w: Walk)
    ensures KeepsBranches(k, Invoke(k, cur, f.Mr(0), f, w).k)
  {
    hide Map;
    hide ResolveFrame;
    var d := ResolveFrame(k, cur, f.Mr(0));
    if d.Success? { MapKeepsBranches(k, cur, d.value, f, w); }
  }

  lemma NewObjectKeepsBranches(k: Kernel, u: UntypedId, t: ObjectType)
    requires u in k.untypeds
    ensures var c := Admin.NewObject(k, u, t); c.Made? || c.NotMade? ==> KeepsBranches(k, c.k)
  {
    hide Pool.AllocIndex;
    if t != VSpaceType {
      OtherObjectArena(k, u, t);
      hide Admin.NewObject;
    }
  }

  lemma RetypeKeepsBranches(k: Kernel, cur: TcbId, f: Context)
    ensures KeepsBranches(k, Admin.UntypedRetype(k, cur, f.Mr(0), f).k)
  {
    hide LookupCap;
    var d := Admin.DecodeRetype(k, cur, f.Mr(0), f);
    if d.Success? {
      NewObjectKeepsBranches(k, d.value.untyped, d.value.objectType);
      hide Admin.NewObject;
    }
  }

  lemma StepKeepsBranches(k: Kernel, tr: Trap)
    requires Inv(k)
    ensures KeepsBranches(k, Step(k, tr))
  {
    hide Placed;
    hide Linked;
    hide PoolsBounded;
    hide BumpsBounded;
    var cur := k.current.value;
    if IsIpc(tr.frame.syscall) {
      IpcHandlerTidy(k, cur, tr);
      hide Handle;
    } else {
      hide Admin.UntypedRetype;
      hide CNodes.Invoke;
      hide Admin.Configure;
      hide Invoke;
      RetypeKeepsBranches(k, cur, tr.frame);
      FrameInvokeKeepsBranches(k, cur, tr.frame, tr.walk);
      OthersKeepArena(k, cur, tr.frame);
    }
  }

  lemma StepKeepsTables(k: Kernel, tr: Trap, a: Address)
    requires Inv(k) && HoldsTable(k, a)
    ensures HoldsTable(Step(k, tr), a)
  {
    hide Dispatch;
    StepKeepsBranches(k, tr);
    Authority.StepKeepsVSpaces(k, tr);
    if v :| v in k.vspaces && k.vspaces[v].root == a {
      assert v in Step(k, tr).vspaces && Step(k, tr).vspaces[v].root == a;
    }
  }

  lemma {:induction false} RunKeepsTables(k: Kernel, trs: seq<Trap>, a: Address)
    requires Inv(k) && HoldsTable(k, a)
    ensures HoldsTable(Run(k, trs), a)
    decreases |trs|
  {
    hide Dispatch;
    hide HoldsTable;
    if trs != [] {
      StepKeepsTables(k, trs[0], a);
      StepKeepsInv(k, trs[0]);
      RunKeepsTables(Step(k, trs[0]), trs[1..], a);
    }
  }

  /** The page the arena hands out after any run has held no page table at any point of it, so it is
      still zero. */
  lemma AllocatedPageIsClean(k: Kernel, trs: seq<Trap>, i: nat)
    requires Inv(k) && ArenaOk(k) && i <= |trs|
    ensures var next := AllocTable(Run(k, trs).pageTables);
            next.Some? ==> !HoldsTable(Run(k, trs[..i]), next.value.1)
  {
    hide Dispatch;
    hide ArenaOk;
    hide HoldsTable;
    var k1, next := Run(k, trs[..i]), AllocTable(Run(k, trs).pageTables);
    RunSplits(k, trs, i);
    RunKeepsInv(k, trs[..i]);
    RunKeepsArena(k, trs);
    if next.Some? {
      CursorIsFree(Run(k, trs), next.value.1);
      if HoldsTable(k1, next.value.1) { RunKeepsTables(k1, trs[i..], next.value.1); }
    }
  }

  lemma CursorIsFree(k: Kernel, a: Address)
    requires ArenaOk(k) && a == k.pageTables.base + k.pageTables.next
    ensures !HoldsTable(k, a)
  {
    assert !PageBelow(k.pageTables, a);
  }

  lemma {:induction false} RunSplits(k: Kernel, trs: seq<Trap>, i: nat)
    requires i <= |trs|
    ensures Run(k, trs) == Run(Run(k, trs[..i]), trs[i..])
    decreases i
  {
    hide Dispatch;
    if i > 0 {
      assert trs[..i][1..] == trs[1..][..i - 1];
      RunSplits(Step(k, trs[0]), trs[1..], i - 1);
    }
  }
}
