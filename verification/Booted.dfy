/** The premises of the theorems about runs hold of a booted kernel: they hold of the kernel that
    boot code seeds, each administrative call keeps them, and so does starting the first thread. */
module Booted {
  import opened Limits
  import opened Words
  import opened Wrappers
  import opened Capabilities
  import opened Objects
  import opened State
  import opened Invariants
  import opened Effects
  import opened Syscalls
  import opened SlotEffects
  import opened Upkeep
  import opened Authority
  import opened Boot
  import Admin
  import CallChains
  import Arena
  import Memory

  /** What the theorems about calls, authority, memory and page tables assume of their first kernel,
      besides the invariant. */
  ghost predicate Sound(k: Kernel, homes: Memory.Homes) {
    && CallChains.Acyclic(k)
    && NothingDangles(k) && OnlyGrantableInFlight(k)
    && Arena.ArenaOk(k) && Memory.MemoryOk(k, homes)
  }

  // ---------------------------------------------------------- administrative calls

  lemma BootNames(k: Kernel, cur: TcbId, tr: Trap)
    requires WellFormed(k) && IsAdministrative(tr.frame.syscall) && NothingDangles(k)
    ensures NamesLive(Handle(k, cur, tr).k)
  {
    hide Handle;
    hide Placed;
    hide Linked;
    hide PoolsBounded;
    hide Does;
    hide Writes;
    hide RootsLive;
    hide MappingsLive;
    BootCallMoves(k, cur, tr);
    HandlerSlots(k, cur, tr);
    HandlerKeepsObjects(k, cur, tr);
    var o := Handle(k, cur, tr);
    var y :| Does(y, k, tr.frame, o.k, o.frame) && Causes(tr.frame.syscall, y);
    var x :| Writes(x, cur, tr.frame, k, o.k);
    forall c | Holds(o.k, c) && Names(c).Some? ensures Allocated(o.k, Names(c).value) {
      if n, s :| InSlot(o.k, n, s, c) {
        WriteDerives(x, cur, tr.frame, k, o.k, n, s, c);
      } else {
        var t :| InFlight(o.k, t, c);
        MoveInFlight(y, k, tr.frame, o.k, o.frame, t, c);
        assert Holds(k, c);
      }
    }
  }

  lemma BootGrantable(k: Kernel, cur: TcbId, tr: Trap)
    requires WellFormed(k) && IsAdministrative(tr.frame.syscall) && OnlyGrantableInFlight(k)
    ensures OnlyGrantableInFlight(Handle(k, cur, tr).k)
  {
    BootCallMoves(k, cur, tr);
    hide Handle;
    hide WellFormed;
    var o := Handle(k, cur, tr);
    var y :| Does(y, k, tr.frame, o.k, o.frame) && Causes(tr.frame.syscall, y);
    forall t, c | InFlight(o.k, t, c) ensures Grant in c.Rights() {
      MoveInFlight(y, k, tr.frame, o.k, o.frame, t, c);
    }
  }

  lemma BootAcyclic(k: Kernel, cur: TcbId, tr: Trap)
    requires WellFormed(k) && IsAdministrative(tr.frame.syscall) && CallChains.Acyclic(k)
    ensures CallChains.Acyclic(Handle(k, cur, tr).k)
  {
    BootCallMoves(k, cur, tr);
    BootCallKeepsWellFormed(k, cur, tr);
    WellFormedParts(k);
    WellFormedParts(Handle(k, cur, tr).k);
    hide Handle;
    hide WellFormed;
    var o := Handle(k, cur, tr);
    var y :| Does(y, k, tr.frame, o.k, o.frame) && Causes(tr.frame.syscall, y);
    CallChains.MoveKeepsAcyclic(y, k, tr.frame, o.k, o.frame);
  }

  lemma BootRoots(k: Kernel, cur: TcbId, tr: Trap, t: TcbId)
    requires WellFormed(k) && IsAdministrative(tr.frame.syscall) && NothingDangles(k)
    requires t in Handle(k, cur, tr).k.tcbs
    ensures RootsLive(Handle(k, cur, tr).k, Handle(k, cur, tr).k.tcbs[t])
  {
    hide Placed;
    hide Linked;
    hide NamesLive;
    hide Handle;
    hide Does;
    hide RootsLive;
    hide KeepsObjects;
    hide KeepsVSpaces;
    BootCallMoves(k, cur, tr);
    HandlerKeepsObjects(k, cur, tr);
    HandlerKeepsVSpaces(k, cur, tr);
    var o := Handle(k, cur, tr);
    var y :| Does(y, k, tr.frame, o.k, o.frame) && Causes(tr.frame.syscall, y);
    if tr.frame.syscall == TCB_CONFIGURE {
      BootConfigure(k, cur, tr);
      ConfigureKeepsRoots(k, cur, tr.frame, t);
    } else {
      MoveKeepsRoots(y, k, tr.frame, o.k, o.frame, t);
      RootsComeFrom(k, o.k, t);
    }
    RootsStayLive(k, o.k, o.k.tcbs[t]);
  }

  lemma BootConfigure(k: Kernel, cur: TcbId, tr: Trap)
    requires tr.frame.syscall == TCB_CONFIGURE
    ensures Handle(k, cur, tr) == Admin.Configure(k, cur, tr.frame.Mr(0), tr.frame)
  {
  }

  lemma BootNothingDangles(k: Kernel, cur: TcbId, tr: Trap)
    requires WellFormed(k) && IsAdministrative(tr.frame.syscall) && NothingDangles(k)
    ensures NothingDangles(Handle(k, cur, tr).k)
  {
    hide Handle;
    BootNames(k, cur, tr);
    HandlerKeepsObjects(k, cur, tr);
    var k' := Handle(k, cur, tr).k;
    forall t | t in k'.tcbs ensures RootsLive(k', k'.tcbs[t]) {
      BootRoots(k, cur, tr, t);
    }
    forall i | i in k'.frames ensures MappingsLive(k', k'.frames[i]) {
      HandlerKeepsMappings(k, cur, tr, i);
      MappingsStayLive(k, k', k'.frames[i]);
    }
  }

  lemma BootCallKeepsSound(k: Kernel, homes: Memory.Homes, cur: TcbId, tr: Trap)
    requires WellFormed(k) && IsAdministrative(tr.frame.syscall) && Sound(k, homes)
    ensures Sound(Handle(k, cur, tr).k, homes)
  {
    hide Handle;
    BootAcyclic(k, cur, tr);
    BootNothingDangles(k, cur, tr);
    BootGrantable(k, cur, tr);
    Arena.HandlerKeepsArena(k, cur, tr);
    Memory.HandlerKeepsMemory(k, homes, cur, tr);
  }

  lemma {:induction false} BootRunKeepsSound(k: Kernel, homes: Memory.Homes, cur: TcbId, trs: seq<Trap>)
    requires WellFormed(k) && Sound(k, homes)
    requires forall i :: 0 <= i < |trs| ==> IsAdministrative(trs[i].frame.syscall)
    ensures Sound(BootRun(k, cur, trs), homes)
    decreases |trs|
  {
    hide Handle;
    hide WellFormed;
    hide Sound;
    if trs != [] {
      BootCallKeepsWellFormed(k, cur, trs[0]);
      BootCallKeepsSound(k, homes, cur, trs[0]);
      BootRunKeepsSound(Handle(k, cur, trs[0]).k, homes, cur, trs[1..]);
    }
  }

  // --------------------------------------------------------------- the first thread

  lemma EnteredKernel(k: Kernel, t: TcbId)
    ensures var k' := EnterFirstThread(k, t).0;
            && k' == k.(tcbs := k'.tcbs, ready := k'.ready, current := k'.current)
            && k'.tcbs == if t in k.tcbs then k.tcbs[t := k.tcbs[t].(state := Running)] else k.tcbs
  {
  }

  lemma EnteringKeepsNames(k: Kernel, t: TcbId)
    requires NothingDangles(k)
    ensures NothingDangles(EnterFirstThread(k, t).0)
  {
    EnteredKernel(k, t);
    hide EnterFirstThread;
    var k' := EnterFirstThread(k, t).0;
    forall c | Holds(k', c) && Names(c).Some? ensures Allocated(k', Names(c).value) {
      if n, s :| InSlot(k', n, s, c) {
        assert InSlot(k, n, s, c);
      } else {
        var u :| InFlight(k', u, c);
        assert InFlight(k, u, c);
      }
      assert Holds(k, c);
      assert Allocated(k, Names(c).value);
    }
    forall u | u in k'.tcbs ensures RootsLive(k', k'.tcbs[u]) {
      assert RootsLive(k, k.tcbs[u]);
    }
  }

  lemma EnteringKeepsRest(k: Kernel, homes: Memory.Homes, t: TcbId)
    requires Sound(k, homes)
    ensures var k' := EnterFirstThread(k, t).0;
            && CallChains.Acyclic(k') && OnlyGrantableInFlight(k')
            && Arena.ArenaOk(k') && Memory.MemoryOk(k', homes)
  {
    EnteredKernel(k, t);
    hide EnterFirstThread;
    hide NothingDangles;
    var k' := EnterFirstThread(k, t).0;
    Arena.SameArena(k, k');
    Memory.SameMemoryKeeps(k, k', homes);
    hide Arena.ArenaOk;
    hide Memory.MemoryOk;
    forall p | CallChains.Chain(k', p) && |p| >= 2 ensures p[0] != p[|p| - 1] {
      forall i | 0 <= i < |p| - 1 ensures Owes(k, p[i], p[i + 1]) {
        assert Owes(k', p[i], p[i + 1]);
      }
      assert CallChains.Chain(k, p);
    }
    forall u, c | InFlight(k', u, c) ensures Grant in c.Rights() {
      assert InFlight(k, u, c);
    }
  }

  // ------------------------------------------------------------------------ the seed

  /** What boot code puts in place by hand: a thread with a CSpace that holds a capability to the
      CSpace itself and one to an Untyped, which owns a range of memory. */
  function Seed(arena: Address, budget: nat, range: Range): Kernel {
    Kernel(map[0 := EmptyCNode()[1 := CNodeCap(0)][2 := UntypedCap(0, ALL_RIGHTS)]],
           map[0 := NewTcb().(cspace := Some(0))], map[], map[], map[0 := Untyped(budget, Some(range))],
           map[], map[], map[], PageTables(arena, 0, []), [], None)
  }

  lemma SeedIsWellFormed(arena: Address, budget: nat, range: Range)
    requires range.next <= range.end && range.end + MEGAPAGE_SIZE < WORD_LIMIT
    ensures WellFormed(Seed(arena, budget, range))
  {
    var k := Seed(arena, budget, range);
    assert forall p: Place :: QueueAt(k, p) == [];
    assert Linked(k) by {
      forall h, t | Owes(k, h, t) ensures false {
      }
    }
    assert |k.tcbs| == 1 && |k.cnodes| == 1 && |k.untypeds| == 1;
  }

  lemma SeedIsSound(arena: Address, budget: nat, range: Range)
    requires arena % PAGE_SIZE == 0 && range.next <= range.end
    ensures Sound(Seed(arena, budget, range), map[0 := range])
  {
    var k := Seed(arena, budget, range);
    forall h, t ensures !Owes(k, h, t) {
    }
    NoDebtsNoCycle(k);
    SeedNames(arena, budget, range);
  }

  lemma NoDebtsNoCycle(k: Kernel)
    requires forall h, t :: !Owes(k, h, t)
    ensures CallChains.Acyclic(k)
  {
    forall p | |p| >= 2 ensures !CallChains.Chain(k, p) {
      if CallChains.Chain(k, p) {
        ChainStart(k, p);
        assert false;
      }
    }
  }

  lemma ChainStart(k: Kernel, p: seq<TcbId>)
    requires CallChains.Chain(k, p) && |p| >= 2
    ensures Owes(k, p[0], p[1])
  {
    assert Owes(k, p[0], p[0 + 1]);
  }

  lemma SeedNames(arena: Address, budget: nat, range: Range)
    ensures NothingDangles(Seed(arena, budget, range)) && OnlyGrantableInFlight(Seed(arena, budget, range))
  {
    var k := Seed(arena, budget, range);
    forall t, c ensures !InFlight(k, t, c) {
    }
    forall n, s, c | InSlot(k, n, s, c) ensures Names(c).Some? && Allocated(k, Names(c).value) {
    }
  }

  /** From the seed, whatever administrative calls boot code makes and whichever thread it starts,
      every run satisfies the premises of all theorems about runs. */
  lemma BootedRunsAreSound(arena: Address, budget: nat, range: Range, cur: TcbId, calls: seq<Trap>, t: TcbId,
                           trs: seq<Trap>)
    requires arena % PAGE_SIZE == 0 && range.next <= range.end && range.end + MEGAPAGE_SIZE < WORD_LIMIT
    requires forall i :: 0 <= i < |calls| ==> IsAdministrative(calls[i].frame.syscall)
    requires MayEnter(BootRun(Seed(arena, budget, range), cur, calls), t)
    ensures var k := Run(EnterFirstThread(BootRun(Seed(arena, budget, range), cur, calls), t).0, trs);
            Inv(k) && Sound(k, map[0 := range])
  {
    hide Handle;
    hide EnterFirstThread;
    hide WellFormed;
    hide Inv;
    hide Run;
    var seed, homes := Seed(arena, budget, range), map[0 := range];
    SeedIsWellFormed(arena, budget, range);
    SeedIsSound(arena, budget, range);
    BootRunKeepsWellFormed(seed, cur, calls);
    BootRunKeepsSound(seed, homes, cur, calls);
    var k0 := BootRun(seed, cur, calls);
    hide Seed;
    hide BootRun;
    var k1 := EnterFirstThread(k0, t).0;
    FirstThreadEstablishesInv(k0, t);
    EnteringKeepsNames(k0, t);
    EnteringKeepsRest(k0, homes, t);
    RunKeepsInv(k1, trs);
    CallChains.RunKeepsAcyclic(k1, trs);
    RunNothingDangles(k1, trs);
    RunKeepsGrantable(k1, trs);
    Arena.RunKeepsArena(k1, trs);
    Memory.RunKeepsMemory(k1, trs, homes);
  }
}
