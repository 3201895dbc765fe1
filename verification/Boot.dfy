/** From boot to the first thread: boot code calls the administrative handlers while no thread
    runs, then `enter_first_thread` establishes the invariant that every trap keeps. */
module Boot {
  import opened Words
  import opened Wrappers
  import opened Capabilities
  import opened Objects
  import opened State
  import opened Queue
  import opened Invariants
  import opened Effects
  import opened Syscalls
  import opened AdminEffects
  import opened Placement
  import opened Upkeep
  import Admin
  import CNodes
  import Frames

  predicate IsAdministrative(n: Word) {
    n == CNODE_INVOKE || n == UNTYPED_RETYPE || n == TCB_CONFIGURE || n == FRAME_INVOKE
  }

  // ---------------------------------------------------------------- before the first thread

  /** A handler called on behalf of thread `cur`, which need not be running. */
  lemma BootCallKeepsWellFormed(k: Kernel, cur: TcbId, tr: Trap)
    requires WellFormed(k) && IsAdministrative(tr.frame.syscall)
    ensures var o := Handle(k, cur, tr);
            o.status != Panic && WellFormed(o.k) && o.k.current == k.current
  {
    BootCallMoves(k, cur, tr);
    WellFormedParts(k);
    hide Handle;
    hide WellFormed;
    HandlerTidy(k, cur, tr);
    var o := Handle(k, cur, tr);
    BootMoveKeepsThreads(k, tr.frame, o.k, o.frame);
    WellFormedParts(o.k);
  }

  lemma BootMoveKeepsThreads(k: Kernel, f: Context, k': Kernel, f': Context)
    requires ThreadsOk(k) && Moves(f.syscall, k, f, k', f') && IsAdministrative(f.syscall)
    ensures ThreadsOk(k') && k'.current == k.current
  {
    var x :| Does(x, k, f, k', f') && Causes(f.syscall, x);
    MoveKeepsThreads(x, k, f, k', f');
    AdministrativeEffect(x, k, f, k', f');
  }

  lemma WellFormedParts(k: Kernel)
    ensures WellFormed(k) <==> ThreadsOk(k) && Tidy(k)
  {
  }

  lemma AdministrativeEffect(x: Effect, k: Kernel, f: Context, k': Kernel, f': Context)
    requires Does(x, k, f, k', f') && Causes(f.syscall, x) && IsAdministrative(f.syscall)
    ensures k'.current == k.current
  {
  }

  lemma BootCallMoves(k: Kernel, cur: TcbId, tr: Trap)
    requires WellFormed(k) && IsAdministrative(tr.frame.syscall)
    ensures var o := Handle(k, cur, tr);
            o.status != Panic && Moves(tr.frame.syscall, k, tr.frame, o.k, o.frame)
  {
    hide CNodes.Invoke;
    hide Admin.UntypedRetype;
    hide Admin.Configure;
    hide Frames.Invoke;
    hide Does;
    var f := tr.frame;
    if f.syscall == CNODE_INVOKE {
      CNodeInvokeEffect(k, cur, f.Mr(0), f);
    } else if f.syscall == UNTYPED_RETYPE {
      RetypeEffect(k, cur, f.Mr(0), f);
    } else if f.syscall == TCB_CONFIGURE {
      ConfigureEffect(k, cur, f.Mr(0), f);
    } else {
      FrameInvokeEffect(k, cur, f.Mr(0), f, tr.walk);
    }
    var o := Handle(k, cur, tr);
    if o.status.Err? {
      assert Does(Quiet, k, f, o.k, o.frame);
      assert Causes(f.syscall, Quiet);
    }
  }

  /** The kernel after a sequence of handler calls by boot code for thread `cur`. */
  function BootRun(k: Kernel, cur: TcbId, trs: seq<Trap>): Kernel
    decreases |trs|
  {
    if trs == [] then k else BootRun(Handle(k, cur, trs[0]).k, cur, trs[1..])
  }

  lemma {:induction false} BootRunKeepsWellFormed(k: Kernel, cur: TcbId, trs: seq<Trap>)
    requires WellFormed(k) && forall i :: 0 <= i < |trs| ==> IsAdministrative(trs[i].frame.syscall)
    ensures WellFormed(BootRun(k, cur, trs)) && BootRun(k, cur, trs).current == k.current
    decreases |trs|
  {
    hide Handle;
    hide WellFormed;
    if trs != [] {
      BootCallKeepsWellFormed(k, cur, trs[0]);
      BootRunKeepsWellFormed(Handle(k, cur, trs[0]).k, cur, trs[1..]);
    }
  }

  /** The kernel before anything is in it. */
  function EmptyKernel(arena: Address): Kernel {
    Kernel(map[], map[], map[], map[], map[], map[], map[], map[], PageTables(arena, 0, []), [], None)
  }

  lemma EmptyIsWellFormed(arena: Address)
    ensures WellFormed(EmptyKernel(arena)) && EmptyKernel(arena).current == None
  {
    var k := EmptyKernel(arena);
    assert forall p: Place :: QueueAt(k, p) == [];
    forall h, t | Owes(k, h, t) ensures false {
    }
  }

  // ------------------------------------------------------------------ the first thread

  lemma NoDupCons(x: TcbId, q: seq<TcbId>)
    requires NoDup(q) && x !in q
    ensures NoDup([x] + q)
  {
  }

  lemma {:induction false} RemoveFirstOfMany(q: seq<TcbId>, t: TcbId)
    requires NoDup(q)
    ensures NoDup(RemoveFirst(q, t))
    ensures forall x :: x in RemoveFirst(q, t) <==> x in q && x != t
    decreases |q|
  {
    if q != [] {
      NoDupPop(q);
      RemoveFirstOfMany(q[1..], t);
      assert q == [q[0]] + q[1..];
      if q[0] != t {
        NoDupCons(q[0], RemoveFirst(q[1..], t));
        assert forall x :: x in RemoveFirst(q, t) <==> x == q[0] || x in RemoveFirst(q[1..], t);
      }
    }
  }

  lemma FirstThreadQueues(k: Kernel, t: TcbId)
    requires Placed(k)
    ensures var k' := EnterFirstThread(k, t).0;
            && (forall p: Place {:trigger QueueAt(k', p)} :: p != ReadyQueue ==> QueueAt(k', p) == QueueAt(k, p))
            && QueueAt(k', ReadyQueue) == RemoveFirst(k.ready, t)
            && NoDup(QueueAt(k', ReadyQueue))
            && (forall x :: x in QueueAt(k', ReadyQueue) <==> x in QueueAt(k, ReadyQueue) && x != t)
  {
    assert k.ready == QueueAt(k, ReadyQueue);
    RemoveFirstOfMany(k.ready, t);
  }

  /** A thread that may be entered: it is in no queue but the ready queue, and awaits no reply. */
  ghost predicate MayEnter(k: Kernel, t: TcbId) {
    && t in k.tcbs
    && (PlaceOf(k.tcbs[t].state).None? || PlaceOf(k.tcbs[t].state) == Some(ReadyQueue))
    && forall h :: !Owes(k, h, t)
  }

  lemma EnteredThreadsOk(k: Kernel, t: TcbId)
    requires ThreadsOk(k) && k.current == None && MayEnter(k, t)
    ensures ThreadsOk(EnterFirstThread(k, t).0)
  {
    var k' := EnterFirstThread(k, t).0;
    FirstThreadQueues(k, t);
    assert k'.tcbs == k.tcbs[t := k.tcbs[t].(state := Running)] && k'.current == Some(t);
    hide EnterFirstThread;
    forall p: Place, u: TcbId
      ensures u in QueueAt(k', p) <==> u in k'.tcbs && PlaceOf(k'.tcbs[u].state) == Some(p)
    {
      assert u in QueueAt(k, p) <==> u in k.tcbs && PlaceOf(k.tcbs[u].state) == Some(p);
    }
    forall h, u | Owes(k', h, u) ensures Owes(k, h, u) && u != t {
      assert Owes(k, h, u);
    }
  }

  lemma EnteredTidy(k: Kernel, t: TcbId)
    requires Tidy(k) && t in k.tcbs
    ensures Tidy(EnterFirstThread(k, t).0)
  {
    hide RemoveFirst;
    SameKeysSameSize(k.tcbs, EnterFirstThread(k, t).0.tcbs);
  }

  lemma StillQueued(k: Kernel, t: TcbId, p: Place)
    requires Placed(k) && t in k.tcbs && PlaceOf(k.tcbs[t].state) == Some(p) && p != ReadyQueue
    ensures t in QueueAt(EnterFirstThread(k, t).0, p)
  {
    assert t in QueueAt(k, p);
    FirstThreadQueues(k, t);
  }

  lemma EnteredOnlyIf(k: Kernel, t: TcbId)
    requires ThreadsOk(k) && k.current == None && ThreadsOk(EnterFirstThread(k, t).0)
    ensures MayEnter(k, t)
  {
    var k' := EnterFirstThread(k, t).0;
    FirstThreadQueues(k, t);
    assert t in k'.tcbs;
    var p := PlaceOf(k.tcbs[t].state);
    if p.Some? && p.value != ReadyQueue {
      StillQueued(k, t, p.value);
      assert false;
    }
    forall h ensures !Owes(k, h, t) {
      if Owes(k, h, t) { assert Owes(k', h, t); }
    }
  }

  /** Starting the first thread establishes the running invariant exactly if the thread waits
      nowhere; being in the ready queue already does no harm. */
  lemma FirstThreadEstablishesInv(k: Kernel, t: TcbId)
    requires WellFormed(k) && k.current == None
    ensures Inv(EnterFirstThread(k, t).0) <==> MayEnter(k, t)
  {
    hide EnterFirstThread;
    var k' := EnterFirstThread(k, t).0;
    WellFormedParts(k);
    WellFormedParts(k');
    hide WellFormed;
    hide ThreadsOk;
    hide Tidy;
    assert k'.current == Some(t) by { EnteredIsCurrent(k, t); }
    if MayEnter(k, t) {
      EnteredThreadsOk(k, t);
      EnteredTidy(k, t);
    } else if ThreadsOk(k') {
      EnteredOnlyIf(k, t);
    }
  }

  lemma EnteredIsCurrent(k: Kernel, t: TcbId)
    ensures EnterFirstThread(k, t).0.current == Some(t)
    ensures t in k.tcbs ==> EnterFirstThread(k, t).1 == k.tcbs[t].context
  {
  }

  /** The hart is never stranded: whatever administrative calls boot code makes first, and whatever
      the threads do afterwards, there is always a running thread, and it is in order. */
  lemma NeverStranded(k: Kernel, cur: TcbId, calls: seq<Trap>, t: TcbId, trs: seq<Trap>)
    requires WellFormed(k) && k.current == None
    requires forall i :: 0 <= i < |calls| ==> IsAdministrative(calls[i].frame.syscall)
    requires MayEnter(BootRun(k, cur, calls), t)
    ensures var k' := Run(EnterFirstThread(BootRun(k, cur, calls), t).0, trs);
            Inv(k') && k'.current.Some? && k'.current.value in k'.tcbs && k'.tcbs[k'.current.value].state == Running
  {
    hide Handle;
    hide EnterFirstThread;
    BootRunKeepsWellFormed(k, cur, calls);
    FirstThreadEstablishesInv(BootRun(k, cur, calls), t);
    RunKeepsInv(EnterFirstThread(BootRun(k, cur, calls), t).0, trs);
  }
}
