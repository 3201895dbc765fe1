/** A failed call changes nothing but the caller's `mr0` and error flag, except on three paths
    that keep memory they can no longer hand out. */
module Failure {
  import opened Limits
  import opened Words
  import opened Wrappers
  import opened Capabilities
  import opened Objects
  import opened State
  import opened Invariants
  import opened Syscalls
  import opened AdminEffects
  import Ipc
  import IpcEffects
  import Pool
  import Admin
  import CNodes
  import Frames

  // ------------------------------------------------------------------ the leaks

  /** A page is left, but no room for the address space it would be the root of. */
  predicate LeaksRoot(k: Kernel, r: Admin.Retyping) {
    r.objectType == VSpaceType && AllocTable(k.pageTables).Some? && |k.vspaces| == MAX_VSPACES
  }

  /** Memory is left, but no room for the frame. */
  predicate LeaksRange(k: Kernel, r: Admin.Retyping) {
    && (r.objectType == FrameSmallType || r.objectType == FrameMegaType)
    && r.untyped in k.untypeds && |k.frames| == MAX_FRAMES
    && var size := if r.objectType == FrameSmallType then Small else Mega;
       BumpUntyped(k.untypeds[r.untyped], size.Bytes(), size.Bytes()).Bumped?
  }

  /** A page mapping wants two spare pages, and exactly one is left. */
  predicate LeaksSpare(k: Kernel, cur: TcbId, id: FrameId, f: Context, w: Frames.Walk) {
    && f.tag.labelId == Frames.LABEL_MAP
    && Frames.DecodeMap(k, cur, id, f, w).Success?
    && k.frames[id].size == Small
    && AllocTable(k.pageTables).Some? && AllocTable(AllocTable(k.pageTables).value.0).None?
  }

  /** The failing calls that spend memory all the same. */
  predicate Leaks(k: Kernel, cur: TcbId, tr: Trap) {
    var f := tr.frame;
    if f.syscall == UNTYPED_RETYPE then
      var d := Admin.DecodeRetype(k, cur, f.Mr(0), f);
      d.Success? && (LeaksRoot(k, d.value) || LeaksRange(k, d.value))
    else if f.syscall == FRAME_INVOKE then
      var d := Frames.ResolveFrame(k, cur, f.Mr(0));
      d.Success? && LeaksSpare(k, cur, d.value, f, tr.walk)
    else
      false
  }

  /** Only the cursors of the memory allocators differ. */
  predicate OnlyCursors(k: Kernel, k': Kernel) {
    k' == k.(untypeds := k'.untypeds, pageTables := k'.pageTables)
  }

  /** A failure that changes the kernel exactly if it leaks, and then only a cursor. */
  ghost predicate CleanUnless(leaks: bool, k: Kernel, o: Outcome) {
    o.status.Err? ==> OnlyCursors(k, o.k) && (o.k == k <==> !leaks)
  }

  // ------------------------------------------------------------------------ IPC

  lemma BlockSenderFailure(k: Kernel, cur: TcbId, f: Context, m: Ipc.Message, isCall: bool)
    requires m.endpoint in k.endpoints && !k.endpoints[m.endpoint].queue.RecvQueue?
    ensures CleanUnless(false, k, Ipc.BlockSender(k, cur, f, m, isCall))
  {
    hide BlockCurrent;
  }

  lemma SendFailure(k: Kernel, cur: TcbId, cptr: CPtr, f: Context, nonblocking: bool)
    ensures CleanUnless(false, k, Ipc.Send(k, cur, cptr, f, nonblocking))
  {
    hide Ipc.DecodeSend;
    hide Ipc.DeliverToReceiver;
    hide MakeReady;
    var d := Ipc.DecodeSend(k, cur, cptr, f);
    if d.Success? && d.value.endpoint in k.endpoints && !k.endpoints[d.value.endpoint].queue.RecvQueue? {
      BlockSenderFailure(k, cur, f, d.value, false);
      hide Ipc.BlockSender;
    }
  }

  lemma CallFailure(k: Kernel, cur: TcbId, cptr: CPtr, f: Context)
    ensures CleanUnless(false, k, Ipc.Call(k, cur, cptr, f))
  {
    hide Ipc.DecodeCall;
    hide Ipc.DeliverToReceiver;
    hide SwitchTo;
    var d := Ipc.DecodeCall(k, cur, cptr, f);
    if d.Success? && d.value.endpoint in k.endpoints && !k.endpoints[d.value.endpoint].queue.RecvQueue? {
      BlockSenderFailure(k, cur, f, d.value, true);
      hide Ipc.BlockSender;
    }
  }

  lemma RecvFailure(k: Kernel, cur: TcbId, cptr: CPtr, f: Context)
    ensures CleanUnless(false, k, Ipc.Recv(k, cur, cptr, f))
  {
    hide Ipc.DecodeRecv;
    hide Ipc.Transfer;
    hide Ipc.ReleaseSender;
    hide BlockCurrent;
  }

  lemma ReplyFailure(k: Kernel, cur: TcbId, f: Context)
    requires Linked(k)
    ensures CleanUnless(false, k, Ipc.Reply(k, cur, f))
  {
    hide LookupCap;
    hide SwitchTo;
    var d := Ipc.DecodeReply(k, cur, f);
    if d.Success? {
      assert Owes(k, cur, d.value.target);
      var r := Ipc.Transfer(k, d.value.target, Ipc.BlockedCallerReplyDestSlot(k, d.value.target), d.value.extraCap);
      IpcEffects.TransferTouchesSlotsOnly(k, d.value.target, Ipc.BlockedCallerReplyDestSlot(k, d.value.target),
                                          d.value.extraCap);
      hide Ipc.Transfer;
    }
  }

  lemma NotificationFailure(k: Kernel, cur: TcbId, cptr: CPtr, f: Context)
    ensures CleanUnless(false, k, Ipc.Signal(k, cur, cptr, f))
    ensures CleanUnless(false, k, Ipc.Wait(k, cur, cptr, f))
    ensures CleanUnless(false, k, Ipc.Poll(k, cur, cptr, f))
  {
    hide Ipc.ResolveNotification;
    hide Ipc.WakeWaiter;
    hide Ipc.SetSignals;
    hide BlockCurrent;
  }

  // ------------------------------------------------------------- administration

  /** A pool is out of indices exactly when it is full. */
  lemma FullPool<T>(m: map<nat, T>, max: nat)
    requires Pool.Bounded(m, max)
    ensures Pool.AllocIndex(m, max).None? <==> |m| == max
  {
    if |m| < max && Pool.FirstFree(m, 0, max) == max {
      Pool.FullRange(m.Keys, max);
    }
  }

  lemma NewVSpaceFailure(k: Kernel)
    requires PoolsBounded(k)
    ensures var c := Admin.NewVSpace(k);
            c.NotMade? ==> OnlyCursors(k, c.k) && (c.k == k <==> AllocTable(k.pageTables).None?)
    ensures Admin.NewVSpace(k).Made? <==> AllocTable(k.pageTables).Some? && |k.vspaces| < MAX_VSPACES
  {
    FullPool(k.vspaces, MAX_VSPACES);
    hide Pool.AllocIndex;
  }

  lemma NewFrameFailure(k: Kernel, u: UntypedId, size: FrameSize)
    requires PoolsBounded(k) && u in k.untypeds
    ensures var b, c := BumpUntyped(k.untypeds[u], size.Bytes(), size.Bytes()), Admin.NewFrame(k, u, size);
            && (c.NotMade? ==> OnlyCursors(k, c.k) && (c.k == k <==> !b.Bumped?))
            && (c.Made? <==> b.Bumped? && |k.frames| < MAX_FRAMES)
  {
    FullPool(k.frames, MAX_FRAMES);
    hide Pool.AllocIndex;
    BumpMoves(k.untypeds[u], size);
    hide BumpUntyped;
  }

  lemma BumpMoves(u: Untyped, size: FrameSize)
    ensures var b := BumpUntyped(u, size.Bytes(), size.Bytes());
            b.Bumped? ==> b.untyped != u
  {
    PageSizesArePowers();
    if u.memory.Some? {
      AlignUpRoundsUp(u.memory.value.next, if size.Small? then 12 else 21);
    }
    hide AlignUp;
  }

  lemma NewObjectFailure(k: Kernel, r: Admin.Retyping)
    requires PoolsBounded(k) && r.untyped in k.untypeds
    ensures var c := Admin.NewObject(k, r.untyped, r.objectType);
            c.NotMade? ==> OnlyCursors(k, c.k) && (c.k == k <==> !(LeaksRoot(k, r) || LeaksRange(k, r)))
    ensures LeaksRoot(k, r) || LeaksRange(k, r) ==> !Admin.NewObject(k, r.untyped, r.objectType).Made?
  {
    hide Admin.NewFrame;
    hide Admin.NewVSpace;
    match r.objectType
    case VSpaceType => NewVSpaceFailure(k);
    case FrameSmallType => NewFrameFailure(k, r.untyped, Small);
    case FrameMegaType => NewFrameFailure(k, r.untyped, Mega);
    case CNodeType | EndpointType | NotificationType | TcbType | SchedContextType | UntypedType =>
      assert !LeaksRoot(k, r) && !LeaksRange(k, r);
  }

  lemma RetypeFailure(k: Kernel, cur: TcbId, tr: Trap)
    requires PoolsBounded(k) && tr.frame.syscall == UNTYPED_RETYPE
    ensures var o := Admin.UntypedRetype(k, cur, tr.frame.Mr(0), tr.frame);
            CleanUnless(Leaks(k, cur, tr), k, o) && (Leaks(k, cur, tr) ==> o.status.Err? || o.status.Panic?)
  {
    hide LookupCap;
    hide LeaksRoot;
    hide LeaksRange;
    var d := Admin.DecodeRetype(k, cur, tr.frame.Mr(0), tr.frame);
    if d.Success? {
      NewObjectFailure(k, d.value);
      hide Admin.NewObject;
    }
  }

  lemma MapFailure(k: Kernel, cur: TcbId, id: FrameId, f: Context, w: Frames.Walk)
    requires f.tag.labelId == Frames.LABEL_MAP
    ensures CleanUnless(LeaksSpare(k, cur, id, f, w), k, Frames.Map(k, cur, id, f, w))
    ensures LeaksSpare(k, cur, id, f, w) ==> Frames.Map(k, cur, id, f, w).status.Err?
  {
    hide Frames.DecodeMap;
    var d := Frames.DecodeMap(k, cur, id, f, w);
    if d.Success? {
      SparesFailure(k.pageTables, Frames.MaxNewTables(k.frames[id].size));
      hide Frames.AllocSpares;
    }
  }

  /** Asking for one or two spare pages fails with a page taken exactly if two were asked for and
      one was left. */
  lemma SparesFailure(t: PageTables, count: nat)
    requires count == 1 || count == 2
    ensures var (t', r) := Frames.AllocSpares(t, count);
            var one, two := AllocTable(t), AllocTable(t).Some? && AllocTable(AllocTable(t).value.0).Some?;
            && (r.Some? <==> if count == 1 then one.Some? else two)
            && (r.None? ==> (t' == t <==> one.None?))
  {
    var one := AllocTable(t);
    if one.Some? {
      assert Frames.AllocSpares(one.value.0, 0) == (one.value.0, Some([]));
      if count == 2 {
        var two := AllocTable(one.value.0);
        if two.Some? {
          assert Frames.AllocSpares(two.value.0, 0) == (two.value.0, Some([]));
        }
      }
    }
  }

  lemma FrameInvokeFailure(k: Kernel, cur: TcbId, tr: Trap)
    requires tr.frame.syscall == FRAME_INVOKE
    ensures var o := Frames.Invoke(k, cur, tr.frame.Mr(0), tr.frame, tr.walk);
            CleanUnless(Leaks(k, cur, tr), k, o) && (Leaks(k, cur, tr) ==> o.status.Err?)
  {
    var f := tr.frame;
    var d := Frames.ResolveFrame(k, cur, f.Mr(0));
    if d.Success? {
      if f.tag.labelId == Frames.LABEL_MAP {
        MapFailure(k, cur, d.value, f, tr.walk);
        hide Frames.Map;
      } else {
        UnmapFailure(k, cur, d.value, f);
        hide Frames.Unmap;
      }
      hide LeaksSpare;
    }
  }

  lemma UnmapFailure(k: Kernel, cur: TcbId, id: FrameId, f: Context)
    ensures CleanUnless(false, k, Frames.Unmap(k, cur, id, f))
  {
    hide LookupCap;
    hide Frames.SetMapping;
  }

  lemma OtherFailure(k: Kernel, cur: TcbId, f: Context)
    ensures CleanUnless(false, k, CNodes.Invoke(k, cur, f.Mr(0), f))
    ensures CleanUnless(false, k, Admin.Configure(k, cur, f.Mr(0), f))
    ensures CleanUnless(false, k, YieldNow(k, cur, f))
  {
    hide CNodes.ResolveCNode;
    hide CNodes.Operate;
    hide Admin.DecodeConfigure;
    hide Admin.ApplyConfiguration;
    hide BlockCurrent;
  }

  // ------------------------------------------------------------------ every call

  lemma HandlerFailure(k: Kernel, cur: TcbId, tr: Trap)
    requires Linked(k) && PoolsBounded(k)
    ensures CleanUnless(Leaks(k, cur, tr), k, Handle(k, cur, tr))
    ensures Leaks(k, cur, tr) ==> !Handle(k, cur, tr).status.Ok?
  {
    hide CleanUnless;
    hide Ipc.Send;
    hide Ipc.Recv;
    hide Ipc.Call;
    hide Ipc.Reply;
    hide Ipc.Signal;
    hide Ipc.Wait;
    hide Ipc.Poll;
    hide YieldNow;
    hide CNodes.Invoke;
    hide Admin.UntypedRetype;
    hide Admin.Configure;
    hide Frames.Invoke;
    var f := tr.frame;
    var n, cptr := f.syscall, f.Mr(0);
    if n == SEND {
      SendFailure(k, cur, cptr, f, false);
    } else if n == NB_SEND {
      SendFailure(k, cur, cptr, f, true);
    } else if n == RECV {
      RecvFailure(k, cur, cptr, f);
    } else if n == CALL {
      CallFailure(k, cur, cptr, f);
    } else if n == REPLY {
      ReplyFailure(k, cur, f);
    } else if n == SIGNAL || n == WAIT || n == POLL {
      NotificationFailure(k, cur, cptr, f);
    } else if n == UNTYPED_RETYPE {
      RetypeFailure(k, cur, tr);
    } else if n == FRAME_INVOKE {
      FrameInvokeFailure(k, cur, tr);
    } else {
      OtherFailure(k, cur, f);
      NoCallFails(k, f);
    }
  }

  lemma NoCallFails(k: Kernel, f: Context)
    ensures CleanUnless(false, k, Outcome(k, f, Err(IllegalOperation)))
  {
  }

  /** The frame a failed call returns with: the caller's own, but for `mr0` and the error flag. */
  predicate OnlyReports(f: Context, f': Context, e: SyscallError) {
    f' == f.(mrs := f.mrs[0 := e.Code()], tag := f.tag.(error := true))
  }

  /** A failed call reports its error to the thread that made it, and leaves the kernel as it was
      exactly when it is none of the three that leak. */
  lemma FailureIsClean(k: Kernel, tr: Trap, e: SyscallError)
    requires Inv(k) && Handle(k, k.current.value, tr).status == Err(e)
    ensures var (k', f') := Dispatch(k, tr);
            && k'.current == k.current && OnlyReports(tr.frame, f', e)
            && OnlyCursors(k, k')
            && (k' == k <==> !Leaks(k, k.current.value, tr))
  {
    HandlerFailure(k, k.current.value, tr);
    HandlerBehaves(k, tr);
    hide Handle;
  }

  /** The three paths do fail: a leak is never part of a success. */
  lemma LeaksAlwaysFail(k: Kernel, tr: Trap)
    requires Inv(k) && Leaks(k, k.current.value, tr)
    ensures Handle(k, k.current.value, tr).status.Err? && Step(k, tr) != k
  {
    HandlerFailure(k, k.current.value, tr);
    HandlerBehaves(k, tr);
    hide Handle;
    hide Leaks;
  }

  // --------------------------------------------------------------------- a witness

  /** One running thread, with a frame and an address space to map it into, and one page left in
      the page-table arena. */
  function AlmostOutOfTables(): Kernel {
    var slots := EmptyCNode()[1 := VSpaceCap(0, ALL_RIGHTS)][2 := FrameCap(0, ALL_RIGHTS)];
    Kernel(map[0 := slots], map[0 := NewTcb().(state := Running, cspace := Some(0))], map[], map[], map[], map[],
           map[0 := VSpace(0)], map[0 := Frame(MEGAPAGE_SIZE, Small, [None, None])],
           PageTables(0, (MAX_KERNEL_PAGE_TABLES - 1) * PAGE_SIZE, []), [], Some(0))
  }

  function MapTrap(): Trap {
    Trap(Context(FRAME_INVOKE, NO_TAG.(labelId := Frames.LABEL_MAP), [2, 1, 0, 0], seq(RAW_WORDS, i => 0)),
         Frames.Walk(false, 2))
  }

  lemma WitnessIsWellFormed()
    ensures Inv(AlmostOutOfTables())
  {
    var k := AlmostOutOfTables();
    assert forall p: Place :: QueueAt(k, p) == [];
    assert Linked(k) by {
      forall h, t | Owes(k, h, t) ensures false {
      }
    }
    assert |k.tcbs| == 1 && |k.cnodes| == 1 && |k.vspaces| == 1 && |k.frames| == 1;
  }

  /** A failed call can have an effect: this one fails for want of memory, and takes the last page
      of the arena with it. */
  lemma SomeFailureLeaks()
    ensures Inv(AlmostOutOfTables())
    ensures Leaks(AlmostOutOfTables(), 0, MapTrap())
    ensures Handle(AlmostOutOfTables(), 0, MapTrap()).status == Err(NotEnoughMemory)
    ensures AllocTable(AlmostOutOfTables().pageTables).Some?
    ensures AllocTable(Step(AlmostOutOfTables(), MapTrap()).pageTables).None?
  {
    WitnessIsWellFormed();
    hide Inv;
    WitnessFails();
  }

  lemma WitnessFails()
    ensures Leaks(AlmostOutOfTables(), 0, MapTrap())
    ensures Handle(AlmostOutOfTables(), 0, MapTrap()).status == Err(NotEnoughMemory)
    ensures AllocTable(AlmostOutOfTables().pageTables).Some?
    ensures AllocTable(Step(AlmostOutOfTables(), MapTrap()).pageTables).None?
  {
    var k, tr := AlmostOutOfTables(), MapTrap();
    assert LookupCap(k, 0, 2) == Success(FrameCap(0, ALL_RIGHTS));
    assert LookupCap(k, 0, 1) == Success(VSpaceCap(0, ALL_RIGHTS));
    hide LookupCap;
    assert Frames.ResolveFrame(k, 0, 2) == Success(0);
    assert Frames.DecodeMap(k, 0, 0, tr.frame, tr.walk) == Success(Frames.Mapping(0, 0));
    SparesFailure(k.pageTables, 2);
  }

  // ------------------------------------------------------------------ overflow

  /** The range that a frame is to be carved from has its cursor so close to the top of the address
      space that cursor and alignment together are no word. */
  predicate RetypeOverflows(k: Kernel, cur: TcbId, f: Context) {
    var d := Admin.DecodeRetype(k, cur, f.Mr(0), f);
    && d.Success? && (d.value.objectType == FrameSmallType || d.value.objectType == FrameMegaType)
    && d.value.untyped in k.untypeds && k.untypeds[d.value.untyped].memory.Some?
    && var size := if d.value.objectType == FrameSmallType then Small else Mega;
       k.untypeds[d.value.untyped].memory.value.next + size.Bytes() >= WORD_LIMIT
  }

  /** In any kernel, well-formed or not, a retype panics exactly if its cursor arithmetic overflows. */
  lemma RetypePanicsIff(k: Kernel, cur: TcbId, f: Context)
    ensures Admin.UntypedRetype(k, cur, f.Mr(0), f).status.Panic? <==> RetypeOverflows(k, cur, f)
  {
    hide LookupCap;
    hide AlignUp;
    hide Pool.AllocIndex;
    var d := Admin.DecodeRetype(k, cur, f.Mr(0), f);
    if d.Success? {
      FramePanicsIff(k, d.value.untyped, Small);
      FramePanicsIff(k, d.value.untyped, Mega);
    }
    hide Admin.NewFrame;
    hide Admin.DecodeRetype;
  }

  lemma FramePanicsIff(k: Kernel, u: UntypedId, size: FrameSize)
    requires u in k.untypeds
    ensures Admin.NewFrame(k, u, size).MakePanic? <==>
            k.untypeds[u].memory.Some? && k.untypeds[u].memory.value.next + size.Bytes() >= WORD_LIMIT
  {
    hide AlignUp;
    hide Admin.AddFrame;
    var b := BumpUntyped(k.untypeds[u], size.Bytes(), size.Bytes());
    if b.Bumped? {
      AddFrameNeverPanics(k.(untypeds := k.untypeds[u := b.untyped]), b.paddr, size);
    }
  }

  lemma AddFrameNeverPanics(k: Kernel, paddr: Address, size: FrameSize)
    ensures !Admin.AddFrame(k, paddr, size).MakePanic?
  {
  }
}
