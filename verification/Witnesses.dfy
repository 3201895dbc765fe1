/** Concrete kernels for the properties the code does not have: each lemma exhibits an input in
    the failing case of an exact condition proved elsewhere. */
module Witnesses {
  import opened Limits
  import opened Words
  import opened Wrappers
  import opened Capabilities
  import opened Objects
  import opened State
  import opened Ipc
  import opened Invariants
  import opened Syscalls
  import opened CallChains
  import Admin
  import Arena
  import Failure
  import Frames
  import Rendezvous

  /** A thread in state `s` with CSpace 0. */
  function ThreadIn(s: ThreadState): Tcb {
    NewTcb().(state := s, cspace := Some(0))
  }

  /** A kernel of threads with one CSpace, one endpoint, one address space and one frame. */
  function SmallKernel(slots: CNode, tcbs: map<TcbId, Tcb>, queue: EndpointQueue, frame: Frame,
                       ready: seq<TcbId>, current: TcbId): Kernel
  {
    Kernel(map[0 := slots], tcbs, map[0 := Endpoint(queue)], map[], map[], map[],
           map[0 := VSpace(0)], map[0 := frame], PageTables(0, PAGE_SIZE, []), ready, Some(current))
  }

  function Unmapped(): Frame {
    Frame(MEGAPAGE_SIZE, Small, [None, None])
  }

  function Registers(syscall: Word, extraCaps: nat, mrs: MessageRegisters): Context {
    Context(syscall, NO_TAG.(extraCaps := extraCaps), mrs, seq(RAW_WORDS, i => 0))
  }

  lemma SmallIsBounded(k: Kernel, n: nat)
    requires n <= MAX_TCBS && |k.tcbs| <= n && forall t | t in k.tcbs :: t < n
    requires |k.cnodes| == 1 && 0 in k.cnodes && |k.endpoints| == 1 && 0 in k.endpoints
    requires |k.vspaces| == 1 && 0 in k.vspaces && |k.frames| == 1 && 0 in k.frames
    requires k.notifications == map[] && k.untypeds == map[] && k.schedContexts == map[]
    ensures PoolsBounded(k)
  {
    OnlyZero(k.cnodes);
    OnlyZero(k.endpoints);
    OnlyZero(k.vspaces);
    OnlyZero(k.frames);
  }

  lemma OnlyZero<T>(m: map<nat, T>)
    requires |m| == 1 && 0 in m
    ensures forall i | i in m :: i == 0
  {
    assert |m.Keys - {0}| == 0;
    assert m.Keys == (m.Keys - {0}) + {0};
  }

  // ------------------------------------------------------------------ order shows

  /** Thread 0 runs and is about to call the endpoint, thread 1 is about to receive from it. */
  function BeforeRendezvous(): Kernel {
    SmallKernel(EmptyCNode()[0 := EndpointCap(0, 7, ALL_RIGHTS)],
                map[0 := ThreadIn(Running), 1 := ThreadIn(Ready)], Empty, Unmapped(), [1], 0)
  }

  lemma BeforeRendezvousIsWellFormed()
    ensures Inv(BeforeRendezvous())
  {
    var k := BeforeRendezvous();
    assert forall p: Place :: QueueAt(k, p) == if p == ReadyQueue then [1] else [];
    assert Linked(k) by {
      forall h, t | Owes(k, h, t) ensures false {
      }
    }
    assert |k.tcbs| == 2 && |k.cnodes| == 1 && |k.endpoints| == 1 && |k.vspaces| == 1 && |k.frames| == 1;
    SmallIsBounded(k, 2);
  }

  /** A `Call` that registers slot 5 for the reply: a receiver that comes second sees the number 5 in
      mr1, one that was waiting sees 0. */
  lemma OrderCanShow()
    ensures var k := BeforeRendezvous();
            var call, recv := Trap(Registers(CALL, 2, [0, 5, 0, 0]), Frames.Walk(false, 0)),
                              Trap(Registers(RECV, 0, [0, 0, 0, 0]), Frames.Walk(false, 0));
            var a := Handle(Step(k, call), 1, recv);
            var b := Handle(Step(Rendezvous.Exchanged(k, 0, 1), recv), 0, call);
            && Inv(k) && a.status == Ok && b.status == Ok
            && 1 in b.k.tcbs && a.frame != b.k.tcbs[1].context
  {
    BeforeRendezvousIsWellFormed();
    hide Inv;
    var k := BeforeRendezvous();
    var call := Trap(Registers(CALL, 2, [0, 5, 0, 0]), Frames.Walk(false, 0));
    var recv := Trap(Registers(RECV, 0, [0, 0, 0, 0]), Frames.Walk(false, 0));
    var m := Message(0, 7, None, Some(5), Payload(0, 0, 0));
    assert LookupCap(k, 0, 0) == LookupCap(k, 1, 0) == Success(EndpointCap(0, 7, ALL_RIGHTS));
    hide LookupCap;
    assert Rendezvous.Decode(k, 0, call.frame) == Success(m);
    assert DecodeRecv(k, 1, 0, recv.frame) == Success(Reception(0, None));
    hide Handle;
    hide Dispatch;
    hide DecodeRecv;
    Rendezvous.OrderDoesNotMatter(k, 0, 1, call, recv, m, None);
  }

  // ----------------------------------------------------------------- a lost caller

  /** The server, thread 0, owes thread 1 a reply, and thread 2 waits to call it. */
  function BusyServer(): Kernel {
    SmallKernel(EmptyCNode()[0 := EndpointCap(0, 0, ALL_RIGHTS)],
                map[0 := ThreadIn(Running).(replyTo := Some(1)), 1 := ThreadIn(BlockedReply(None)),
                    2 := ThreadIn(BlockedSend(0, 0, true, None, None))],
                SendQueue([2]), Unmapped(), [], 0)
  }

  lemma BusyServerIsPlaced()
    ensures Placed(BusyServer()) && OneRunning(BusyServer())
  {
    var k := BusyServer();
    assert forall p: Place :: QueueAt(k, p) == if p == Senders(0) then [2] else [];
  }

  lemma BusyServerIsLinked()
    ensures Linked(BusyServer()) && Owes(BusyServer(), 0, 1)
  {
  }

  lemma BusyServerIsWellFormed()
    ensures Inv(BusyServer()) && Owes(BusyServer(), 0, 1)
  {
    var k := BusyServer();
    BusyServerIsPlaced();
    BusyServerIsLinked();
    hide Placed;
    hide Linked;
    hide OneRunning;
    assert |k.tcbs| == 3 && |k.cnodes| == 1 && |k.endpoints| == 1 && |k.vspaces| == 1 && |k.frames| == 1;
    SmallIsBounded(k, 3);
    hide PoolsBounded;
  }

  /** The server receives again before it replies: its first caller waits for ever. */
  lemma CallerCanBeLost(trs: seq<Trap>)
    ensures var k, recv := BusyServer(), Trap(Registers(RECV, 0, [0, 0, 0, 0]), Frames.Walk(false, 0));
            Inv(k) && Owes(k, 0, 1) && TakesCall(k, recv, 0) && IsLost(Run(Step(k, recv), trs), 1)
  {
    BusyServerIsWellFormed();
    hide Inv;
    var k, recv := BusyServer(), Trap(Registers(RECV, 0, [0, 0, 0, 0]), Frames.Walk(false, 0));
    assert LookupCap(k, 0, 0) == Success(EndpointCap(0, 0, ALL_RIGHTS));
    hide LookupCap;
    assert DecodeRecv(k, 0, 0, recv.frame) == Success(Reception(0, None));
    hide DecodeRecv;
    assert TakesCall(k, recv, 0);
    hide Dispatch;
    LostForEver(k, recv, 0, 1, trs);
  }

  // --------------------------------------------------------------- a mapping undone

  /** The frame is mapped into the address space already, at address 0. */
  function MappedOnce(): Kernel {
    SmallKernel(EmptyCNode()[1 := VSpaceCap(0, ALL_RIGHTS)][2 := FrameCap(0, ALL_RIGHTS)],
                map[0 := ThreadIn(Running)], Empty,
                Unmapped().(mappedAt := [Some((0, 0)), None]), [], 0)
  }

  lemma MappedOnceIsWellFormed()
    ensures Inv(MappedOnce())
  {
    var k := MappedOnce();
    assert forall p: Place :: QueueAt(k, p) == [];
    assert Linked(k) by {
      forall h, t | Owes(k, h, t) ensures false {
      }
    }
    assert |k.tcbs| == 1 && |k.cnodes| == 1 && |k.endpoints| == 1 && |k.vspaces| == 1 && |k.frames| == 1;
    SmallIsBounded(k, 1);
  }

  /** Mapping the frame a second time into the same space and unmapping it removes the first
      mapping, not the second. */
  lemma UnmapCanMiss()
    ensures var k := MappedOnce();
            var frame := Registers(FRAME_INVOKE, 0, [2, 1, PAGE_SIZE, 0]);
            var mapped := Trap(frame.(tag := frame.tag.(labelId := Frames.LABEL_MAP)), Frames.Walk(false, 0));
            var unmap := Trap(frame.(tag := frame.tag.(labelId := Frames.LABEL_UNMAP)), Frames.Walk(false, 0));
            Inv(k) && Step(Step(k, mapped), unmap) != k
  {
    MappedOnceIsWellFormed();
    hide Inv;
    var k := MappedOnce();
    var frame := Registers(FRAME_INVOKE, 0, [2, 1, PAGE_SIZE, 0]);
    var m := Trap(frame.(tag := frame.tag.(labelId := Frames.LABEL_MAP)), Frames.Walk(false, 0));
    var u := Trap(frame.(tag := frame.tag.(labelId := Frames.LABEL_UNMAP)), Frames.Walk(false, 0));
    assert LookupCap(k, 0, 2) == Success(FrameCap(0, ALL_RIGHTS));
    assert LookupCap(k, 0, 1) == Success(VSpaceCap(0, ALL_RIGHTS));
    hide LookupCap;
    assert Frames.DecodeMap(k, 0, 0, m.frame, m.walk) == Success(Frames.Mapping(0, 1));
    hide Dispatch;
    Arena.MapThenUnmap(k, m, u, 0, 0);
  }

  // ------------------------------------------------------------- a range at the top

  /** A range that ends at the last address, with its cursor one page below the top. */
  function HighRange(): Kernel {
    SmallKernel(EmptyCNode()[1 := UntypedCap(0, ALL_RIGHTS)], map[0 := ThreadIn(Running)], Empty, Unmapped(), [], 0)
      .(untypeds := map[0 := Untyped(1, Some(Range(WORD_LIMIT - PAGE_SIZE, WORD_LIMIT - 1)))])
  }

  lemma HighRangeIsTidy()
    ensures var k := HighRange();
            Placed(k) && Normalized(k) && OneRunning(k) && Linked(k) && Calm(k) && PoolsBounded(k)
  {
    var k := HighRange();
    assert forall p: Place :: QueueAt(k, p) == [];
    assert Linked(k) by {
      forall h, t | Owes(k, h, t) ensures false {
      }
    }
    var k0 := k.(untypeds := map[]);
    assert |k0.tcbs| == 1 && |k0.cnodes| == 1 && |k0.endpoints| == 1 && |k0.vspaces| == 1 && |k0.frames| == 1;
    SmallIsBounded(k0, 1);
    assert |k.untypeds| == 1;
    OnlyZero(k.untypeds);
  }

  /** Retyping a small frame from a range that reaches the top of the address space panics, in a kernel
      that is in order otherwise. */
  lemma RetypeCanPanic()
    ensures var k, retype := HighRange(), Trap(Registers(UNTYPED_RETYPE, 0, [1, 7, 5, 0]), Frames.Walk(false, 0));
            && Placed(k) && Normalized(k) && OneRunning(k) && Linked(k) && Calm(k) && PoolsBounded(k)
            && Handle(k, 0, retype).status == Panic
  {
    hide Placed;
    hide Normalized;
    hide OneRunning;
    hide Linked;
    hide Calm;
    hide PoolsBounded;
    hide Admin.UntypedRetype;
    hide Admin.DecodeRetype;
    HighRangeIsTidy();
    HighRangeDecodes();
    Failure.RetypePanicsIff(HighRange(), 0, Registers(UNTYPED_RETYPE, 0, [1, 7, 5, 0]));
  }

  lemma HighRangeDecodes()
    ensures Admin.DecodeRetype(HighRange(), 0, 1, Registers(UNTYPED_RETYPE, 0, [1, 7, 5, 0]))
         == Success(Admin.Retyping(0, FrameSmallType, 0, 5))
  {
    assert LookupCap(HighRange(), 0, 1) == Success(UntypedCap(0, ALL_RIGHTS));
    hide LookupCap;
  }
}
