/** Authority never grows: a capability either derives from one that was there, or designates an
    object that has just been made. Nothing that is named is ever missing. */
module Authority {
  import opened Limits
  import opened Words
  import opened Wrappers
  import opened Capabilities
  import opened Objects
  import opened State
  import opened Invariants
  import opened Effects
  import opened Syscalls
  import opened SlotEffects
  import opened AdminEffects
  import opened Upkeep
  import Ipc
  import IpcEffects
  import Admin
  import CNodes
  import Frames
  import Pool
  import Arena

  /** Some slot of some node, or some message in flight, holds `c`. */
  ghost predicate Holds(k: Kernel, c: Capability) {
    (exists n, s :: InSlot(k, n, s, c)) || (exists t :: InFlight(k, t, c))
  }

  ghost predicate HeldOrigin(k: Kernel, c: Capability) {
    exists d :: Holds(k, d) && Derived(c, d)
  }

  // ------------------------------------------------------------- slots of one step

  lemma LookupIsHeld(k: Kernel, t: TcbId, p: CPtr)
    ensures var r := LookupCap(k, t, p);
            r.Success? ==> InSlot(k, k.tcbs[t].cspace.value, p, r.value) && Holds(k, r.value)
  {
    var r := LookupCap(k, t, p);
    if r.Success? {
      assert InSlot(k, k.tcbs[t].cspace.value, p, r.value);
    }
  }

  lemma HeldBySlot(k: Kernel, n: CNodeId, s: Word, c: Capability, d: Capability)
    requires InSlot(k, n, s, d) && Derived(c, d)
    ensures HeldOrigin(k, c)
  {
    assert Holds(k, d);
  }

  lemma WriteDerives(x: SlotEffect, cur: TcbId, f: Context, k: Kernel, k': Kernel, n: CNodeId, s: Word, c: Capability)
    requires Writes(x, cur, f, k, k') && InSlot(k', n, s, c)
    ensures NamesNew(k, k', c) || HeldOrigin(k, c)
  {
    if InSlot(k, n, s, c) {
      HeldBySlot(k, n, s, c, c);
    } else {
      match x
      case Untouched =>
      case Granted(to, w) =>
        LookupIsHeld(k, cur, f.Mr(1));
        assert Derived(w.cap, w.cap);
      case Collected(sender, w) =>
        assert Holds(k, w.cap);
        assert Derived(w.cap, w.cap);
      case Installed(w, source, from) =>
        HeldBySlot(k, source, from, w.cap, k.cnodes[source][from]);
      case Relocated(w, from) =>
        HeldBySlot(k, w.node, from, c, w.cap);
      case Cleared(_, _) =>
      case Endowed(w) =>
        EndowedSlot(w, cur, f, k, k', n, s, c);
    }
  }

  lemma EndowedSlot(w: SlotWrite, cur: TcbId, f: Context, k: Kernel, k': Kernel, n: CNodeId, s: Word, c: Capability)
    requires Endows(cur, f, w, k, k') && InSlot(k', n, s, c)
    ensures c == w.cap || InSlot(k, n, s, c)
  {
    var m := k'.cnodes[w.node := k.cnodes[w.node]];
    assert n in m;
  }

  // -------------------------------------------------------------- messages in flight

  lemma MoveInFlight(x: Effect, k: Kernel, f: Context, k': Kernel, f': Context, t: TcbId, c: Capability)
    requires Does(x, k, f, k', f') && InFlight(k', t, c)
    ensures InFlight(k, t, c) || (x.Parked? && x.p.Senders? && Some(t) == k.current)
  {
  }

  lemma ParkedSnapshot(k: Kernel, e: EndpointId, q: EndpointQueue, cur: TcbId, s: ThreadState, f: Context)
    requires cur in k.tcbs && s.BlockedSend?
    ensures var k' := Ipc.Park(SetState(Ipc.SetEndpointQueue(k, e, q), cur, s), f).k;
            cur in k'.tcbs && (k'.tcbs[cur].state.BlockedSend? ==> k'.tcbs[cur].state == s)
  {
    hide Ipc.Park;
    ParkKeepsSnapshot(SetState(Ipc.SetEndpointQueue(k, e, q), cur, s), cur, f);
  }

  lemma BlockSenderSnapshot(k: Kernel, cur: TcbId, f: Context, m: Ipc.Message, isCall: bool)
    requires m.endpoint in k.endpoints && !k.endpoints[m.endpoint].queue.RecvQueue?
    requires cur in k.tcbs && k.tcbs[cur].state == Running
    ensures var k' := Ipc.BlockSender(k, cur, f, m, isCall).k;
            cur in k'.tcbs && (k'.tcbs[cur].state.BlockedSend? ==> k'.tcbs[cur].state.extraCap == m.extraCap)
  {
    hide Ipc.Park;
    hide SetState;
    hide Ipc.SetEndpointQueue;
    var queue := k.endpoints[m.endpoint].queue;
    var q := if queue.SendQueue? then queue.senders else [];
    if k.ready != [] && HasRoom(q) {
      ParkedSnapshot(k, m.endpoint, SendQueue(PushBack(q, cur)), cur,
                     BlockedSend(m.endpoint, m.badge, isCall, m.extraCap, m.replyDestSlot), f);
    }
  }

  lemma ResumeStates(k: Kernel, f: Context, next: TcbId, t: TcbId)
    requires t in k.tcbs
    ensures var k' := Resume(k, f, next).0;
            t in k'.tcbs && k'.tcbs[t].state == if t == next then Running else k.tcbs[t].state
  {
  }

  lemma SaveStates(k: Kernel, f: Context, t: TcbId)
    requires t in k.tcbs
    ensures var k' := SaveCurrent(k, f); t in k'.tcbs && k'.tcbs[t].state == k.tcbs[t].state
  {
  }

  lemma ParkKeepsSnapshot(k: Kernel, cur: TcbId, f: Context)
    requires cur in k.tcbs && k.tcbs[cur].state.BlockedSend?
    ensures var k' := Ipc.Park(k, f).k;
            cur in k'.tcbs && (k'.tcbs[cur].state.BlockedSend? ==> k'.tcbs[cur].state == k.tcbs[cur].state)
  {
    assert SaveCurrent(k, f).ready == k.ready;
    hide SaveCurrent;
    hide Resume;
    SaveStates(k, f, cur);
    if k.ready != [] {
      var k1 := SaveCurrent(k, f).(current := None);
      ResumeStates(k1.(ready := k1.ready[1..]), f, k1.ready[0], cur);
    }
  }

  /** What a blocked sender attached was in its CSpace, with GRANT, when it trapped. */
  lemma SenderSnapshot(k: Kernel, cur: TcbId, tr: Trap)
    requires cur in k.tcbs && k.tcbs[cur].state == Running
    requires tr.frame.syscall == SEND || tr.frame.syscall == CALL
    requires cur in Handle(k, cur, tr).k.tcbs && Handle(k, cur, tr).k.tcbs[cur].state.BlockedSend?
    ensures Ipc.ExtractExtraCap(k, cur, tr.frame) == Success(Handle(k, cur, tr).k.tcbs[cur].state.extraCap)
  {
    var f := tr.frame;
    if f.syscall == SEND {
      SendSnapshot(k, cur, f);
    } else {
      CallSnapshot(k, cur, f);
    }
  }

  lemma SendSnapshot(k: Kernel, cur: TcbId, f: Context)
    requires cur in k.tcbs && k.tcbs[cur].state == Running
    ensures var k' := Ipc.Send(k, cur, f.Mr(0), f, false).k;
            cur in k'.tcbs && k'.tcbs[cur].state.BlockedSend? ==>
              Ipc.ExtractExtraCap(k, cur, f) == Success(k'.tcbs[cur].state.extraCap)
  {
    hide LookupCap;
    hide Ipc.BlockSender;
    var d := Ipc.DecodeSend(k, cur, f.Mr(0), f);
    if d.Success? && k.endpoints[d.value.endpoint].queue.RecvQueue? {
      var q := k.endpoints[d.value.endpoint].queue.receivers;
      if q != [] { DeliveryKeepsState(k, d.value, f.tag, q, cur); }
    } else if d.Success? {
      BlockSenderSnapshot(k, cur, f, d.value, false);
    }
  }

  lemma CallSnapshot(k: Kernel, cur: TcbId, f: Context)
    requires cur in k.tcbs && k.tcbs[cur].state == Running
    ensures var k' := Ipc.Call(k, cur, f.Mr(0), f).k;
            cur in k'.tcbs && k'.tcbs[cur].state.BlockedSend? ==>
              Ipc.ExtractExtraCap(k, cur, f) == Success(k'.tcbs[cur].state.extraCap)
  {
    hide LookupCap;
    hide Ipc.BlockSender;
    hide Ipc.HandOver;
    var d := Ipc.DecodeCall(k, cur, f.Mr(0), f);
    if d.Success? && k.endpoints[d.value.endpoint].queue.RecvQueue? {
      var q := k.endpoints[d.value.endpoint].queue.receivers;
      if q != [] {
        var r := Ipc.DeliverToReceiver(k, d.value, f.tag, q);
        if r.Success? {
          HandOverState(r.value, cur, f, q[0], d.value.replyDestSlot);
        }
      }
    } else if d.Success? {
      BlockSenderSnapshot(k, cur, f, d.value, true);
    }
  }

  lemma PayloadKeepsState(k: Kernel, u: TcbId, badge: Word, p: Payload, tag: MessageTag, t: TcbId)
    requires t in k.tcbs
    ensures var k' := Ipc.DeliverPayload(k, u, badge, p, tag); t in k'.tcbs && k'.tcbs[t].state == k.tcbs[t].state
  {
  }

  lemma DeliveryKeepsState(k: Kernel, m: Ipc.Message, tag: MessageTag, q: seq<TcbId>, t: TcbId)
    requires q != [] && t in k.tcbs
    ensures var r := Ipc.DeliverToReceiver(k, m, tag, q);
            r.Success? ==> t in r.value.tcbs && r.value.tcbs[t].state == k.tcbs[t].state
  {
    var dest := Ipc.BlockedReceiverDestSlot(k, q[0]);
    IpcEffects.TransferTouchesSlotsOnly(k, q[0], dest, m.extraCap);
    hide Ipc.Transfer;
    hide Ipc.Normalize;
    var r := Ipc.Transfer(k, q[0], dest, m.extraCap);
    if r.Success? {
      PayloadKeepsState(Ipc.SetEndpointQueue(r.value, m.endpoint, Ipc.Normalize(RecvQueue(q[1..]))), q[0], m.badge,
                        m.payload, tag, t);
    }
    hide Ipc.DeliverPayload;
  }

  lemma HandOverState(k: Kernel, cur: TcbId, f: Context, receiver: TcbId, slot: Option<CPtr>)
    ensures var k' := Ipc.HandOver(k, cur, f, receiver, slot).k;
            cur in k'.tcbs ==> !k'.tcbs[cur].state.BlockedSend?
  {
    var k1 := SetState(SetReplyTo(k, receiver, Some(cur)), cur, BlockedReply(slot));
    assert cur in k1.tcbs ==> k1.tcbs[cur].state == BlockedReply(slot);
    hide SetState;
    hide SetReplyTo;
    hide SaveCurrent;
    hide Resume;
    if cur in k1.tcbs {
      SaveStates(k1, f, cur);
      ResumeStates(SaveCurrent(k1, f), f, receiver, cur);
    }
  }

  lemma StepInFlight(k: Kernel, tr: Trap, t: TcbId, c: Capability)
    requires Inv(k) && InFlight(Step(k, tr), t, c)
    ensures InFlight(k, t, c)
            || (Some(t) == k.current && LookupCap(k, t, tr.frame.Mr(1)) == Success(c) && Grant in c.Rights())
  {
    DispatchMoves(k, tr);
    var (k', f') := Dispatch(k, tr);
    var x :| Does(x, k, tr.frame, k', f') && Causes(tr.frame.syscall, x);
    MoveInFlight(x, k, tr.frame, k', f', t, c);
    if !InFlight(k, t, c) {
      hide Handle;
      SenderSnapshot(k, t, tr);
      ExtraCapHeld(k, t, tr.frame);
    }
  }

  // ---------------------------------------------------------------------- objects

  ghost predicate KeepsObjects(k: Kernel, k': Kernel) {
    forall o :: Allocated(k, o) ==> Allocated(k', o)
  }

  lemma ThreadWriteKeepsObjects(k: Kernel, k': Kernel)
    requires OnlyThreads(k, k')
    ensures KeepsObjects(k, k')
  {
  }

  lemma MappingKeepsObjects(k: Kernel, k': Kernel)
    requires Frames.OnlyMappings(k, k')
    ensures KeepsObjects(k, k')
  {
  }

  lemma IpcKeepsObjects(k: Kernel, k': Kernel)
    requires SameObjects(k, k')
    ensures KeepsObjects(k, k')
  {
  }

  lemma NewFrameKeepsObjects(k: Kernel, u: UntypedId, size: FrameSize)
    requires u in k.untypeds
    ensures var c := Admin.NewFrame(k, u, size); c.Made? || c.NotMade? ==> KeepsObjects(k, c.k)
  {
    var b := BumpUntyped(k.untypeds[u], size.Bytes(), size.Bytes());
    hide BumpUntyped;
    if b.Bumped? {
      AddFrameKeepsObjects(k.(untypeds := k.untypeds[u := b.untyped]), b.paddr, size);
      hide Admin.AddFrame;
    }
  }

  lemma AddFrameKeepsObjects(k: Kernel, paddr: Address, size: FrameSize)
    ensures var c := Admin.AddFrame(k, paddr, size); c.Made? || c.NotMade? ==> KeepsObjects(k, c.k)
  {
  }

  lemma NewVSpaceKeepsObjects(k: Kernel)
    ensures var c := Admin.NewVSpace(k); c.Made? || c.NotMade? ==> KeepsObjects(k, c.k)
  {
  }

  lemma NewObjectKeepsObjects(k: Kernel, u: UntypedId, t: ObjectType)
    requires u in k.untypeds
    ensures var c := Admin.NewObject(k, u, t); c.Made? || c.NotMade? ==> KeepsObjects(k, c.k)
  {
    hide Admin.NewFrame;
    hide Admin.NewVSpace;
    hide Pool.AllocIndex;
    match t
    case VSpaceType => NewVSpaceKeepsObjects(k);
    case FrameSmallType => NewFrameKeepsObjects(k, u, Small);
    case FrameMegaType => NewFrameKeepsObjects(k, u, Mega);
    case _ =>
  }

  lemma RetypeKeepsObjects(k: Kernel, cur: TcbId, f: Context)
    ensures KeepsObjects(k, Admin.UntypedRetype(k, cur, f.Mr(0), f).k)
  {
    hide LookupCap;
    var d := Admin.DecodeRetype(k, cur, f.Mr(0), f);
    if d.Success? {
      NewObjectKeepsObjects(k, d.value.untyped, d.value.objectType);
      hide Admin.NewObject;
    }
  }

  lemma HandlerKeepsObjects(k: Kernel, cur: TcbId, tr: Trap)
    requires Normalized(k) && Calm(k)
    ensures KeepsObjects(k, Handle(k, cur, tr).k)
  {
    var f := tr.frame;
    if IsIpc(f.syscall) {
      IpcHandlerTidy(k, cur, tr);
      hide Handle;
      IpcKeepsObjects(k, Handle(k, cur, tr).k);
    } else {
      hide LookupCap;
      RetypeKeepsObjects(k, cur, f);
      hide Admin.UntypedRetype;
      AdministrationKeepsObjects(k, cur, tr);
      hide CNodes.Invoke;
      hide Admin.Configure;
      hide Frames.Invoke;
    }
  }

  lemma AdministrationKeepsObjects(k: Kernel, cur: TcbId, tr: Trap)
    ensures KeepsObjects(k, CNodes.Invoke(k, cur, tr.frame.Mr(0), tr.frame).k)
    ensures KeepsObjects(k, Admin.Configure(k, cur, tr.frame.Mr(0), tr.frame).k)
    ensures KeepsObjects(k, Frames.Invoke(k, cur, tr.frame.Mr(0), tr.frame, tr.walk).k)
  {
    CNodeInvokeKeepsObjects(k, cur, tr.frame);
    ConfigureKeepsObjects(k, cur, tr.frame);
    MappingKeepsObjects(k, Frames.Invoke(k, cur, tr.frame.Mr(0), tr.frame, tr.walk).k);
  }

  lemma CNodeInvokeKeepsObjects(k: Kernel, cur: TcbId, f: Context)
    ensures KeepsObjects(k, CNodes.Invoke(k, cur, f.Mr(0), f).k)
  {
    hide LookupCap;
    hide CNodes.Operate;
  }

  lemma ConfigureKeepsObjects(k: Kernel, cur: TcbId, f: Context)
    ensures KeepsObjects(k, Admin.Configure(k, cur, f.Mr(0), f).k)
  {
    hide LookupCap;
    var d := Admin.DecodeConfigure(k, cur, f.Mr(0), f);
    if d.Success? {
      ThreadWriteKeepsObjects(k, Admin.ApplyConfiguration(k, d.value));
      hide Admin.ApplyConfiguration;
    }
  }

  lemma StepKeepsObjects(k: Kernel, tr: Trap)
    requires Inv(k)
    ensures KeepsObjects(k, Step(k, tr))
  {
    HandlerKeepsObjects(k, k.current.value, tr);
    hide Handle;
  }

  // ------------------------------------------------------------------ every run

  /** One trap: every capability derives from one that was held, or names a new object. */
  lemma StepDerives(k: Kernel, tr: Trap, c: Capability)
    requires Inv(k) && Holds(Step(k, tr), c)
    ensures NamesNew(k, Step(k, tr), c) || HeldOrigin(k, c)
  {
    hide Handle;
    var cur, k' := k.current.value, Step(k, tr);
    if n, s :| InSlot(k', n, s, c) {
      HandlerSlots(k, cur, tr);
      var x :| Writes(x, cur, tr.frame, k, Handle(k, cur, tr).k);
      WriteDerives(x, cur, tr.frame, k, k', n, s, c);
    } else {
      var t :| InFlight(k', t, c);
      StepInFlight(k, tr, t, c);
      if !InFlight(k, t, c) { LookupIsHeld(k, t, tr.frame.Mr(1)); }
      assert Holds(k, c) && Derived(c, c);
    }
  }

  lemma OriginOfOrigin(k: Kernel, k1: Kernel, c: Capability, d: Capability)
    requires Derived(c, d) && HeldOrigin(k, d)
    ensures HeldOrigin(k, c)
  {
    var e :| Holds(k, e) && Derived(d, e);
    assert Derived(c, e);
  }

  /** Over any run: a capability to an object that was there from the start derives from one that
      was held at the start. */
  lemma {:induction false} RunDerives(k: Kernel, trs: seq<Trap>, c: Capability)
    requires Inv(k) && Holds(Run(k, trs), c)
    requires Names(c).Some? && Allocated(k, Names(c).value)
    ensures HeldOrigin(k, c)
    decreases |trs|
  {
    hide Dispatch;
    if trs == [] {
      assert Derived(c, c);
    } else {
      var k1 := Step(k, trs[0]);
      StepKeepsInv(k, trs[0]);
      StepKeepsObjects(k, trs[0]);
      RunDerives(k1, trs[1..], c);
      var d :| Holds(k1, d) && Derived(c, d);
      StepDerives(k, trs[0], d);
      OriginOfOrigin(k, k1, c, d);
    }
  }

  /** Somebody holds right `r` to object `o`. */
  ghost predicate Reaches(k: Kernel, o: ObjectName, r: Right) {
    exists c :: Holds(k, c) && Names(c) == Some(o) && r in c.Rights()
  }

  /** No run gives anybody a right to an existing object that nobody had. */
  lemma NoRightIsGained(k: Kernel, trs: seq<Trap>, o: ObjectName, r: Right)
    requires Inv(k) && Allocated(k, o) && Reaches(Run(k, trs), o, r)
    ensures Reaches(k, o, r)
  {
    hide Run;
    var c :| Holds(Run(k, trs), c) && Names(c) == Some(o) && r in c.Rights();
    RunDerives(k, trs, c);
    var d :| Holds(k, d) && Derived(c, d);
  }

  // -------------------------------------------------------- node capabilities stay

  /** What a message attaches may be granted; no capability to a node may. */
  ghost predicate OnlyGrantableInFlight(k: Kernel) {
    forall t, c :: InFlight(k, t, c) ==> Grant in c.Rights()
  }

  lemma {:induction false} RunKeepsGrantable(k: Kernel, trs: seq<Trap>)
    requires Inv(k) && OnlyGrantableInFlight(k)
    ensures OnlyGrantableInFlight(Run(k, trs)) && Inv(Run(k, trs))
    decreases |trs|
  {
    hide Dispatch;
    if trs != [] {
      StepKeepsInv(k, trs[0]);
      forall t, c | InFlight(Step(k, trs[0]), t, c) ensures Grant in c.Rights() {
        StepInFlight(k, trs[0], t, c);
      }
      RunKeepsGrantable(Step(k, trs[0]), trs[1..]);
    }
  }

  lemma WriteMovesNoNode(x: SlotEffect, call: Word, cur: TcbId, f: Context, k: Kernel, k': Kernel,
                         n: CNodeId, s: Word, c: Capability)
    requires OnlyGrantableInFlight(k) && Writes(x, cur, f, k, k') && WrittenBy(call, x)
    requires InSlot(k', n, s, c) && c.CNodeCap? && call != CNODE_INVOKE && call != UNTYPED_RETYPE
    ensures InSlot(k, n, s, c)
  {
    match x
    case Collected(sender, w) => assert Grant in w.cap.Rights();
    case _ =>
  }

  /** In any run, a capability to a node appears in a slot only by `CNodeInvoke` or by retyping:
      never by a message. */
  lemma NodesNeverTravel(k: Kernel, trs: seq<Trap>, tr: Trap, n: CNodeId, s: Word, c: Capability)
    requires Inv(k) && OnlyGrantableInFlight(k)
    requires tr.frame.syscall != CNODE_INVOKE && tr.frame.syscall != UNTYPED_RETYPE
    requires c.CNodeCap? && InSlot(Step(Run(k, trs), tr), n, s, c)
    ensures InSlot(Run(k, trs), n, s, c)
  {
    RunKeepsGrantable(k, trs);
    hide Run;
    hide Handle;
    var k1 := Run(k, trs);
    HandlerSlots(k1, k1.current.value, tr);
    var x :| Writes(x, k1.current.value, tr.frame, k1, Handle(k1, k1.current.value, tr).k)
             && WrittenBy(tr.frame.syscall, x);
    WriteMovesNoNode(x, tr.frame.syscall, k1.current.value, tr.frame, k1, Step(k1, tr), n, s, c);
  }

  // ---------------------------------------------------------------- nothing dangles

  ghost predicate NamesLive(k: Kernel) {
    forall c :: Holds(k, c) && Names(c).Some? ==> Allocated(k, Names(c).value)
  }

  /** `a` is the root table of some address space. */
  ghost predicate IsRoot(k: Kernel, a: Address) {
    exists v :: v in k.vspaces && k.vspaces[v].root == a
  }

  ghost predicate RootsLive(k: Kernel, tcb: Tcb) {
    && (tcb.cspace.Some? ==> tcb.cspace.value in k.cnodes)
    && (tcb.schedContext.Some? ==> tcb.schedContext.value in k.schedContexts)
    && (tcb.addressSpace.Some? ==> IsRoot(k, tcb.addressSpace.value))
  }

  predicate MappingsLive(k: Kernel, fr: Frame) {
    forall i :: 0 <= i < MAX_FRAME_MAPPINGS && fr.mappedAt[i].Some? ==> fr.mappedAt[i].value.0 in k.vspaces
  }

  /** Whatever a capability, a thread or a frame names has been allocated. */
  ghost predicate NothingDangles(k: Kernel) {
    && NamesLive(k)
    && (forall t | t in k.tcbs :: RootsLive(k, k.tcbs[t]))
    && (forall i | i in k.frames :: MappingsLive(k, k.frames[i]))
  }

  predicate SameRoots(a: Tcb, b: Tcb) {
    a.cspace == b.cspace && a.schedContext == b.schedContext && a.addressSpace == b.addressSpace
  }

  lemma MoveKeepsRoots(x: Effect, k: Kernel, f: Context, k': Kernel, f': Context, t: TcbId)
    requires Does(x, k, f, k', f') && !x.Configured? && !x.Admitted? && t in k'.tcbs
    ensures if t in k.tcbs then SameRoots(k'.tcbs[t], k.tcbs[t]) else k'.tcbs[t] == NewTcb()
  {
  }

  lemma AddressSpaceIsRoot(k: Kernel, cur: TcbId, arg: Word)
    ensures var r := Admin.ResolveAddressSpace(k, cur, arg); r.Success? && r.value.Some? ==> IsRoot(k, r.value.value)
  {
    hide LookupCap;
  }

  lemma ConfigureKeepsRoots(k: Kernel, cur: TcbId, f: Context, t: TcbId)
    requires NothingDangles(k)
    requires t in Admin.Configure(k, cur, f.Mr(0), f).k.tcbs
    ensures RootsLive(k, Admin.Configure(k, cur, f.Mr(0), f).k.tcbs[t])
  {
    LookupIsHeld(k, cur, f.Mr(1));
    LookupIsHeld(k, cur, f.Mr(2));
    AddressSpaceIsRoot(k, cur, f.Mr(3));
    hide LookupCap;
    hide Holds;
    hide IsRoot;
    hide Admin.ResolveTcb;
    hide Admin.ResolveAddressSpace;
    hide Admin.ApplyConfiguration;
    var d := Admin.DecodeConfigure(k, cur, f.Mr(0), f);
    if d.Success? {
      var c := d.value;
      assert Allocated(k, CNodeNamed(c.cspace)) && Allocated(k, SchedContextNamed(c.sched)) by {
        assert Names(CNodeCap(c.cspace)) == Some(CNodeNamed(c.cspace));
      }
      ConfiguredRoots(k, c, t);
    }
  }

  lemma ConfiguredRoots(k: Kernel, c: Admin.Configuration, t: TcbId)
    requires c.target in k.tcbs && t in k.tcbs
    ensures var k' := Admin.ApplyConfiguration(k, c);
            && t in k'.tcbs
            && if t == c.target then
                 && k'.tcbs[t].cspace == Some(c.cspace) && k'.tcbs[t].schedContext == Some(c.sched)
                 && k'.tcbs[t].addressSpace == c.addressSpace
               else SameRoots(k'.tcbs[t], k.tcbs[t])
  {
    var tcb := k.tcbs[c.target].(cspace := Some(c.cspace), schedContext := Some(c.sched), addressSpace := c.addressSpace);
    ReadyKeepsRoots(k.(tcbs := k.tcbs[c.target := tcb]), c.target, t);
    hide MakeReady;
  }

  lemma ReadyKeepsRoots(k: Kernel, u: TcbId, t: TcbId)
    requires t in k.tcbs
    ensures var k' := MakeReady(k, u); t in k'.tcbs && SameRoots(k'.tcbs[t], k.tcbs[t])
  {
  }

  lemma ConfigureIsHandled(k: Kernel, tr: Trap)
    requires k.current.Some? && tr.frame.syscall == TCB_CONFIGURE
    ensures Step(k, tr) == Admin.Configure(k, k.current.value, tr.frame.Mr(0), tr.frame).k
  {
    hide Admin.Configure;
  }

  lemma StepKeepsRoots(k: Kernel, tr: Trap, t: TcbId)
    requires Inv(k) && NothingDangles(k) && t in Step(k, tr).tcbs
    ensures RootsLive(Step(k, tr), Step(k, tr).tcbs[t])
  {
    hide Dispatch;
    hide Admin.Configure;
    hide NamesLive;
    DispatchMoves(k, tr);
    var (k', f') := Dispatch(k, tr);
    var x :| Does(x, k, tr.frame, k', f') && Causes(tr.frame.syscall, x);
    StepKeepsObjects(k, tr);
    StepKeepsVSpaces(k, tr);
    if x.Configured? || x.Admitted? {
      ConfigureIsHandled(k, tr);
      ConfigureKeepsRoots(k, k.current.value, tr.frame, t);
    } else {
      MoveKeepsRoots(x, k, tr.frame, k', f', t);
    }
    hide Does;
    RootsStayLive(k, k', k'.tcbs[t]);
  }

  /** An address space keeps its root table. */
  ghost predicate KeepsVSpaces(k: Kernel, k': Kernel) {
    forall v | v in k.vspaces :: v in k'.vspaces && k'.vspaces[v] == k.vspaces[v]
  }

  lemma NewObjectKeepsVSpaces(k: Kernel, u: UntypedId, t: ObjectType)
    requires u in k.untypeds
    ensures var c := Admin.NewObject(k, u, t); c.Made? || c.NotMade? ==> KeepsVSpaces(k, c.k)
  {
    if t != VSpaceType {
      Arena.OtherObjectArena(k, u, t);
      hide Admin.NewObject;
    }
  }

  lemma RetypeKeepsVSpaces(k: Kernel, cur: TcbId, f: Context)
    ensures KeepsVSpaces(k, Admin.UntypedRetype(k, cur, f.Mr(0), f).k)
  {
    hide LookupCap;
    var d := Admin.DecodeRetype(k, cur, f.Mr(0), f);
    if d.Success? {
      NewObjectKeepsVSpaces(k, d.value.untyped, d.value.objectType);
    }
    hide Admin.NewObject;
  }

  lemma HandlerKeepsVSpaces(k: Kernel, cur: TcbId, tr: Trap)
    requires Normalized(k) && Calm(k)
    ensures KeepsVSpaces(k, Handle(k, cur, tr).k)
  {
    hide KeepsVSpaces;
    if IsIpc(tr.frame.syscall) {
      IpcHandlerTidy(k, cur, tr);
      hide Handle;
      SameVSpaces(k, Handle(k, cur, tr).k);
    } else {
      hide CNodes.Invoke;
      hide Admin.Configure;
      hide Admin.UntypedRetype;
      hide Frames.Invoke;
      if tr.frame.syscall == UNTYPED_RETYPE {
        RetypeKeepsVSpaces(k, cur, tr.frame);
      } else {
        Arena.OthersKeepArena(k, cur, tr.frame);
        SameVSpaces(k, Handle(k, cur, tr).k);
      }
    }
  }

  lemma StepKeepsVSpaces(k: Kernel, tr: Trap)
    requires Inv(k)
    ensures KeepsVSpaces(k, Step(k, tr))
  {
    HandlerKeepsVSpaces(k, k.current.value, tr);
    hide Handle;
  }

  lemma SameVSpaces(k: Kernel, k': Kernel)
    requires k'.vspaces == k.vspaces
    ensures KeepsVSpaces(k, k')
  {
  }

  /** A thread that is new has no roots, and one that keeps its roots keeps them live. */
  lemma RootsComeFrom(k: Kernel, k': Kernel, t: TcbId)
    requires NothingDangles(k) && t in k'.tcbs
    requires if t in k.tcbs then SameRoots(k'.tcbs[t], k.tcbs[t]) else k'.tcbs[t] == NewTcb()
    ensures RootsLive(k, k'.tcbs[t])
  {
    hide NamesLive;
    hide IsRoot;
  }

  lemma RootsStayLive(k: Kernel, k': Kernel, tcb: Tcb)
    requires KeepsObjects(k, k') && KeepsVSpaces(k, k')
    ensures RootsLive(k, tcb) ==> RootsLive(k', tcb)
  {
    if RootsLive(k, tcb) {
      if tcb.addressSpace.Some? {
        var v :| v in k.vspaces && k.vspaces[v].root == tcb.addressSpace.value;
        assert v in k'.vspaces && k'.vspaces[v].root == tcb.addressSpace.value;
      }
      if tcb.cspace.Some? { assert Allocated(k, CNodeNamed(tcb.cspace.value)); }
      if tcb.schedContext.Some? { assert Allocated(k, SchedContextNamed(tcb.schedContext.value)); }
    }
  }

  lemma MappingsStayLive(k: Kernel, k': Kernel, fr: Frame)
    requires KeepsObjects(k, k')
    ensures MappingsLive(k, fr) ==> MappingsLive(k', fr)
  {
    if MappingsLive(k, fr) {
      forall i | 0 <= i < MAX_FRAME_MAPPINGS && fr.mappedAt[i].Some? ensures fr.mappedAt[i].value.0 in k'.vspaces {
        assert Allocated(k, VSpaceNamed(fr.mappedAt[i].value.0));
      }
    }
  }

  /** A frame's mappings after a trap name spaces that were there before it. */
  lemma HandlerKeepsMappings(k: Kernel, cur: TcbId, tr: Trap, i: FrameId)
    requires Normalized(k) && Calm(k) && NothingDangles(k) && i in Handle(k, cur, tr).k.frames
    ensures MappingsLive(k, Handle(k, cur, tr).k.frames[i])
  {
    var f := tr.frame;
    if IsIpc(f.syscall) {
      IpcHandlerTidy(k, cur, tr);
      hide Handle;
    } else {
      hide CNodes.Invoke;
      hide Admin.UntypedRetype;
      hide Admin.Configure;
      hide Frames.Invoke;
      if f.syscall == UNTYPED_RETYPE {
        RetypeKeepsMappings(k, cur, f, i);
      } else if f.syscall == FRAME_INVOKE {
        MapKeepsMappings(k, cur, f, tr.walk, i);
      } else {
        OtherFrames(k, cur, f);
      }
    }
  }

  lemma OtherFrames(k: Kernel, cur: TcbId, f: Context)
    ensures CNodes.Invoke(k, cur, f.Mr(0), f).k.frames == k.frames
    ensures Admin.Configure(k, cur, f.Mr(0), f).k.frames == k.frames
  {
    hide Admin.DecodeConfigure;
    hide CNodes.Operate;
  }

  /** The frames there were are as they were, and a new one is not mapped. */
  ghost predicate AddsUnmapped(k: Kernel, k': Kernel) {
    forall i | i in k'.frames ::
      if i in k.frames then k'.frames[i] == k.frames[i] else k'.frames[i].mappedAt == [None, None]
  }

  lemma AddFrameUnmapped(k: Kernel, paddr: Address, size: FrameSize)
    ensures var c := Admin.AddFrame(k, paddr, size); c.Made? || c.NotMade? ==> AddsUnmapped(k, c.k)
  {
  }

  lemma SameFramesUnmapped(k: Kernel, k': Kernel)
    requires k'.frames == k.frames
    ensures AddsUnmapped(k, k')
  {
  }

  lemma NewFrameUnmapped(k: Kernel, u: UntypedId, size: FrameSize)
    requires u in k.untypeds
    ensures var c := Admin.NewFrame(k, u, size); c.Made? || c.NotMade? ==> AddsUnmapped(k, c.k)
  {
    var b := BumpUntyped(k.untypeds[u], size.Bytes(), size.Bytes());
    hide BumpUntyped;
    hide Admin.AddFrame;
    if b.Bumped? {
      AddFrameUnmapped(k.(untypeds := k.untypeds[u := b.untyped]), b.paddr, size);
    }
  }

  lemma NewObjectFrames(k: Kernel, u: UntypedId, t: ObjectType)
    requires u in k.untypeds
    ensures var c := Admin.NewObject(k, u, t); c.Made? || c.NotMade? ==> AddsUnmapped(k, c.k)
  {
    hide AddsUnmapped;
    hide Admin.NewFrame;
    hide Pool.AllocIndex;
    var c := Admin.NewObject(k, u, t);
    match t
    case FrameSmallType => NewFrameUnmapped(k, u, Small);
    case FrameMegaType => NewFrameUnmapped(k, u, Mega);
    case _ =>
      if c.Made? || c.NotMade? { SameFramesUnmapped(k, c.k); }
  }

  lemma RetypeKeepsMappings(k: Kernel, cur: TcbId, f: Context, i: FrameId)
    requires NothingDangles(k) && i in Admin.UntypedRetype(k, cur, f.Mr(0), f).k.frames
    ensures MappingsLive(k, Admin.UntypedRetype(k, cur, f.Mr(0), f).k.frames[i])
  {
    hide NamesLive;
    hide LookupCap;
    var d := Admin.DecodeRetype(k, cur, f.Mr(0), f);
    if d.Success? {
      NewObjectFrames(k, d.value.untyped, d.value.objectType);
      hide Admin.NewObject;
    }
  }

  lemma MapKeepsMappings(k: Kernel, cur: TcbId, f: Context, w: Frames.Walk, i: FrameId)
    requires NothingDangles(k) && i in Frames.Invoke(k, cur, f.Mr(0), f, w).k.frames
    ensures MappingsLive(k, Frames.Invoke(k, cur, f.Mr(0), f, w).k.frames[i])
  {
    hide NamesLive;
    hide LookupCap;
    hide Frames.Map;
    hide Frames.Unmap;
    var d := Frames.ResolveFrame(k, cur, f.Mr(0));
    if d.Success? {
      MapMappings(k, cur, d.value, f, w, i);
      UnmapMappings(k, cur, d.value, f, i);
    }
  }

  lemma MapMappings(k: Kernel, cur: TcbId, id: FrameId, f: Context, w: Frames.Walk, i: FrameId)
    requires i in k.frames && MappingsLive(k, k.frames[i])
    ensures var k' := Frames.Map(k, cur, id, f, w).k; i in k'.frames && MappingsLive(k, k'.frames[i])
  {
    hide LookupCap;
    hide Frames.AllocSpares;
    hide Frames.ReleaseLast;
    hide Frames.FreeMapping;
  }

  lemma UnmapMappings(k: Kernel, cur: TcbId, id: FrameId, f: Context, i: FrameId)
    requires i in k.frames && MappingsLive(k, k.frames[i])
    ensures var k' := Frames.Unmap(k, cur, id, f).k; i in k'.frames && MappingsLive(k, k'.frames[i])
  {
    hide LookupCap;
  }

  lemma StepNothingDangles(k: Kernel, tr: Trap)
    requires Inv(k) && NothingDangles(k)
    ensures NothingDangles(Step(k, tr))
  {
    var k' := Step(k, tr);
    forall t | t in k'.tcbs ensures RootsLive(k', k'.tcbs[t]) {
      StepKeepsRoots(k, tr, t);
    }
    StepKeepsObjects(k, tr);
    forall i | i in k'.frames ensures MappingsLive(k', k'.frames[i]) {
      HandlerKeepsMappings(k, k.current.value, tr, i);
      MappingsStayLive(k, k', k'.frames[i]);
    }
    hide Handle;
    hide Dispatch;
    forall c | Holds(k', c) && Names(c).Some? ensures Allocated(k', Names(c).value) {
      StepDerives(k, tr, c);
    }
  }

  /** In every run, whatever a capability, a thread or a frame names has been allocated. */
  lemma {:induction false} RunNothingDangles(k: Kernel, trs: seq<Trap>)
    requires Inv(k) && NothingDangles(k)
    ensures NothingDangles(Run(k, trs))
    decreases |trs|
  {
    hide Dispatch;
    hide NothingDangles;
    if trs != [] {
      StepKeepsInv(k, trs[0]);
      StepNothingDangles(k, trs[0]);
      RunNothingDangles(Step(k, trs[0]), trs[1..]);
    }
  }

  /** So no lookup of a thread with a CSpace fails for want of the node. */
  lemma LookupsFindTheNode(k: Kernel, t: TcbId, p: CPtr)
    requires NothingDangles(k) && t in k.tcbs
    ensures LookupCap(k, t, p) == Failure(FailedLookup) <==> k.tcbs[t].cspace.None?
  {
  }

  /** What a lookup yields: the capability in the slot, or an error that tells a thread without
      CSpace from a slot that is empty or out of range. */
  lemma LookupIsExact(k: Kernel, t: TcbId, p: CPtr)
    requires NothingDangles(k) && t in k.tcbs && k.tcbs[t].cspace.Some?
    ensures k.tcbs[t].cspace.value in k.cnodes
    ensures var n, r := k.tcbs[t].cspace.value, LookupCap(k, t, p);
            && (r == Failure(InvalidCapability) <==> p >= CNODE_SLOTS || k.cnodes[n][p] == Null)
            && forall c :: r == Success(c) <==> InSlot(k, n, p, c)
  {
    assert RootsLive(k, k.tcbs[t]);
  }
}
