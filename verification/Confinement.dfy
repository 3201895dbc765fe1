/** Confinement: two groups of threads that share no capability node, no endpoint and no thread
    capability never exchange authority, whatever else they share and however long they run. */
module Confinement {
  import opened Words
  import opened Wrappers
  import opened Capabilities
  import opened Objects
  import opened State
  import opened Ipc
  import opened IpcEffects
  import opened Invariants
  import opened Effects
  import opened Syscalls
  import opened SlotEffects
  import opened AdminEffects
  import opened Upkeep
  import opened Authority
  import opened Fifo
  import Admin

  /** One of two groups: its nodes, its threads and its endpoints. All else is the other group. */
  datatype Group = Group(nodes: set<CNodeId>, threads: set<TcbId>, endpoints: set<EndpointId>)

  /** A capability on one side: the nodes, threads and endpoints it may name are on that side.
      Capabilities of other kinds carry no authority across and may be shared. */
  predicate Respects(g: Group, c: Capability, inside: bool) {
    match c
    case CNodeCap(n) => (n in g.nodes) == inside
    case TcbCap(t, _) => (t in g.threads) == inside
    case EndpointCap(e, _, _) => (e in g.endpoints) == inside
    case _ => true
  }

  /** The endpoint a thread is blocked at. */
  function BlockedAt(s: ThreadState): Option<EndpointId> {
    match s
    case BlockedSend(e, _, _, _, _) => Some(e)
    case BlockedRecv(e, _) => Some(e)
    case _ => None
  }

  predicate ThreadRespects(g: Group, t: TcbId, tcb: Tcb) {
    && (tcb.cspace.Some? ==> (tcb.cspace.value in g.nodes) == (t in g.threads))
    && (BlockedAt(tcb.state).Some? ==> (BlockedAt(tcb.state).value in g.endpoints) == (t in g.threads))
    && (tcb.replyTo.Some? ==> (tcb.replyTo.value in g.threads) == (t in g.threads))
  }

  predicate IsGroup(k: Kernel, g: Group) {
    g.nodes <= k.cnodes.Keys && g.threads <= k.tcbs.Keys && g.endpoints <= k.endpoints.Keys
  }

  /** No capability, no CSpace, no queue and no reply link leads across. */
  ghost predicate Separated(k: Kernel, g: Group) {
    && IsGroup(k, g)
    && (forall n, s, c :: InSlot(k, n, s, c) ==> Respects(g, c, n in g.nodes))
    && (forall t, c :: InFlight(k, t, c) ==> Respects(g, c, t in g.threads))
    && (forall t | t in k.tcbs :: ThreadRespects(g, t, k.tcbs[t]))
  }

  /** What is made during a trap belongs to the group of the thread that trapped. */
  function Grown(g: Group, k: Kernel, k': Kernel, mine: bool): Group {
    if mine then
      Group(g.nodes + (k'.cnodes.Keys - k.cnodes.Keys), g.threads + (k'.tcbs.Keys - k.tcbs.Keys),
            g.endpoints + (k'.endpoints.Keys - k.endpoints.Keys))
    else g
  }

  predicate RunsIn(k: Kernel, g: Group) {
    k.current.Some? && k.current.value in g.threads
  }

  // ------------------------------------------------------------- sides do not change

  lemma GrownIsGroup(g: Group, k: Kernel, k': Kernel, mine: bool)
    requires IsGroup(k, g) && KeepsObjects(k, k')
    ensures IsGroup(k', Grown(g, k, k', mine))
  {
    forall n | n in g.nodes ensures n in k'.cnodes { assert Allocated(k, CNodeNamed(n)); }
    forall t | t in g.threads ensures t in k'.tcbs { assert Allocated(k, TcbNamed(t)); }
    forall e | e in g.endpoints ensures e in k'.endpoints { assert Allocated(k, EndpointNamed(e)); }
  }

  lemma RespectKept(g: Group, k: Kernel, k': Kernel, mine: bool, c: Capability, inside: bool)
    requires Respects(g, c, inside) && (Names(c).Some? ==> Allocated(k, Names(c).value))
    ensures Respects(Grown(g, k, k', mine), c, inside)
  {
  }

  lemma NewRespects(g: Group, k: Kernel, k': Kernel, mine: bool, c: Capability)
    requires IsGroup(k, g) && NamesNew(k, k', c)
    ensures Respects(Grown(g, k, k', mine), c, mine)
  {
  }

  lemma DerivedRespects(g: Group, c: Capability, d: Capability, inside: bool)
    requires Derived(c, d) && Respects(g, d, inside)
    ensures Respects(g, c, inside)
  {
  }

  // -------------------------------------------------------- what a thread can reach

  /** Whatever a thread finds in its CSpace is on its side. */
  lemma LookupRespects(k: Kernel, g: Group, t: TcbId, p: CPtr)
    requires Separated(k, g)
    ensures var r := LookupCap(k, t, p); r.Success? ==> Respects(g, r.value, t in g.threads)
  {
    LookupIsHeld(k, t, p);
  }

  /** The endpoint that a call names is on the side of the thread that calls. */
  lemma ResolvedEndpoint(k: Kernel, cur: TcbId, f: Context)
    ensures var d := DecodeSend(k, cur, f.Mr(0), f);
            d.Success? ==> IsEndpointCap(LookupCap(k, cur, f.Mr(0)), d.value.endpoint)
    ensures var d := DecodeCall(k, cur, f.Mr(0), f);
            d.Success? ==> IsEndpointCap(LookupCap(k, cur, f.Mr(0)), d.value.endpoint)
    ensures var d := DecodeRecv(k, cur, f.Mr(0), f);
            d.Success? ==> IsEndpointCap(LookupCap(k, cur, f.Mr(0)), d.value.endpoint)
  {
    hide LookupCap;
  }

  predicate IsEndpointCap(r: Result<Capability, SyscallError>, e: EndpointId) {
    r.Success? && r.value.EndpointCap? && r.value.endpoint == e
  }

  lemma ServedPlaceRespects(k: Kernel, g: Group, f: Context)
    requires Separated(k, g) && k.current.Some?
    ensures var p := ServedPlace(k, k.current.value, f);
            p.Some? && (p.value.Senders? || p.value.Receivers?) ==>
              (p.value.endpoint in g.endpoints) == RunsIn(k, g)
  {
    hide LookupCap;
    hide DecodeSend;
    hide DecodeCall;
    hide DecodeRecv;
    ResolvedEndpoint(k, k.current.value, f);
    LookupRespects(k, g, k.current.value, f.Mr(0));
  }

  /** A thread blocked at an endpoint is on the endpoint's side. */
  lemma QueuedRespects(k: Kernel, g: Group, p: Place)
    requires Separated(k, g) && Placed(k) && QueueAt(k, p) != [] && (p.Senders? || p.Receivers?)
    ensures (QueueAt(k, p)[0] in g.threads) == (p.endpoint in g.endpoints)
  {
    HeadOf(k, p);
  }

  /** The partner of a call, and so the CSpace it may write to, is on the caller's side. */
  lemma PartnerRespects(k: Kernel, g: Group, f: Context, t: TcbId)
    requires Separated(k, g) && Placed(k) && k.current.Some? && Partner(k, k.current.value, f, t)
    requires f.syscall != SIGNAL
    ensures (t in g.threads) == RunsIn(k, g)
  {
    hide ServedPlace;
    if f.syscall == REPLY {
      assert ThreadRespects(g, k.current.value, k.tcbs[k.current.value]);
    } else {
      ServedPlaceRespects(k, g, f);
      ServedIsEndpoint(k, k.current.value, f);
      QueuedRespects(k, g, ServedPlace(k, k.current.value, f).value);
    }
  }

  lemma ServedIsEndpoint(k: Kernel, cur: TcbId, f: Context)
    requires f.syscall != SIGNAL
    ensures var p := ServedPlace(k, cur, f); p.Some? ==> p.value.Senders? || p.value.Receivers?
  {
    hide DecodeSend;
    hide DecodeCall;
    hide DecodeRecv;
  }

  // ------------------------------------------------------------- slots of one trap

  /** Every slot on a side holds a capability of that side after the trap, derived from one that
      this side held, or naming an object that the trapping thread of this side has made. */
  ghost predicate HeldIn(k: Kernel, g: Group, inside: bool, c: Capability) {
    || (exists n, s :: InSlot(k, n, s, c) && (n in g.nodes) == inside)
    || (exists t :: InFlight(k, t, c) && (t in g.threads) == inside)
  }

  ghost predicate OriginIn(k: Kernel, g: Group, inside: bool, c: Capability) {
    exists d :: HeldIn(k, g, inside, d) && Derived(c, d)
  }

  lemma SlotIsOrigin(k: Kernel, g: Group, n: CNodeId, s: Word, d: Capability, c: Capability)
    requires InSlot(k, n, s, d) && Derived(c, d)
    ensures OriginIn(k, g, n in g.nodes, c)
  {
    assert HeldIn(k, g, n in g.nodes, d);
  }

  lemma LookupIsOrigin(k: Kernel, g: Group, t: TcbId, p: CPtr)
    requires Separated(k, g)
    ensures var r := LookupCap(k, t, p); r.Success? ==> OriginIn(k, g, t in g.threads, r.value)
  {
    LookupIsHeld(k, t, p);
    var r := LookupCap(k, t, p);
    if r.Success? {
      var n := k.tcbs[t].cspace.value;
      assert (n in g.nodes) == (t in g.threads);
      assert Derived(r.value, r.value);
      SlotIsOrigin(k, g, n, p, r.value, r.value);
    }
  }

  /** Where a capability in a slot comes from, on the side of the slot. */
  ghost predicate ComesFromSide(k: Kernel, g: Group, k': Kernel, n: CNodeId, c: Capability) {
    || (n in k.cnodes && OriginIn(k, g, n in g.nodes, c))
    || (NamesNew(k, k', c) && n in k.cnodes && (n in g.nodes) == RunsIn(k, g))
  }

  lemma WriteStaysInside(x: SlotEffect, k: Kernel, g: Group, f: Context, k': Kernel, n: CNodeId, s: Word, c: Capability)
    requires Separated(k, g) && Placed(k) && k.current.Some?
    requires Writes(x, k.current.value, f, k, k') && WrittenBy(f.syscall, x) && InSlot(k', n, s, c)
    ensures ComesFromSide(k, g, k', n, c)
  {
    if InSlot(k, n, s, c) {
      assert Derived(c, c);
      SlotIsOrigin(k, g, n, s, c, c);
    } else {
      NewSlotStaysInside(x, k, g, f, k', n, s, c);
    }
  }

  lemma NewSlotStaysInside(x: SlotEffect, k: Kernel, g: Group, f: Context, k': Kernel, n: CNodeId, s: Word, c: Capability)
    requires Separated(k, g) && Placed(k) && k.current.Some?
    requires Writes(x, k.current.value, f, k, k') && WrittenBy(f.syscall, x) && InSlot(k', n, s, c)
    requires !InSlot(k, n, s, c)
    ensures ComesFromSide(k, g, k', n, c)
  {
    hide Partner;
    hide Placed;
    hide Separated;
    hide OriginIn;
    hide ComesFromSide;
    match x
    case Untouched =>
    case Granted(to, w) =>
      GrantedStaysInside(k, g, f, to, w, k');
    case Collected(sender, w) =>
      CollectedStaysInside(k, g, f, sender, w, k');
      OriginStaysInside(k, g, k', w.node, w.cap);
    case Installed(w, source, from) =>
      InstalledStaysInside(k, g, f, w, source, from, k');
      OriginStaysInside(k, g, k', w.node, w.cap);
    case Relocated(w, from) =>
      SlotIsOrigin(k, g, w.node, from, w.cap, w.cap);
      OriginStaysInside(k, g, k', w.node, w.cap);
    case Cleared(_, _) =>
    case Endowed(w) =>
      EndowedStaysInside(k, g, f, w, k', n, s, c);
  }

  lemma OriginStaysInside(k: Kernel, g: Group, k': Kernel, n: CNodeId, c: Capability)
    requires n in k.cnodes && OriginIn(k, g, n in g.nodes, c)
    ensures ComesFromSide(k, g, k', n, c)
  {
  }

  lemma GrantedStaysInside(k: Kernel, g: Group, f: Context, to: TcbId, w: SlotWrite, k': Kernel)
    requires Separated(k, g) && Placed(k) && k.current.Some? && f.syscall != SIGNAL
    requires Grants(k.current.value, f, to, w, k, k')
    ensures ComesFromSide(k, g, k', w.node, w.cap)
  {
    hide Partner;
    hide OriginIn;
    hide Placed;
    PartnerRespects(k, g, f, to);
    assert ThreadRespects(g, to, k.tcbs[to]);
    LookupIsOrigin(k, g, k.current.value, f.Mr(1));
  }

  lemma EndowedStaysInside(k: Kernel, g: Group, f: Context, w: SlotWrite, k': Kernel, n: CNodeId, s: Word, c: Capability)
    requires Separated(k, g) && k.current.Some?
    requires Endows(k.current.value, f, w, k, k') && InSlot(k', n, s, c) && !InSlot(k, n, s, c)
    ensures ComesFromSide(k, g, k', n, c)
  {
    var cur := k.current.value;
    EndowedSlot(w, cur, f, k, k', n, s, c);
    EndowedNode(w, cur, f, k, k', n, s, c);
    assert ThreadRespects(g, cur, k.tcbs[cur]);
  }

  lemma EndowedNode(w: SlotWrite, cur: TcbId, f: Context, k: Kernel, k': Kernel, n: CNodeId, s: Word, c: Capability)
    requires Endows(cur, f, w, k, k') && InSlot(k', n, s, c) && !InSlot(k, n, s, c)
    ensures n == w.node
  {
    var m := k'.cnodes[w.node := k.cnodes[w.node]];
    assert n in m;
  }

  lemma CollectedStaysInside(k: Kernel, g: Group, f: Context, sender: TcbId, w: SlotWrite, k': Kernel)
    requires Separated(k, g) && Placed(k) && k.current.Some? && f.syscall == RECV
    requires Collects(k.current.value, f, sender, w, k, k')
    ensures w.node in k.cnodes && OriginIn(k, g, w.node in g.nodes, w.cap)
  {
    PartnerRespects(k, g, f, sender);
    hide Partner;
    assert ThreadRespects(g, k.current.value, k.tcbs[k.current.value]);
    assert HeldIn(k, g, sender in g.threads, w.cap) && Derived(w.cap, w.cap);
  }

  lemma InstalledStaysInside(k: Kernel, g: Group, f: Context, w: SlotWrite, source: CNodeId, from: Word, k': Kernel)
    requires Separated(k, g) && k.current.Some?
    requires Installs(k.current.value, f, w, source, from, k, k')
    ensures w.node in k.cnodes && OriginIn(k, g, w.node in g.nodes, w.cap)
  {
    LookupRespects(k, g, k.current.value, f.Mr(0));
    LookupRespects(k, g, k.current.value, f.Mr(1));
    hide LookupCap;
    assert InSlot(k, source, from, k.cnodes[source][from]);
    SlotIsOrigin(k, g, source, from, k.cnodes[source][from], w.cap);
  }

  lemma StepStaysInside(k: Kernel, g: Group, tr: Trap, n: CNodeId, s: Word, c: Capability)
    requires Inv(k) && Separated(k, g) && InSlot(Step(k, tr), n, s, c)
    ensures ComesFromSide(k, g, Step(k, tr), n, c)
  {
    hide Handle;
    HandlerSlots(k, k.current.value, tr);
    var k' := Handle(k, k.current.value, tr).k;
    var x :| Writes(x, k.current.value, tr.frame, k, k') && WrittenBy(tr.frame.syscall, x);
    WriteStaysInside(x, k, g, tr.frame, k', n, s, c);
  }

  // ----------------------------------------------------------- threads of one trap

  lemma ThreadRespectKept(g: Group, k: Kernel, k': Kernel, mine: bool, t: TcbId, tcb: Tcb)
    requires t in k.tcbs && ThreadRespects(g, t, tcb)
    requires tcb.cspace.Some? ==> tcb.cspace.value in k.cnodes
    requires BlockedAt(tcb.state).Some? ==> BlockedAt(tcb.state).value in k.endpoints
    requires tcb.replyTo.Some? ==> tcb.replyTo.value in k.tcbs
    ensures ThreadRespects(Grown(g, k, k', mine), t, tcb)
  {
  }

  /** The part of a thread that may lead to the other side, as a trap leaves it: its CSpace, the
      endpoint it is blocked at and its reply link all lead to where the thread is. */
  ghost predicate LeadsInside(k: Kernel, g: Group, t: TcbId, tcb: Tcb) {
    && t in k.tcbs && ThreadRespects(g, t, tcb)
    && (tcb.cspace.Some? ==> tcb.cspace.value in k.cnodes)
    && (BlockedAt(tcb.state).Some? ==> BlockedAt(tcb.state).value in k.endpoints)
    && (tcb.replyTo.Some? ==> tcb.replyTo.value in k.tcbs)
  }

  lemma OldThreadLeadsInside(k: Kernel, g: Group, t: TcbId)
    requires Inv(k) && Separated(k, g) && NothingDangles(k) && t in k.tcbs
    ensures LeadsInside(k, g, t, k.tcbs[t])
  {
    assert ThreadRespects(g, t, k.tcbs[t]) && RootsLive(k, k.tcbs[t]);
    var s, r := k.tcbs[t].state, k.tcbs[t].replyTo;
    if s.BlockedSend? { assert t in QueueAt(k, Senders(s.sendEndpoint)); }
    if s.BlockedRecv? { assert t in QueueAt(k, Receivers(s.recvEndpoint)); }
    if r.Some? { assert Owes(k, t, r.value); }
  }

  /** A thread that parks at an endpoint has named it. */
  lemma ParksAtNamedEndpoint(k: Kernel, tr: Trap, p: Place)
    requires Inv(k) && (p.Senders? || p.Receivers?)
    requires QueueAt(Step(k, tr), p) == QueueAt(k, p) + [k.current.value]
    requires if p.Senders? then tr.frame.syscall == SEND || tr.frame.syscall == CALL else tr.frame.syscall == RECV
    ensures p.endpoint in k.endpoints && IsEndpointCap(LookupCap(k, k.current.value, tr.frame.Mr(0)), p.endpoint)
  {
    hide Send;
    hide Call;
    hide Recv;
    hide LookupCap;
    hide DecodeSend;
    hide DecodeCall;
    hide DecodeRecv;
    var cur, f := k.current.value, tr.frame;
    IpcHandlerTidy(k, cur, tr);
    hide Inv;
    ResolvedEndpoint(k, cur, f);
    SendOnly(k, cur, f, false);
    CallOnly(k, cur, f);
    RecvOnly(k, cur, f);
    QueueGrows(k, Step(k, tr), p, cur);
  }

  lemma QueueGrows(k: Kernel, k': Kernel, p: Place, t: TcbId)
    requires (p.Senders? || p.Receivers?) && QueueAt(k', p) == QueueAt(k, p) + [t]
    ensures k' != k
    ensures p.endpoint in k.endpoints && p.endpoint in k'.endpoints ==> k'.endpoints[p.endpoint] != k.endpoints[p.endpoint]
    ensures p.endpoint in k'.endpoints
  {
    assert |QueueAt(k', p)| == |QueueAt(k, p)| + 1;
  }

  // What each move leaves in a thread that was there before.

  lemma ServedSide(k: Kernel, g: Group, tr: Trap, p: Place)
    requires Inv(k) && Separated(k, g) && (p.Senders? || p.Receivers?)
    requires QueueAt(k, p) != [] && Departure(k, Step(k, tr), p) != []
    ensures (QueueAt(k, p)[0] in g.threads) == RunsIn(k, g)
  {
    hide Handle;
    hide ServedPlace;
    LeaverIsServed(k, tr, p);
    ServedPlaceRespects(k, g, tr.frame);
    QueuedRespects(k, g, p);
  }

  /** A new reply link joins the running thread and the head of an endpoint's queue. */
  lemma NewLinkServes(x: Effect, k: Kernel, f: Context, k': Kernel, f': Context, h: TcbId, t: TcbId)
    requires Does(x, k, f, k', f')
    requires Owes(k', h, t) && !Owes(k, h, t)
    ensures (x.AcceptedCall? || x.Called?) && k.current.Some? && h in k.tcbs && t in k.tcbs
    ensures var p := LinkedAt(x);
            LeavesHead(k, k', p, x.t) && {h, t} == {k.current.value, x.t}
            && PlaceIn(k', x.t) == None
  {
    hide QueueAt;
    hide Delivery;
  }

  /** The queue the head leaves when a reply link is made. */
  ghost function LinkedAt(x: Effect): Place
    requires x.AcceptedCall? || x.Called?
  {
    if x.AcceptedCall? then Senders(x.e) else Receivers(x.e)
  }

  /** A new reply link stays on one side. */
  lemma NewLinkStaysInside(x: Effect, k: Kernel, g: Group, tr: Trap, k': Kernel, f': Context, h: TcbId, t: TcbId)
    requires Inv(k) && Separated(k, g) && k' == Step(k, tr) && Does(x, k, tr.frame, k', f')
    requires Owes(k', h, t) && !Owes(k, h, t)
    ensures h in k.tcbs && t in k.tcbs && (h in g.threads) == (t in g.threads)
  {
    hide Dispatch;
    hide Does;
    hide Separated;
    hide Inv;
    NewLinkServes(x, k, tr.frame, k', f', h, t);
    hide QueueAt;
    ServedSide(k, g, tr, LinkedAt(x));
    assert h in {k.current.value, x.t} && t in {k.current.value, x.t};
  }

  /** A thread that blocks at an endpoint was blocked there, or runs and has named it. */
  lemma BlocksInside(x: Effect, k: Kernel, g: Group, tr: Trap, k': Kernel, f': Context, t: TcbId)
    requires Inv(k) && Separated(k, g) && k' == Step(k, tr)
    requires Does(x, k, tr.frame, k', f') && Causes(tr.frame.syscall, x)
    requires t in k.tcbs && t in k'.tcbs && BlockedAt(k'.tcbs[t].state).Some?
    ensures var e := BlockedAt(k'.tcbs[t].state).value;
            BlockedAt(k.tcbs[t].state) == Some(e)
            || (e in k.endpoints && (e in g.endpoints) == (t in g.threads))
  {
    hide Dispatch;
    if BlockedAt(k.tcbs[t].state) != BlockedAt(k'.tcbs[t].state) {
      BlocksWhenParked(x, k, tr.frame, k', f', t);
      ParksAtNamedEndpoint(k, tr, x.p);
      LookupRespects(k, g, t, tr.frame.Mr(0));
    }
  }

  lemma BlocksWhenParked(x: Effect, k: Kernel, f: Context, k': Kernel, f': Context, t: TcbId)
    requires Does(x, k, f, k', f') && t in k.tcbs && t in k'.tcbs
    requires BlockedAt(k'.tcbs[t].state).Some? && BlockedAt(k.tcbs[t].state) != BlockedAt(k'.tcbs[t].state)
    ensures x.Parked? && (x.p.Senders? || x.p.Receivers?) && k.current == Some(t)
    ensures x.p.endpoint == BlockedAt(k'.tcbs[t].state).value && QueueAt(k', x.p) == QueueAt(k, x.p) + [t]
  {
  }

  /** Configuration gives a thread of a side roots of that side. */
  lemma ConfiguredInside(k: Kernel, g: Group, f: Context, t: TcbId)
    requires Separated(k, g) && NothingDangles(k) && k.current.Some? && t in k.tcbs
    ensures var k' := Admin.Configure(k, k.current.value, f.Mr(0), f).k;
            && t in k'.tcbs
            && var c := k'.tcbs[t].cspace;
               c == k.tcbs[t].cspace || (c.Some? && c.value in k.cnodes && (c.value in g.nodes) == (t in g.threads))
  {
    var cur := k.current.value;
    LookupRespects(k, g, cur, f.Mr(0));
    LookupRespects(k, g, cur, f.Mr(1));
    LookupIsHeld(k, cur, f.Mr(1));
    hide Separated;
    hide LookupCap;
    hide Holds;
    hide Admin.ApplyConfiguration;
    var d := Admin.DecodeConfigure(k, cur, f.Mr(0), f);
    if d.Success? {
      assert Allocated(k, CNodeNamed(d.value.cspace)) by {
        assert Names(CNodeCap(d.value.cspace)) == Some(CNodeNamed(d.value.cspace));
      }
      ConfiguredRoots(k, d.value, t);
    }
  }

  lemma StepKeepsRootInside(x: Effect, k: Kernel, g: Group, tr: Trap, k': Kernel, f': Context, t: TcbId)
    requires Inv(k) && Separated(k, g) && NothingDangles(k) && k' == Step(k, tr)
    requires Does(x, k, tr.frame, k', f') && Causes(tr.frame.syscall, x) && t in k.tcbs && t in k'.tcbs
    ensures var c := k'.tcbs[t].cspace;
            c == k.tcbs[t].cspace || (c.Some? && c.value in k.cnodes && (c.value in g.nodes) == (t in g.threads))
  {
    hide Dispatch;
    hide Admin.Configure;
    if x.Configured? || x.Admitted? {
      ConfigureIsHandled(k, tr);
      ConfiguredInside(k, g, tr.frame, t);
    } else {
      MoveKeepsRoots(x, k, tr.frame, k', f', t);
    }
  }

  lemma StepThreadLeadsInside(k: Kernel, g: Group, tr: Trap, t: TcbId)
    requires Inv(k) && Separated(k, g) && NothingDangles(k) && t in k.tcbs && t in Step(k, tr).tcbs
    ensures LeadsInside(k, g, t, Step(k, tr).tcbs[t])
  {
    hide Handle;
    DispatchMoves(k, tr);
    var (k', f') := Dispatch(k, tr);
    var x :| Does(x, k, tr.frame, k', f') && Causes(tr.frame.syscall, x);
    OldThreadLeadsInside(k, g, t);
    StepKeepsRootInside(x, k, g, tr, k', f', t);
    if BlockedAt(k'.tcbs[t].state).Some? { BlocksInside(x, k, g, tr, k', f', t); }
    var r := k'.tcbs[t].replyTo;
    if r.Some? && !Owes(k, t, r.value) {
      assert Owes(k', t, r.value);
      NewLinkStaysInside(x, k, g, tr, k', f', t, r.value);
    }
    hide Separated;
    hide Does;
    hide Inv;
    hide NothingDangles;
    hide Dispatch;
  }

  /** A thread made by the trap leads nowhere yet. */
  lemma NewThreadLeadsNowhere(k: Kernel, tr: Trap, t: TcbId)
    requires Inv(k) && t !in k.tcbs && t in Step(k, tr).tcbs
    ensures Step(k, tr).tcbs[t] == NewTcb()
  {
    hide Handle;
    DispatchMoves(k, tr);
    var (k', f') := Dispatch(k, tr);
    var x :| Does(x, k, tr.frame, k', f') && Causes(tr.frame.syscall, x);
    NewThreadMove(x, k, tr.frame, k', f', t);
  }

  lemma NewThreadMove(x: Effect, k: Kernel, f: Context, k': Kernel, f': Context, t: TcbId)
    requires Does(x, k, f, k', f') && t !in k.tcbs && t in k'.tcbs
    ensures k'.tcbs[t] == NewTcb()
  {
  }

  // ---------------------------------------------------------------------- one trap

  lemma OriginRespects(k: Kernel, g: Group, inside: bool, c: Capability)
    requires Separated(k, g) && NamesLive(k) && OriginIn(k, g, inside, c)
    ensures Respects(g, c, inside) && (Names(c).Some? ==> Allocated(k, Names(c).value))
  {
    var d :| HeldIn(k, g, inside, d) && Derived(c, d);
    assert Holds(k, d) by { HeldSomewhere(k, g, inside, d); }
    HeldRespects(k, g, inside, d);
    DerivedRespects(g, c, d, inside);
  }

  lemma HeldSomewhere(k: Kernel, g: Group, inside: bool, d: Capability)
    requires HeldIn(k, g, inside, d)
    ensures Holds(k, d)
  {
  }

  lemma HeldRespects(k: Kernel, g: Group, inside: bool, d: Capability)
    requires Separated(k, g) && HeldIn(k, g, inside, d)
    ensures Respects(g, d, inside)
  {
  }

  /** What a side holds after a trap comes from what it held, or from a retype by one of its own. */
  lemma StepOrigin(k: Kernel, g: Group, tr: Trap, inside: bool, c: Capability)
    requires Inv(k) && Separated(k, g)
    requires HeldIn(Step(k, tr), Grown(g, k, Step(k, tr), RunsIn(k, g)), inside, c)
    ensures OriginIn(k, g, inside, c) || (NamesNew(k, Step(k, tr), c) && inside == RunsIn(k, g))
  {
    hide Handle;
    var k' := Step(k, tr);
    var g' := Grown(g, k, k', RunsIn(k, g));
    if n, s :| InSlot(k', n, s, c) && (n in g'.nodes) == inside {
      StepStaysInside(k, g, tr, n, s, c);
    } else {
      var t :| InFlight(k', t, c) && (t in g'.threads) == inside;
      StepInFlight(k, tr, t, c);
      if InFlight(k, t, c) {
        assert HeldIn(k, g, t in g.threads, c) && Derived(c, c);
      } else {
        LookupIsOrigin(k, g, t, tr.frame.Mr(1));
      }
    }
  }

  lemma OriginStays(k: Kernel, g: Group, k': Kernel, inside: bool, c: Capability)
    requires Separated(k, g) && NamesLive(k)
    requires OriginIn(k, g, inside, c) || (NamesNew(k, k', c) && inside == RunsIn(k, g))
    ensures Respects(Grown(g, k, k', RunsIn(k, g)), c, inside)
  {
    if OriginIn(k, g, inside, c) {
      OriginRespects(k, g, inside, c);
      RespectKept(g, k, k', RunsIn(k, g), c, inside);
    } else {
      NewRespects(g, k, k', RunsIn(k, g), c);
    }
  }

  lemma SlotsStaySeparated(k: Kernel, g: Group, tr: Trap, n: CNodeId, s: Word, c: Capability)
    requires Inv(k) && Separated(k, g) && NamesLive(k) && InSlot(Step(k, tr), n, s, c)
    ensures var g' := Grown(g, k, Step(k, tr), RunsIn(k, g)); Respects(g', c, n in g'.nodes)
  {
    hide Handle;
    var k' := Step(k, tr);
    var g' := Grown(g, k, k', RunsIn(k, g));
    assert HeldIn(k', g', n in g'.nodes, c);
    StepOrigin(k, g, tr, n in g'.nodes, c);
    OriginStays(k, g, k', n in g'.nodes, c);
  }

  lemma FlightStaysSeparated(k: Kernel, g: Group, tr: Trap, t: TcbId, c: Capability)
    requires Inv(k) && Separated(k, g) && NamesLive(k) && InFlight(Step(k, tr), t, c)
    ensures var g' := Grown(g, k, Step(k, tr), RunsIn(k, g)); Respects(g', c, t in g'.threads)
  {
    hide Handle;
    var k' := Step(k, tr);
    var g' := Grown(g, k, k', RunsIn(k, g));
    assert HeldIn(k', g', t in g'.threads, c);
    StepOrigin(k, g, tr, t in g'.threads, c);
    OriginStays(k, g, k', t in g'.threads, c);
  }

  lemma ThreadsStaySeparated(k: Kernel, g: Group, tr: Trap, t: TcbId)
    requires Inv(k) && Separated(k, g) && NothingDangles(k) && t in Step(k, tr).tcbs
    ensures ThreadRespects(Grown(g, k, Step(k, tr), RunsIn(k, g)), t, Step(k, tr).tcbs[t])
  {
    hide Dispatch;
    if t in k.tcbs {
      StepThreadLeadsInside(k, g, tr, t);
      ThreadRespectKept(g, k, Step(k, tr), RunsIn(k, g), t, Step(k, tr).tcbs[t]);
    } else {
      NewThreadLeadsNowhere(k, tr, t);
    }
  }

  /** Every trap keeps the two groups apart. */
  lemma StepKeepsSeparated(k: Kernel, g: Group, tr: Trap)
    requires Inv(k) && Separated(k, g) && NothingDangles(k)
    ensures Separated(Step(k, tr), Grown(g, k, Step(k, tr), RunsIn(k, g)))
  {
    hide Dispatch;
    var k' := Step(k, tr);
    var g' := Grown(g, k, k', RunsIn(k, g));
    StepKeepsObjects(k, tr);
    GrownIsGroup(g, k, k', RunsIn(k, g));
    forall n, s, c | InSlot(k', n, s, c) ensures Respects(g', c, n in g'.nodes) {
      SlotsStaySeparated(k, g, tr, n, s, c);
    }
    forall t, c | InFlight(k', t, c) ensures Respects(g', c, t in g'.threads) {
      FlightStaysSeparated(k, g, tr, t, c);
    }
    forall t | t in k'.tcbs ensures ThreadRespects(g', t, k'.tcbs[t]) {
      ThreadsStaySeparated(k, g, tr, t);
    }
  }

  // --------------------------------------------------------------------- every run

  /** The group after a run, with what its threads have made. */
  function GroupAfter(k: Kernel, trs: seq<Trap>, g: Group): Group
    decreases |trs|
  {
    if trs == [] then g
    else GroupAfter(Step(k, trs[0]), trs[1..], Grown(g, k, Step(k, trs[0]), RunsIn(k, g)))
  }

  lemma {:induction false} RunKeepsSeparated(k: Kernel, trs: seq<Trap>, g: Group)
    requires Inv(k) && Separated(k, g) && NothingDangles(k)
    ensures Separated(Run(k, trs), GroupAfter(k, trs, g))
    decreases |trs|
  {
    hide Dispatch;
    hide Separated;
    hide NothingDangles;
    if trs != [] {
      StepKeepsInv(k, trs[0]);
      StepNothingDangles(k, trs[0]);
      StepKeepsSeparated(k, g, trs[0]);
      RunKeepsSeparated(Step(k, trs[0]), trs[1..], Grown(g, k, Step(k, trs[0]), RunsIn(k, g)));
    }
  }

  /** Over any run, whatever a side holds to an object that existed at the start derives from what
      the same side held at the start. */
  lemma {:induction false} RunStaysInside(k: Kernel, trs: seq<Trap>, g: Group, inside: bool, c: Capability)
    requires Inv(k) && Separated(k, g) && NothingDangles(k)
    requires HeldIn(Run(k, trs), GroupAfter(k, trs, g), inside, c)
    requires Names(c).Some? && Allocated(k, Names(c).value)
    ensures OriginIn(k, g, inside, c)
    decreases |trs|
  {
    hide Dispatch;
    hide Separated;
    hide NothingDangles;
    if trs == [] {
      assert Derived(c, c);
    } else {
      var k1, g1 := Step(k, trs[0]), Grown(g, k, Step(k, trs[0]), RunsIn(k, g));
      StepKeepsInv(k, trs[0]);
      StepNothingDangles(k, trs[0]);
      StepKeepsSeparated(k, g, trs[0]);
      StepKeepsObjects(k, trs[0]);
      RunStaysInside(k1, trs[1..], g1, inside, c);
      var d :| HeldIn(k1, g1, inside, d) && Derived(c, d);
      StepOrigin(k, g, trs[0], inside, d);
      OriginOfOriginIn(k, g, inside, c, d);
    }
  }

  lemma OriginOfOriginIn(k: Kernel, g: Group, inside: bool, c: Capability, d: Capability)
    requires Derived(c, d) && OriginIn(k, g, inside, d)
    ensures OriginIn(k, g, inside, c)
  {
    var e :| HeldIn(k, g, inside, e) && Derived(d, e);
    assert Derived(c, e);
  }

  /** Somebody of the side holds right `r` to object `o`. */
  ghost predicate SideReaches(k: Kernel, g: Group, inside: bool, o: ObjectName, r: Right) {
    exists c :: HeldIn(k, g, inside, c) && Names(c) == Some(o) && r in c.Rights()
  }

  /** No authority crosses between separated groups: after any run neither group has a right to an
      existing object that this same group did not have before. */
  lemma GroupsExchangeNothing(k: Kernel, trs: seq<Trap>, g: Group, inside: bool, o: ObjectName, r: Right)
    requires Inv(k) && Separated(k, g) && NothingDangles(k) && Allocated(k, o)
    requires SideReaches(Run(k, trs), GroupAfter(k, trs, g), inside, o, r)
    ensures SideReaches(k, g, inside, o, r)
  {
    hide Run;
    hide GroupAfter;
    hide Separated;
    hide NothingDangles;
    hide Inv;
    var c :| HeldIn(Run(k, trs), GroupAfter(k, trs, g), inside, c) && Names(c) == Some(o) && r in c.Rights();
    RunStaysInside(k, trs, g, inside, c);
    var d :| HeldIn(k, g, inside, d) && Derived(c, d);
  }
}
