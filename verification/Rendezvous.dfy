/** What a rendezvous delivers, and that it does not matter which side arrives first. */
module Rendezvous {
  import opened Limits
  import opened Words
  import opened Wrappers
  import opened Capabilities
  import opened Objects
  import opened State
  import opened Ipc
  import opened Invariants
  import opened Effects
  import opened Syscalls
  import IpcEffects

  // ------------------------------------------------------------------- contents

  /** The registers of a received message: the badge of the capability the sender used, then its
      three payload words, of which the first reads zero if it named a capability or a slot. */
  predicate Carries(c: Context, badge: Word, from: Context, mr1Spent: bool) {
    && c.mrs == [badge, if mr1Spent then 0 else from.mrs[1], from.mrs[2], from.mrs[3]]
    && c.tag.(error := from.tag.error) == from.tag
  }

  /** The attached capability, if any, is in the slot that was registered for it. */
  ghost predicate Landed(k: Kernel, k': Kernel, t: TcbId, dest: Option<CPtr>, extra: Option<Capability>) {
    if extra.None? then k'.cnodes == k.cnodes
    else
      && dest.Some? && dest.value < CNODE_SLOTS
      && t in k.tcbs && k.tcbs[t].cspace.Some? && k.tcbs[t].cspace.value in k.cnodes
      && var n := k.tcbs[t].cspace.value;
         && k.cnodes[n][dest.value] == Null
         && k'.cnodes == k.cnodes[n := k.cnodes[n][dest.value := extra.value]]
  }

  lemma TransferLands(k: Kernel, t: TcbId, dest: Option<CPtr>, extra: Option<Capability>)
    ensures var r := Transfer(k, t, dest, extra);
            && (r.Success? ==> r.value == k.(cnodes := r.value.cnodes) && Landed(k, r.value, t, dest, extra))
            && (extra.None? ==> r.Success?)
  {
  }

  lemma LandedFrame(k: Kernel, k1: Kernel, k': Kernel, t: TcbId, dest: Option<CPtr>, extra: Option<Capability>)
    requires Landed(k, k1, t, dest, extra) && k'.cnodes == k1.cnodes
    ensures Landed(k, k', t, dest, extra)
  {
  }

  /** A `Send` or `Call` that finds a receiver waiting delivers its message into the receiver's
      saved registers, and the attached capability into the slot it registered. */
  lemma MessageReachesReceiver(k: Kernel, m: Message, f: Context, q: seq<TcbId>, k': Kernel)
    requires q != [] && q[0] in k.tcbs && k.tcbs[q[0]].state.BlockedRecv?
    requires DeliverToReceiver(k, m, f.tag, q) == Success(k')
    requires m.payload == PayloadWords(f, m.extraCap.Some? || m.replyDestSlot.Some?)
    ensures q[0] in k'.tcbs && k'.tcbs[q[0]].context.tag == f.tag
    ensures Carries(k'.tcbs[q[0]].context, m.badge, f, m.extraCap.Some? || m.replyDestSlot.Some?)
    ensures Landed(k, k', q[0], k.tcbs[q[0]].state.recvDestSlot, m.extraCap)
  {
    var dest := k.tcbs[q[0]].state.recvDestSlot;
    TransferLands(k, q[0], dest, m.extraCap);
    var k1 := Transfer(k, q[0], dest, m.extraCap).value;
    DepositedIn(k1, m, f, q);
    LandedFrame(k, k1, k', q[0], dest, m.extraCap);
  }

  /** The head receiver's registers after the delivery. */
  lemma DepositedIn(k1: Kernel, m: Message, f: Context, q: seq<TcbId>)
    requires q != [] && q[0] in k1.tcbs
    ensures var k2 := SetEndpointQueue(k1, m.endpoint, Normalize(RecvQueue(q[1..])));
            var k' := DeliverPayload(k2, q[0], m.badge, m.payload, f.tag);
            && k'.cnodes == k1.cnodes && q[0] in k'.tcbs
            && k'.tcbs[q[0]].context == k1.tcbs[q[0]].context.Deliver(m.badge, m.payload, f.tag)
  {
    hide Normalize;
    hide SetEndpointQueue;
    hide Context.Deliver;
    var e := Normalize(RecvQueue(q[1..]));
    QueueWriteOnly(k1, m.endpoint, e);
    DeliverPayloadIn(SetEndpointQueue(k1, m.endpoint, e), q[0], m.badge, m.payload, f.tag);
    hide DeliverPayload;
  }

  lemma QueueWriteOnly(k: Kernel, e: EndpointId, q: EndpointQueue)
    ensures var k' := SetEndpointQueue(k, e, q);
            k' == k.(endpoints := if e in k.endpoints then k.endpoints[e := Endpoint(q)] else k.endpoints)
  {
  }

  lemma DeliverPayloadIn(k: Kernel, t: TcbId, badge: Word, p: Payload, tag: MessageTag)
    requires t in k.tcbs
    ensures var k' := DeliverPayload(k, t, badge, p, tag);
            k'.cnodes == k.cnodes && t in k'.tcbs && k'.tcbs[t].context == k.tcbs[t].context.Deliver(badge, p, tag)
  {
    hide Context.Deliver;
  }

  /** A `Recv` that finds a sender waiting returns with the message the sender blocked on. */
  lemma ReceiverTakesMessage(k: Kernel, cur: TcbId, f: Context, id: EndpointId, dest: Option<CPtr>, q: seq<TcbId>)
    requires q != [] && q[0] in k.tcbs && k.tcbs[q[0]].state.BlockedSend?
    ensures var o := ReceiveFromSender(k, cur, f, id, dest, q);
            var s := k.tcbs[q[0]].state;
            o.status.Ok? ==>
              && Carries(o.frame, s.badge, k.tcbs[q[0]].context, s.extraCap.Some?)
              && !o.frame.tag.error && SameHiddenRegisters(o.frame, f)
              && Landed(k, o.k, cur, dest, s.extraCap)
  {
    var s := k.tcbs[q[0]].state;
    TransferLands(k, cur, dest, s.extraCap);
    var t := Transfer(k, cur, dest, s.extraCap);
    if t.Success? {
      ReleaseKeepsSlots(t.value, cur, id, q, s.isCall, s.replyDestSlot);
      LandedFrame(k, t.value, ReleaseSender(t.value, cur, id, q, s.isCall, s.replyDestSlot), cur, dest, s.extraCap);
    }
  }

  lemma ReleaseKeepsSlots(k: Kernel, cur: TcbId, id: EndpointId, q: seq<TcbId>, isCall: bool, slot: Option<CPtr>)
    requires q != []
    ensures ReleaseSender(k, cur, id, q, isCall, slot).cnodes == k.cnodes
  {
    assert OnlyThreads(SetEndpointQueue(k, id, Normalize(SendQueue(q[1..]))),
                       ReleaseSender(k, cur, id, q, isCall, slot));
  }

  /** A `Reply` puts its message in the caller's registers, with a zero in place of the badge. */
  lemma ReplyReachesCaller(k: Kernel, cur: TcbId, f: Context, t: TcbId, extra: Option<Capability>, payload: Payload)
    requires cur in k.tcbs && k.current == Some(cur) && t in k.tcbs && t != cur && k.tcbs[t].state.BlockedReply?
    requires DecodeReply(k, cur, f) == Success(Answer(t, extra, payload))
    ensures var o := Reply(k, cur, f);
            o.status.Ok? ==>
              && Carries(o.frame, 0, f, extra.Some?)
              && o.frame.tag == f.tag && SameHiddenRegisters(o.frame, k.tcbs[t].context)
              && Landed(k, o.k, t, k.tcbs[t].state.destSlot, extra)
  {
    TransferLands(k, t, k.tcbs[t].state.destSlot, extra);
    var tr := Transfer(k, t, BlockedCallerReplyDestSlot(k, t), extra);
    if tr.Success? {
      AnswerArrives(tr.value, cur, f, t, payload);
    }
  }

  lemma AnswerArrives(k: Kernel, cur: TcbId, f: Context, t: TcbId, payload: Payload)
    requires cur in k.tcbs && k.current == Some(cur) && t in k.tcbs && t != cur
    ensures var o := AnswerCaller(k, cur, f, t, payload);
            o.frame == k.tcbs[t].context.Deliver(0, payload, f.tag) && o.k.cnodes == k.cnodes
  {
    hide Context.Deliver;
    hide MakeReady;
    hide SwitchTo;
    var k1 := SetReplyTo(k, cur, None);
    var k2 := DeliverPayload(k1, t, 0, payload, f.tag);
    assert k2 == SetContext(k1, t, k.tcbs[t].context.Deliver(0, payload, f.tag));
    MakeReadyKeepsContext(k2, cur, t);
    OthersKeepContext(MakeReady(k2, cur), cur, f, t);
  }

  lemma MakeReadyKeepsContext(k: Kernel, u: TcbId, t: TcbId)
    requires t in k.tcbs
    ensures MakeReady(k, u).tcbs[t].context == k.tcbs[t].context && MakeReady(k, u).current == k.current
  {
  }

  lemma OthersKeepContext(k: Kernel, cur: TcbId, f: Context, t: TcbId)
    requires cur in k.tcbs && k.current == Some(cur) && t in k.tcbs && t != cur
    ensures SwitchTo(k, f, t).1 == k.tcbs[t].context
  {
  }

  // --------------------------------------------------------- order-independence

  /** What a lookup depends on. */
  predicate SameView(k: Kernel, j: Kernel, t: TcbId) {
    && j.cnodes == k.cnodes
    && t in k.tcbs && t in j.tcbs && j.tcbs[t].cspace == k.tcbs[t].cspace
  }

  lemma SameViewSameLookup(k: Kernel, j: Kernel, t: TcbId, cptr: CPtr)
    requires SameView(k, j, t)
    ensures LookupCap(j, t, cptr) == LookupCap(k, t, cptr)
  {
  }

  lemma SameViewSameTransfer(k: Kernel, j: Kernel, t: TcbId, dest: Option<CPtr>, extra: Option<Capability>)
    requires SameView(k, j, t)
    ensures var r, r' := Transfer(k, t, dest, extra), Transfer(j, t, dest, extra);
            && r.Success? == r'.Success?
            && (r.Failure? ==> r'.error == r.error)
            && (r.Success? ==> r'.value == j.(cnodes := r.value.cnodes) && r.value == k.(cnodes := r.value.cnodes))
  {
  }

  predicate SendsMessage(n: Word) {
    n == SEND || n == CALL
  }

  /** The message a `Send` or `Call` presents. */
  function Decode(k: Kernel, t: TcbId, f: Context): Result<Message, SyscallError> {
    if f.syscall == CALL then DecodeCall(k, t, f.Mr(0), f) else DecodeSend(k, t, f.Mr(0), f)
  }

  lemma SameViewSameDecode(k: Kernel, j: Kernel, t: TcbId, f: Context)
    requires SameView(k, j, t) && j.endpoints.Keys == k.endpoints.Keys
    ensures Decode(j, t, f) == Decode(k, t, f)
    ensures DecodeRecv(j, t, f.Mr(0), f) == DecodeRecv(k, t, f.Mr(0), f)
  {
    SameViewSameLookup(k, j, t, f.Mr(0));
    SameViewSameLookup(k, j, t, f.Mr(1));
  }

  /** A kernel in which `s` runs, `r` is next, and nobody waits on endpoint `e`. */
  ghost predicate SenderFirst(k: Kernel, s: TcbId, r: TcbId, e: EndpointId) {
    && s in k.tcbs && r in k.tcbs && s != r
    && k.current == Some(s) && k.tcbs[s].state == Running && k.tcbs[r].state == Ready
    && k.ready != [] && k.ready[0] == r
    && e in k.endpoints && k.endpoints[e].queue == Empty
  }

  /** The same kernel with the turns of `s` and `r` exchanged. */
  function Exchanged(k: Kernel, s: TcbId, r: TcbId): Kernel
    requires s in k.tcbs && r in k.tcbs && k.ready != []
  {
    k.(tcbs := k.tcbs[s := k.tcbs[s].(state := Ready)][r := k.tcbs[r].(state := Running)],
       ready := [s] + k.ready[1..],
       current := Some(r))
  }

  /** `t` parks with registers `f` in state `st`, alone on endpoint `e`, and `next` runs. */
  function OneParked(k: Kernel, t: TcbId, f: Context, st: ThreadState, e: EndpointId, q: EndpointQueue, next: TcbId)
    : Kernel
    requires t in k.tcbs && next in k.tcbs && k.ready != []
  {
    k.(tcbs := k.tcbs[t := k.tcbs[t].(state := st, context := f)][next := k.tcbs[next].(state := Running)],
       endpoints := k.endpoints[e := Endpoint(q)],
       ready := k.ready[1..],
       current := Some(next))
  }

  /** Parking on an endpoint where nobody waits. */
  lemma ParksAlone(k: Kernel, t: TcbId, f: Context, st: ThreadState, e: EndpointId, q: EndpointQueue, next: TcbId)
    requires SenderFirst(k, t, next, e)
    ensures Park(SetState(SetEndpointQueue(k, e, q), t, st), f).k == OneParked(k, t, f, st, e, q, next)
  {
    var k2 := SetState(SetEndpointQueue(k, e, q), t, st);
    IpcEffects.BlockCurrentResult(k2, f);
    hide BlockCurrent;
    assert k2.tcbs[t := k2.tcbs[t].(context := f)] == k.tcbs[t := k.tcbs[t].(state := st, context := f)];
  }

  /** Nobody waits for the message, so its sender blocks. */
  lemma NobodyReceives(k: Kernel, s: TcbId, r: TcbId, tr: Trap, m: Message)
    requires SenderFirst(k, s, r, m.endpoint) && SendsMessage(tr.frame.syscall)
    requires Decode(k, s, tr.frame) == Success(m)
    ensures Handle(k, s, tr) == BlockSender(k, s, tr.frame, m, tr.frame.syscall == CALL)
  {
    hide DecodeSend;
    hide DecodeCall;
    hide BlockSender;
  }

  lemma SenderParks(k: Kernel, s: TcbId, r: TcbId, tr: Trap, m: Message)
    requires SenderFirst(k, s, r, m.endpoint) && SendsMessage(tr.frame.syscall)
    requires Decode(k, s, tr.frame) == Success(m)
    ensures var st := BlockedSend(m.endpoint, m.badge, tr.frame.syscall == CALL, m.extraCap, m.replyDestSlot);
            Step(k, tr) == OneParked(k, s, tr.frame, st, m.endpoint, SendQueue([s]), r)
  {
    hide Decode;
    hide Handle;
    hide Park;
    hide SetEndpointQueue;
    hide OneParked;
    var st := BlockedSend(m.endpoint, m.badge, tr.frame.syscall == CALL, m.extraCap, m.replyDestSlot);
    NobodyReceives(k, s, r, tr, m);
    ParksAlone(k, s, tr.frame, st, m.endpoint, SendQueue([s]), r);
    assert PushBack([], s) == [s];
  }

  lemma ReceiverParks(k: Kernel, r: TcbId, s: TcbId, tr: Trap, e: EndpointId, dest: Option<CPtr>)
    requires SenderFirst(k, r, s, e) && tr.frame.syscall == RECV
    requires DecodeRecv(k, r, tr.frame.Mr(0), tr.frame) == Success(Reception(e, dest))
    ensures Step(k, tr) == OneParked(k, r, tr.frame, BlockedRecv(e, dest), e, RecvQueue([r]), s)
  {
    hide DecodeRecv;
    hide Park;
    hide SetEndpointQueue;
    hide OneParked;
    ParksAlone(k, r, tr.frame, BlockedRecv(e, dest), e, RecvQueue([r]), s);
    assert PushBack([], r) == [r];
  }

  /** The message as the receiver's registers show it, from either side. */
  function Received(fr: Context, m: Message, fs: Context): Context {
    ReplySuccess(fr.Deliver(m.badge, PayloadWords(fs, m.extraCap.Some?), fs.tag))
  }

  function Deposited(fr: Context, m: Message, fs: Context): Context {
    fr.Deliver(m.badge, m.payload, fs.tag)
  }

  /** The receiver arrives second. */
  lemma ReceiverFinishes(k1: Kernel, s: TcbId, r: TcbId, fs: Context, fr: Context, m: Message,
                         dest: Option<CPtr>, isCall: bool)
    requires s in k1.tcbs && r in k1.tcbs && s != r
    requires k1.tcbs[s].state == BlockedSend(m.endpoint, m.badge, isCall, m.extraCap, m.replyDestSlot)
    requires k1.tcbs[s].context == fs
    requires m.endpoint in k1.endpoints && k1.endpoints[m.endpoint].queue == SendQueue([s])
    requires DecodeRecv(k1, r, fr.Mr(0), fr) == Success(Reception(m.endpoint, dest))
    ensures var o := Recv(k1, r, fr.Mr(0), fr);
            var t := Transfer(k1, r, dest, m.extraCap);
            if t.Failure? then o == Outcome(k1, fr, Err(t.error))
            else
              && o.status == Ok && o.frame == Received(fr, m, fs)
              && o.k.cnodes == t.value.cnodes
              && o.k.endpoints == k1.endpoints[m.endpoint := Endpoint(Empty)]
              && o.k.current == k1.current
              && s in o.k.tcbs && o.k.tcbs[s].state == (if isCall then BlockedReply(m.replyDestSlot) else Ready)
              && o.k.tcbs[s].context == fs
              && (isCall ==> Owes(o.k, r, s))
  {
    hide ReleaseSender;
    hide Transfer;
    assert Recv(k1, r, fr.Mr(0), fr) == ReceiveFromSender(k1, r, fr, m.endpoint, dest, [s]);
    TransferLands(k1, r, dest, m.extraCap);
    var t := Transfer(k1, r, dest, m.extraCap);
    if t.Success? {
      ReleasedAlone(t.value, r, m.endpoint, s, isCall, m.replyDestSlot);
    }
  }

  /** A sender that was alone in its queue is released. */
  lemma ReleasedAlone(k: Kernel, r: TcbId, e: EndpointId, s: TcbId, isCall: bool, slot: Option<CPtr>)
    requires s in k.tcbs && r in k.tcbs && s != r && k.tcbs[s].state.BlockedSend? && e in k.endpoints
    ensures var k' := ReleaseSender(k, r, e, [s], isCall, slot);
            && k'.cnodes == k.cnodes && k'.current == k.current
            && k'.endpoints == k.endpoints[e := Endpoint(Empty)]
            && s in k'.tcbs && k'.tcbs[s].state == (if isCall then BlockedReply(slot) else Ready)
            && k'.tcbs[s].context == k.tcbs[s].context
            && (isCall ==> Owes(k', r, s))
  {
    hide SetEndpointQueue;
    hide MakeReady;
    assert Normalize(SendQueue([s][1..])) == Empty by { assert [s][1..] == []; }
    QueueWriteOnly(k, e, Empty);
    var k1 := SetEndpointQueue(k, e, Empty);
    MakeReadyResult(k1, s);
  }

  lemma MakeReadyResult(k: Kernel, t: TcbId)
    requires t in k.tcbs
    ensures var k' := MakeReady(k, t);
            k'.current == k.current && k'.tcbs == k.tcbs[t := k.tcbs[t].(state := Ready)]
  {
  }

  /** What both kinds of sender do first when they arrive second. */
  lemma SenderDeposits(j1: Kernel, r: TcbId, fs: Context, fr: Context, m: Message, dest: Option<CPtr>)
    requires r in j1.tcbs && j1.tcbs[r].state == BlockedRecv(m.endpoint, dest) && j1.tcbs[r].context == fr
    requires m.endpoint in j1.endpoints
    ensures var d := DeliverToReceiver(j1, m, fs.tag, [r]);
            var t := Transfer(j1, r, dest, m.extraCap);
            && d.Success? == t.Success?
            && (t.Failure? ==> d.error == t.error)
            && (t.Success? ==>
                  d.value == j1.(cnodes := t.value.cnodes,
                                 endpoints := j1.endpoints[m.endpoint := Endpoint(Empty)],
                                 tcbs := j1.tcbs[r := j1.tcbs[r].(context := Deposited(fr, m, fs))]))
  {
    TransferLands(j1, r, dest, m.extraCap);
    assert [r][1..] == [];
    assert BlockedReceiverDestSlot(j1, r) == dest;
  }

  /** The sender arrives second, with a `Send`. */
  lemma SendFinishes(j1: Kernel, s: TcbId, r: TcbId, fs: Context, fr: Context, m: Message, dest: Option<CPtr>)
    requires s in j1.tcbs && r in j1.tcbs && s != r && j1.current == Some(s)
    requires j1.tcbs[r].state == BlockedRecv(m.endpoint, dest) && j1.tcbs[r].context == fr
    requires m.endpoint in j1.endpoints && j1.endpoints[m.endpoint].queue == RecvQueue([r])
    requires DecodeSend(j1, s, fs.Mr(0), fs) == Success(m)
    ensures var o := Send(j1, s, fs.Mr(0), fs, false);
            var t := Transfer(j1, r, dest, m.extraCap);
            if t.Failure? then o == Outcome(j1, fs, Err(t.error))
            else
              && o.status == Ok && r in o.k.tcbs && o.k.tcbs[r].context == Deposited(fr, m, fs)
              && o.k.cnodes == t.value.cnodes
              && o.k.endpoints == j1.endpoints[m.endpoint := Endpoint(Empty)]
              && s in o.k.tcbs && o.k.tcbs[s].state == j1.tcbs[s].state && o.k.tcbs[r].state == Ready
              && o.k.current == Some(s) && o.frame == ReplySuccess(fs)
  {
    SenderDeposits(j1, r, fs, fr, m, dest);
  }

  /** The sender arrives second, with a `Call`. */
  lemma CallFinishes(j1: Kernel, s: TcbId, r: TcbId, fs: Context, fr: Context, m: Message, dest: Option<CPtr>)
    requires s in j1.tcbs && r in j1.tcbs && s != r && j1.current == Some(s)
    requires j1.tcbs[r].state == BlockedRecv(m.endpoint, dest) && j1.tcbs[r].context == fr
    requires m.endpoint in j1.endpoints && j1.endpoints[m.endpoint].queue == RecvQueue([r])
    requires DecodeCall(j1, s, fs.Mr(0), fs) == Success(m)
    ensures var o := Call(j1, s, fs.Mr(0), fs);
            var t := Transfer(j1, r, dest, m.extraCap);
            if t.Failure? then o == Outcome(j1, fs, Err(t.error))
            else
              && o.status == Ok && r in o.k.tcbs && o.k.tcbs[r].context == Deposited(fr, m, fs)
              && o.k.cnodes == t.value.cnodes
              && o.k.endpoints == j1.endpoints[m.endpoint := Endpoint(Empty)]
              && s in o.k.tcbs && o.k.tcbs[s].state == BlockedReply(m.replyDestSlot) && Owes(o.k, r, s)
              && o.k.current == Some(r) && o.frame == Deposited(fr, m, fs) && o.k.tcbs[s].context == fs
  {
    SenderDeposits(j1, r, fs, fr, m, dest);
    var d := DeliverToReceiver(j1, m, fs.tag, [r]);
    if d.Success? {
      HandOverResult(d.value, s, r, fs, m.replyDestSlot);
    }
  }

  lemma HandOverResult(k: Kernel, s: TcbId, r: TcbId, fs: Context, slot: Option<CPtr>)
    requires s in k.tcbs && r in k.tcbs && s != r && k.current == Some(s)
    ensures var o := HandOver(k, s, fs, r, slot);
            && o.status == Ok && o.frame == k.tcbs[r].context
            && o.k == k.(current := Some(r),
                         tcbs := k.tcbs[s := k.tcbs[s].(state := BlockedReply(slot), context := fs)]
                                       [r := k.tcbs[r].(state := Running, replyTo := Some(s))])
  {
  }

  /** Nothing tells which side arrived first: neither the error flag, which `Recv` clears in a received
      tag, nor mr1, where a `Call` that waits leaves the number of the slot it registers. */
  predicate ShowsNoOrder(fs: Context) {
    !fs.tag.error && (fs.syscall == CALL && fs.tag.extraCaps == 2 ==> fs.mrs[1] == 0)
  }

  /** Received registers and deposited ones differ in mr1 and in the error flag at most. */
  predicate OnlyOrderDiffers(received: Context, deposited: Context) {
    received == deposited.(tag := deposited.tag.(error := false), mrs := deposited.mrs[1 := received.mrs[1]])
  }

  lemma RegistersAgree(k: Kernel, s: TcbId, fr: Context, m: Message, fs: Context)
    requires SendsMessage(fs.syscall) && Decode(k, s, fs) == Success(m)
    ensures Received(fr, m, fs) == Deposited(fr, m, fs) <==> ShowsNoOrder(fs)
    ensures OnlyOrderDiffers(Received(fr, m, fs), Deposited(fr, m, fs))
  {
    var a, b := Received(fr, m, fs), Deposited(fr, m, fs);
    assert a.mrs[1] == if m.extraCap.Some? then 0 else fs.mrs[1];
    assert b.mrs[1] == m.payload.mr1;
    assert a.mrs == b.mrs[1 := a.mrs[1]];
    if a == b {
      assert a.mrs[1] == b.mrs[1];
    }
  }

  /** What the two orders agree on, once both threads have trapped. */
  ghost predicate Agree(a: Outcome, b: Outcome, s: TcbId, r: TcbId, fs: Context, m: Message) {
    && a.status == b.status && a.status != Panic
    && (m.extraCap.None? ==> a.status.Ok?)
    && (a.status.Ok? ==>
          && a.k.cnodes == b.k.cnodes && a.k.endpoints == b.k.endpoints
          && r in b.k.tcbs && s in a.k.tcbs && s in b.k.tcbs
          && (a.frame == b.k.tcbs[r].context <==> ShowsNoOrder(fs))
          && OnlyOrderDiffers(a.frame, b.k.tcbs[r].context)
          && a.k.current == Some(r) && a.k.tcbs[s].context == fs
          && (if fs.syscall == CALL then
                && a.k.tcbs[s].state == BlockedReply(m.replyDestSlot) == b.k.tcbs[s].state
                && Owes(a.k, r, s) && Owes(b.k, r, s)
                && b.k.current == Some(r) && b.frame == b.k.tcbs[r].context && b.k.tcbs[s].context == fs
              else
                && a.k.tcbs[s].state == Ready && b.k.tcbs[s].state == Running
                && b.k.current == Some(s) && b.k.tcbs[r].state == Ready && b.frame == ReplySuccess(fs)))
  }

  lemma HandleCases(k: Kernel, t: TcbId, tr: Trap)
    ensures tr.frame.syscall == RECV ==> Handle(k, t, tr) == Recv(k, t, tr.frame.Mr(0), tr.frame)
    ensures tr.frame.syscall == CALL ==> Handle(k, t, tr) == Call(k, t, tr.frame.Mr(0), tr.frame)
    ensures tr.frame.syscall == SEND ==> Handle(k, t, tr) == Send(k, t, tr.frame.Mr(0), tr.frame, false)
    ensures tr.frame.syscall == NB_SEND ==> Handle(k, t, tr) == Send(k, t, tr.frame.Mr(0), tr.frame, true)
  {
  }

  /** The sender waits with its message, the receiver is about to receive. */
  ghost predicate SenderWaits(k1: Kernel, s: TcbId, r: TcbId, ts: Trap, tr: Trap, m: Message, dest: Option<CPtr>) {
    && s != r && s in k1.tcbs && r in k1.tcbs && k1.current == Some(r)
    && k1.tcbs[s].state == BlockedSend(m.endpoint, m.badge, ts.frame.syscall == CALL, m.extraCap, m.replyDestSlot)
    && k1.tcbs[s].context == ts.frame
    && m.endpoint in k1.endpoints && k1.endpoints[m.endpoint].queue == SendQueue([s])
    && tr.frame.syscall == RECV
    && DecodeRecv(k1, r, tr.frame.Mr(0), tr.frame) == Success(Reception(m.endpoint, dest))
  }

  /** The receiver waits, the sender is about to send. */
  ghost predicate ReceiverWaits(j1: Kernel, s: TcbId, r: TcbId, ts: Trap, tr: Trap, m: Message, dest: Option<CPtr>) {
    && s != r && s in j1.tcbs && r in j1.tcbs && j1.current == Some(s) && j1.tcbs[s].state == Running
    && j1.tcbs[r].state == BlockedRecv(m.endpoint, dest) && j1.tcbs[r].context == tr.frame
    && m.endpoint in j1.endpoints && j1.endpoints[m.endpoint].queue == RecvQueue([r])
    && SendsMessage(ts.frame.syscall) && Decode(j1, s, ts.frame) == Success(m)
  }

  lemma BothFinish(k1: Kernel, j1: Kernel, s: TcbId, r: TcbId, ts: Trap, tr: Trap, m: Message, dest: Option<CPtr>)
    requires SenderWaits(k1, s, r, ts, tr, m, dest) && ReceiverWaits(j1, s, r, ts, tr, m, dest)
    requires SameView(k1, j1, r)
    requires j1.endpoints[m.endpoint := Endpoint(Empty)] == k1.endpoints[m.endpoint := Endpoint(Empty)]
    ensures Agree(Handle(k1, r, tr), Handle(j1, s, ts), s, r, ts.frame, m)
  {
    HandleCases(k1, r, tr);
    HandleCases(j1, s, ts);
    ReceiverFinishes(k1, s, r, ts.frame, tr.frame, m, dest, ts.frame.syscall == CALL);
    TransferLands(k1, r, dest, m.extraCap);
    SameViewSameTransfer(k1, j1, r, dest, m.extraCap);
    RegistersAgree(j1, s, tr.frame, m, ts.frame);
    if ts.frame.syscall == CALL {
      CallFinishes(j1, s, r, ts.frame, tr.frame, m, dest);
    } else {
      SendFinishes(j1, s, r, ts.frame, tr.frame, m, dest);
    }
  }

  lemma ParkingKeepsView(k: Kernel, t: TcbId, f: Context, st: ThreadState, e: EndpointId, q: EndpointQueue,
                         next: TcbId, u: TcbId)
    requires t in k.tcbs && next in k.tcbs && k.ready != [] && u in k.tcbs && e in k.endpoints
    ensures var k' := OneParked(k, t, f, st, e, q, next);
            SameView(k, k', u) && k'.endpoints.Keys == k.endpoints.Keys
  {
  }

  lemma SenderWaitsFirst(k: Kernel, s: TcbId, r: TcbId, ts: Trap, tr: Trap, m: Message, dest: Option<CPtr>)
    requires SenderFirst(k, s, r, m.endpoint)
    requires SendsMessage(ts.frame.syscall) && Decode(k, s, ts.frame) == Success(m)
    requires tr.frame.syscall == RECV
    requires DecodeRecv(k, r, tr.frame.Mr(0), tr.frame) == Success(Reception(m.endpoint, dest))
    ensures SenderWaits(Step(k, ts), s, r, ts, tr, m, dest)
    ensures SameView(k, Step(k, ts), r)
    ensures Step(k, ts).endpoints == k.endpoints[m.endpoint := Endpoint(SendQueue([s]))]
  {
    var st := BlockedSend(m.endpoint, m.badge, ts.frame.syscall == CALL, m.extraCap, m.replyDestSlot);
    SenderParks(k, s, r, ts, m);
    ParkingKeepsView(k, s, ts.frame, st, m.endpoint, SendQueue([s]), r, r);
    SameViewSameDecode(k, Step(k, ts), r, tr.frame);
  }

  lemma ReceiverWaitsFirst(j: Kernel, s: TcbId, r: TcbId, ts: Trap, tr: Trap, m: Message, dest: Option<CPtr>)
    requires SenderFirst(j, r, s, m.endpoint)
    requires SendsMessage(ts.frame.syscall) && Decode(j, s, ts.frame) == Success(m)
    requires tr.frame.syscall == RECV
    requires DecodeRecv(j, r, tr.frame.Mr(0), tr.frame) == Success(Reception(m.endpoint, dest))
    ensures ReceiverWaits(Step(j, tr), s, r, ts, tr, m, dest)
    ensures SameView(j, Step(j, tr), r)
    ensures Step(j, tr).endpoints == j.endpoints[m.endpoint := Endpoint(RecvQueue([r]))]
  {
    ReceiverParks(j, r, s, tr, m.endpoint, dest);
    ParkingKeepsView(j, r, tr.frame, BlockedRecv(m.endpoint, dest), m.endpoint, RecvQueue([r]), s, s);
    ParkingKeepsView(j, r, tr.frame, BlockedRecv(m.endpoint, dest), m.endpoint, RecvQueue([r]), s, r);
    SameViewSameDecode(j, Step(j, tr), s, ts.frame);
  }

  lemma BothFinishFrom(k: Kernel, j: Kernel, k1: Kernel, j1: Kernel, s: TcbId, r: TcbId, ts: Trap, tr: Trap,
                       m: Message, dest: Option<CPtr>)
    requires SameView(k, j, r) && j.endpoints == k.endpoints
    requires SameView(k, k1, r) && k1.endpoints == k.endpoints[m.endpoint := Endpoint(SendQueue([s]))]
    requires SameView(j, j1, r) && j1.endpoints == j.endpoints[m.endpoint := Endpoint(RecvQueue([r]))]
    requires SenderWaits(k1, s, r, ts, tr, m, dest) && ReceiverWaits(j1, s, r, ts, tr, m, dest)
    ensures Agree(Handle(k1, r, tr), Handle(j1, s, ts), s, r, ts.frame, m)
  {
    BothFinish(k1, j1, s, r, ts, tr, m, dest);
  }

  lemma ExchangedTurns(k: Kernel, s: TcbId, r: TcbId, e: EndpointId)
    requires SenderFirst(k, s, r, e)
    ensures var j := Exchanged(k, s, r);
            SenderFirst(j, r, s, e) && SameView(k, j, s) && SameView(k, j, r) && j.endpoints == k.endpoints
  {
  }

  /** One rendezvous in its two orders, from one kernel: `s` sends or calls and `r` receives, with
      the same registers at their traps, and either of them traps first. */
  lemma OrderDoesNotMatter(k: Kernel, s: TcbId, r: TcbId, ts: Trap, tr: Trap, m: Message, dest: Option<CPtr>)
    requires SenderFirst(k, s, r, m.endpoint)
    requires SendsMessage(ts.frame.syscall) && Decode(k, s, ts.frame) == Success(m)
    requires tr.frame.syscall == RECV
    requires DecodeRecv(k, r, tr.frame.Mr(0), tr.frame) == Success(Reception(m.endpoint, dest))
    ensures Agree(Handle(Step(k, ts), r, tr), Handle(Step(Exchanged(k, s, r), tr), s, ts), s, r, ts.frame, m)
  {
    var j := Exchanged(k, s, r);
    ExchangedTurns(k, s, r, m.endpoint);
    SameViewSameDecode(k, j, r, tr.frame);
    SameViewSameDecode(k, j, s, ts.frame);
    SenderWaitsFirst(k, s, r, ts, tr, m, dest);
    ReceiverWaitsFirst(j, s, r, ts, tr, m, dest);
    BothFinishFrom(k, j, Step(k, ts), Step(j, tr), s, r, ts, tr, m, dest);
  }
}
