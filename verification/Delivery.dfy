/** A message over time: whoever traps in between and however many wait before, the thread whose turn
    comes gets exactly what was sent, and which side came first shows in two registers at most. */
module Delivery {
  import opened Wrappers
  import opened Capabilities
  import opened Objects
  import opened State
  import opened Ipc
  import opened IpcEffects
  import opened Invariants
  import opened Effects
  import opened Syscalls
  import opened Upkeep
  import opened Service
  import opened Rendezvous
  import opened Transparency

  // ------------------------------------------------------------------ while it waits

  /** A thread that stays in a wait queue stays as it was. */
  lemma StaysAsItWas(k: Kernel, tr: Trap, p: Place, t: TcbId)
    requires Inv(k) && Inv(Step(k, tr)) && p != ReadyQueue && t in QueueAt(k, p) && t in QueueAt(Step(k, tr), p)
    ensures t in k.tcbs && t in Step(k, tr).tcbs && SameStanding(k.tcbs[t], Step(k, tr).tcbs[t])
  {
    hide Dispatch;
    hide Delivered;
    StepKeepsRegisters(k, tr, t);
  }

  /** The thread at position `i` of a wait queue keeps its state and registers until its turn comes. */
  lemma {:induction false} WaitsUnchanged(k: Kernel, trs: seq<Trap>, p: Place, i: nat)
    requires Inv(k) && p != ReadyQueue && i < |QueueAt(k, p)| && Servings(k, trs, p) <= i
    ensures var (t, q, n) := (QueueAt(k, p)[i], QueueAt(Run(k, trs), p), Servings(k, trs, p));
            && i - n < |q| && q[i - n] == t
            && t in k.tcbs && t in Run(k, trs).tcbs && SameStanding(k.tcbs[t], Run(k, trs).tcbs[t])
    decreases |trs|
  {
    hide Dispatch;
    hide ServesNow;
    hide Placed;
    hide QueueAt;
    if trs != [] {
      var k1 := Step(k, trs[0]);
      var n := if ServesNow(k, trs[0], p) then 1 else 0;
      StepKeepsInv(k, trs[0]);
      OneStepUp(k, trs[0], p, i);
      StaysAsItWas(k, trs[0], p, QueueAt(k, p)[i]);
      WaitsUnchanged(k1, trs[1..], p, i - n);
    } else {
      InQueue(k, p, i);
    }
  }

  lemma InQueue(k: Kernel, p: Place, i: nat)
    requires Placed(k) && i < |QueueAt(k, p)|
    ensures QueueAt(k, p)[i] in k.tcbs
  {
    assert QueueAt(k, p)[i] in QueueAt(k, p);
  }

  lemma OneStepUp(k: Kernel, tr: Trap, p: Place, i: nat)
    requires Inv(k) && p != ReadyQueue && i < |QueueAt(k, p)|
    requires ServesNow(k, tr, p) ==> i > 0
    ensures var n := if ServesNow(k, tr, p) then 1 else 0;
            && i - n < |QueueAt(Step(k, tr), p)| && QueueAt(Step(k, tr), p)[i - n] == QueueAt(k, p)[i]
  {
    hide Dispatch;
    hide ServesNow;
    assert [tr][1..] == [];
    assert Run(k, [tr]) == Step(k, tr);
    MovesUp(k, [tr], p, i);
  }

  // ---------------------------------------------------------------- when its turn comes

  /** What a `Recv` with outcome `o` does with the message of sender `s`, which is in state `st` with
      registers `c`: the receiver gets the message and the sender goes on, or waits for a reply. */
  ghost predicate TakenFrom(s: TcbId, st: ThreadState, c: Context, k: Kernel, tr: Trap, o: Outcome)
    requires k.current.Some?
  {
    var (r, d) := (k.current.value, DecodeRecv(k, k.current.value, tr.frame.Mr(0), tr.frame));
    && st.BlockedSend? && d.Success?
    && o.frame == ReplySuccess(tr.frame.Deliver(st.badge, PayloadWords(c, st.extraCap.Some?), c.tag))
    && Landed(k, o.k, r, d.value.destSlot, st.extraCap)
    && s in o.k.tcbs && o.k.tcbs[s].context == c
    && o.k.tcbs[s].state == (if st.isCall then BlockedReply(st.replyDestSlot) else Ready)
    && (st.isCall ==> Owes(o.k, r, s))
  }

  /** What a `Send`, `NBSend` or `Call` with outcome `o` does to receiver `r`, which is in state `st`
      with registers `c`. */
  ghost predicate DeliveredTo(r: TcbId, st: ThreadState, c: Context, k: Kernel, tr: Trap, o: Outcome)
    requires k.current.Some?
  {
    var (s, d) := (k.current.value, Decode(k, k.current.value, tr.frame));
    && st.BlockedRecv? && d.Success? && r in o.k.tcbs && s in o.k.tcbs
    && o.k.tcbs[r].context == c.Deliver(d.value.badge, d.value.payload, tr.frame.tag)
    && Landed(k, o.k, r, st.recvDestSlot, d.value.extraCap)
    && (if tr.frame.syscall == CALL then
          && o.k.tcbs[s].state == BlockedReply(d.value.replyDestSlot) && o.k.tcbs[s].context == tr.frame
          && Owes(o.k, r, s) && o.k.current == Some(r) && o.frame == o.k.tcbs[r].context
        else
          && o.k.tcbs[r].state == Ready && o.k.tcbs[s].state == Running
          && o.k.current == Some(s) && o.frame == ReplySuccess(tr.frame))
  }

  lemma HeadSenderIsReceived(k: Kernel, tr: Trap, e: EndpointId)
    requires Inv(k) && ServesNow(k, tr, Senders(e))
    ensures var (s, o) := (QueueAt(k, Senders(e))[0], Handle(k, k.current.value, tr));
            s in k.tcbs && TakenFrom(s, k.tcbs[s].state, k.tcbs[s].context, k, tr, o)
  {
    hide Placed;
    hide Linked;
    hide Calm;
    hide PoolsBounded;
    hide BumpsBounded;
    hide DecodeRecv;
    hide Landed;
    var (r, f) := (k.current.value, tr.frame);
    HandleCases(k, r, tr);
    RecvReleasesHead(k, f);
    var Reception(id, dest) := DecodeRecv(k, r, f.Mr(0), f).value;
    ReceivedFrame(k, r, f, id, dest, QueueAt(k, Senders(e)));
    hide ReceiveFromSender;
    hide Handle;
  }

  lemma ReceivedFrame(k: Kernel, r: TcbId, f: Context, id: EndpointId, dest: Option<CPtr>, q: seq<TcbId>)
    requires q != [] && q[0] in k.tcbs && k.tcbs[q[0]].state.BlockedSend?
    ensures var (o, st, c) := (ReceiveFromSender(k, r, f, id, dest, q), k.tcbs[q[0]].state, k.tcbs[q[0]].context);
            o.status.Ok? ==>
              && o.frame == ReplySuccess(f.Deliver(st.badge, PayloadWords(c, st.extraCap.Some?), c.tag))
              && Landed(k, o.k, r, dest, st.extraCap)
  {
    ReceiverTakesMessage(k, r, f, id, dest, q);
    hide Transfer;
    hide ReleaseSender;
    hide Landed;
  }

  /** The capability of a delivered message has landed. */
  lemma DeliveredLands(k: Kernel, m: Message, f: Context, q: seq<TcbId>)
    requires q != [] && q[0] in k.tcbs && k.tcbs[q[0]].state.BlockedRecv?
    ensures var r := DeliverToReceiver(k, m, f.tag, q);
            r.Success? ==> Landed(k, r.value, q[0], k.tcbs[q[0]].state.recvDestSlot, m.extraCap)
  {
    var dest := k.tcbs[q[0]].state.recvDestSlot;
    TransferLands(k, q[0], dest, m.extraCap);
    var r := Transfer(k, q[0], dest, m.extraCap);
    if r.Success? {
      DepositedIn(r.value, m, f, q);
      hide DeliverPayload;
      LandedFrame(k, r.value, DeliverToReceiver(k, m, f.tag, q).value, q[0], dest, m.extraCap);
    }
    hide Transfer;
    hide Landed;
  }

  lemma SendLands(k: Kernel, cur: TcbId, f: Context, nonblocking: bool, m: Message, q: seq<TcbId>)
    requires DecodeSend(k, cur, f.Mr(0), f) == Success(m) && k.endpoints[m.endpoint].queue == RecvQueue(q)
    requires q != [] && q[0] in k.tcbs && k.tcbs[q[0]].state.BlockedRecv?
    ensures var o := Send(k, cur, f.Mr(0), f, nonblocking);
            o.status.Ok? ==>
              o.frame == ReplySuccess(f) && Landed(k, o.k, q[0], k.tcbs[q[0]].state.recvDestSlot, m.extraCap)
  {
    hide DecodeSend;
    hide DeliverToReceiver;
    hide MakeReady;
    hide Landed;
    DeliveredLands(k, m, f, q);
    var r := DeliverToReceiver(k, m, f.tag, q);
    if r.Success? {
      LandedFrame(k, r.value, MakeReady(r.value, q[0]), q[0], k.tcbs[q[0]].state.recvDestSlot, m.extraCap);
    }
  }

  lemma CallLands(k: Kernel, cur: TcbId, f: Context, m: Message, q: seq<TcbId>)
    requires DecodeCall(k, cur, f.Mr(0), f) == Success(m) && k.endpoints[m.endpoint].queue == RecvQueue(q)
    requires q != [] && q[0] in k.tcbs && k.tcbs[q[0]].state.BlockedRecv?
    ensures var o := Call(k, cur, f.Mr(0), f);
            o.status.Ok? ==> Landed(k, o.k, q[0], k.tcbs[q[0]].state.recvDestSlot, m.extraCap)
  {
    hide DecodeCall;
    hide DeliverToReceiver;
    hide SwitchTo;
    hide Landed;
    DeliveredLands(k, m, f, q);
    var r := DeliverToReceiver(k, m, f.tag, q);
    if r.Success? {
      LandedFrame(k, r.value, HandOver(r.value, cur, f, q[0], m.replyDestSlot).k, q[0],
                  k.tcbs[q[0]].state.recvDestSlot, m.extraCap);
    }
  }

  /** The call is a `Send`, `NBSend` or `Call` whose message names the endpoint of `p`. */
  lemma NamesReceivers(k: Kernel, tr: Trap, e: EndpointId)
    requires Inv(k) && ServesNow(k, tr, Receivers(e))
    ensures var (d, q) := (Decode(k, k.current.value, tr.frame), QueueAt(k, Receivers(e)));
            && (tr.frame.syscall == SEND || tr.frame.syscall == NB_SEND || tr.frame.syscall == CALL)
            && d.Success? && d.value.endpoint == e
            && e in k.endpoints && k.endpoints[e].queue == RecvQueue(q)
            && q[0] in k.tcbs && k.tcbs[q[0]].state.BlockedRecv?
  {
    hide Handle;
    hide DecodeSend;
    hide DecodeCall;
    hide DecodeRecv;
    hide ResolveNotification;
    HeadOf(k, Receivers(e));
    hide Placed;
  }

  lemma HeadReceiverGetsSend(k: Kernel, tr: Trap, e: EndpointId)
    requires Inv(k) && ServesNow(k, tr, Receivers(e)) && tr.frame.syscall != CALL
    ensures var (r, o) := (QueueAt(k, Receivers(e))[0], Handle(k, k.current.value, tr));
            r in k.tcbs && DeliveredTo(r, k.tcbs[r].state, k.tcbs[r].context, k, tr, o)
  {
    hide WellFormed;
    hide DecodeSend;
    hide ServedPlace;
    hide Landed;
    hide Send;
    hide Handle;
    hide SameQueuesBut;
    hide LeavesHead;
    var (cur, f, nonblocking) := (k.current.value, tr.frame, tr.frame.syscall == NB_SEND);
    NamesReceivers(k, tr, e);
    HandleCases(k, cur, tr);
    var m := DecodeSend(k, cur, f.Mr(0), f).value;
    SendWakesHead(k, f, nonblocking);
    SendLands(k, cur, f, nonblocking, m, QueueAt(k, Receivers(e)));
    RunningIsNotQueued(k, Receivers(e));
  }

  lemma RunningIsNotQueued(k: Kernel, p: Place)
    requires Inv(k) && QueueAt(k, p) != []
    ensures var cur := k.current.value;
            cur in k.tcbs && k.tcbs[cur].state == Running && QueueAt(k, p)[0] != cur
  {
    HeadOf(k, p);
  }

  lemma HeadReceiverGetsCall(k: Kernel, tr: Trap, e: EndpointId)
    requires Inv(k) && ServesNow(k, tr, Receivers(e)) && tr.frame.syscall == CALL
    ensures var (r, o) := (QueueAt(k, Receivers(e))[0], Handle(k, k.current.value, tr));
            r in k.tcbs && DeliveredTo(r, k.tcbs[r].state, k.tcbs[r].context, k, tr, o)
  {
    hide WellFormed;
    hide DecodeCall;
    hide ServedPlace;
    hide Landed;
    hide Call;
    hide Handle;
    hide SameQueuesBut;
    hide LeavesHead;
    var (cur, f) := (k.current.value, tr.frame);
    NamesReceivers(k, tr, e);
    HandleCases(k, cur, tr);
    var m := DecodeCall(k, cur, f.Mr(0), f).value;
    CallRunsHead(k, f);
    CallLands(k, cur, f, m, QueueAt(k, Receivers(e)));
  }

  /** The sender at position `i` of an endpoint is received by the successful `Recv` number `i + 1`,
      with the message it blocked on, whatever has happened in between. */
  lemma SenderIsReceived(k: Kernel, trs: seq<Trap>, tr: Trap, e: EndpointId, i: nat)
    requires Inv(k) && i < |QueueAt(k, Senders(e))| && Servings(k, trs, Senders(e)) == i
    requires ServesNow(Run(k, trs), tr, Senders(e))
    ensures var (s, k1) := (QueueAt(k, Senders(e))[i], Run(k, trs));
            s in k.tcbs && TakenFrom(s, k.tcbs[s].state, k.tcbs[s].context, k1, tr, Handle(k1, k1.current.value, tr))
  {
    hide Dispatch;
    hide Handle;
    hide ServedPlace;
    hide TakenFrom;
    hide QueueAt;
    WaitsUnchanged(k, trs, Senders(e), i);
    RunKeepsInv(k, trs);
    HeadSenderIsReceived(Run(k, trs), tr, e);
  }

  /** The receiver at position `i` of an endpoint gets the message of the successful `Send`, `NBSend`
      or `Call` number `i + 1` in the registers it blocked with, whatever has happened in between. */
  lemma ReceiverIsServed(k: Kernel, trs: seq<Trap>, tr: Trap, e: EndpointId, i: nat)
    requires Inv(k) && i < |QueueAt(k, Receivers(e))| && Servings(k, trs, Receivers(e)) == i
    requires ServesNow(Run(k, trs), tr, Receivers(e))
    ensures var (r, k1) := (QueueAt(k, Receivers(e))[i], Run(k, trs));
            r in k.tcbs && DeliveredTo(r, k.tcbs[r].state, k.tcbs[r].context, k1, tr, Handle(k1, k1.current.value, tr))
  {
    hide Dispatch;
    hide Handle;
    hide ServedPlace;
    hide DeliveredTo;
    hide QueueAt;
    WaitsUnchanged(k, trs, Receivers(e), i);
    RunKeepsInv(k, trs);
    if tr.frame.syscall == CALL {
      HeadReceiverGetsCall(Run(k, trs), tr, e);
    } else {
      HeadReceiverGetsSend(Run(k, trs), tr, e);
    }
  }

  // ------------------------------------------------------------- joining the queue

  /** A sender that finds nobody receiving joins the queue with its message. */
  lemma SenderJoins(k: Kernel, ts: Trap, m: Message)
    requires Inv(k) && SendsMessage(ts.frame.syscall) && Decode(k, k.current.value, ts.frame) == Success(m)
    requires !k.endpoints[m.endpoint].queue.RecvQueue? && k.ready != []
    ensures var (s, k1) := (k.current.value, Step(k, ts));
            && QueueAt(k1, Senders(m.endpoint)) == QueueAt(k, Senders(m.endpoint)) + [s]
            && s in k1.tcbs && k1.tcbs[s].context == ts.frame
            && k1.tcbs[s].state
               == BlockedSend(m.endpoint, m.badge, ts.frame.syscall == CALL, m.extraCap, m.replyDestSlot)
  {
    hide Linked;
    hide Calm;
    hide Normalized;
    hide PoolsBounded;
    hide BumpsBounded;
    hide DecodeSend;
    hide DecodeCall;
    hide BlockSender;
    HandleCases(k, k.current.value, ts);
    HeadOf(k, ReadyQueue);
    BlockSenderEffect(k, ts.frame, m, ts.frame.syscall == CALL);
    hide Handle;
    hide Placed;
  }

  /** A receiver that finds nobody sending joins the queue. */
  lemma ReceiverJoins(k: Kernel, tr: Trap, e: EndpointId, dest: Option<CPtr>)
    requires Inv(k) && tr.frame.syscall == RECV
    requires DecodeRecv(k, k.current.value, tr.frame.Mr(0), tr.frame) == Success(Reception(e, dest))
    requires !k.endpoints[e].queue.SendQueue? && k.ready != []
    ensures var (r, k1) := (k.current.value, Step(k, tr));
            && QueueAt(k1, Receivers(e)) == QueueAt(k, Receivers(e)) + [r]
            && r in k1.tcbs && k1.tcbs[r].context == tr.frame && k1.tcbs[r].state == BlockedRecv(e, dest)
  {
    hide Linked;
    hide Calm;
    hide Normalized;
    hide PoolsBounded;
    hide BumpsBounded;
    hide DecodeRecv;
    hide BlockReceiver;
    HandleCases(k, k.current.value, tr);
    HeadOf(k, ReadyQueue);
    BlockReceiverEffect(k, tr.frame, e, dest);
    hide Handle;
    hide Placed;
  }

  // ------------------------------------------------------------------ either order

  /** `s` traps with message `m` and has to wait; after the run `trs`, which serves all that wait
      before it, `r` receives with trap `tr`. */
  ghost predicate SentFirst(k: Kernel, ts: Trap, trs: seq<Trap>, tr: Trap, s: TcbId, r: TcbId, m: Message,
                            dest: Option<CPtr>)
  {
    var (p, k1) := (Senders(m.endpoint), Run(Step(k, ts), trs));
    && Inv(k) && k.current == Some(s) && k.ready != []
    && SendsMessage(ts.frame.syscall) && Decode(k, s, ts.frame) == Success(m)
    && !k.endpoints[m.endpoint].queue.RecvQueue?
    && Servings(Step(k, ts), trs, p) == |QueueAt(k, p)|
    && k1.current == Some(r) && DecodeRecv(k1, r, tr.frame.Mr(0), tr.frame) == Success(Reception(m.endpoint, dest))
    && ServesNow(k1, tr, p)
  }

  /** `r` traps to receive and has to wait; after the run `trs`, which serves all that wait before
      it, `s` traps with message `m`. */
  ghost predicate ReceivedFirst(j: Kernel, tr: Trap, trs: seq<Trap>, ts: Trap, s: TcbId, r: TcbId, m: Message,
                                dest: Option<CPtr>)
  {
    var (p, j1) := (Receivers(m.endpoint), Run(Step(j, tr), trs));
    && Inv(j) && j.current == Some(r) && j.ready != [] && tr.frame.syscall == RECV
    && DecodeRecv(j, r, tr.frame.Mr(0), tr.frame) == Success(Reception(m.endpoint, dest))
    && !j.endpoints[m.endpoint].queue.SendQueue?
    && Servings(Step(j, tr), trs, p) == |QueueAt(j, p)|
    && j1.current == Some(s) && SendsMessage(ts.frame.syscall) && Decode(j1, s, ts.frame) == Success(m)
    && ServesNow(j1, ts, p)
  }

  /** How one rendezvous ends that put the registers `c` of the receiver in place and left kernel
      `k'`: the capability landed, and the sender goes on or waits for the reply it is owed. */
  ghost predicate Ends(k: Kernel, k': Kernel, s: TcbId, r: TcbId, fs: Context, m: Message, dest: Option<CPtr>) {
    && Landed(k, k', r, dest, m.extraCap) && s in k'.tcbs
    && (fs.syscall == CALL ==>
          k'.tcbs[s].state == BlockedReply(m.replyDestSlot) && k'.tcbs[s].context == fs && Owes(k', r, s))
    && (fs.syscall == SEND ==> k'.tcbs[s].state == Ready || k'.tcbs[s].state == Running)
  }

  /** What the receiver has when the sender came first. */
  lemma SentFirstReceives(k: Kernel, ts: Trap, trs: seq<Trap>, tr: Trap, s: TcbId, r: TcbId, m: Message,
                          dest: Option<CPtr>)
    requires SentFirst(k, ts, trs, tr, s, r, m, dest)
    ensures var k1 := Run(Step(k, ts), trs);
            var o := Handle(k1, r, tr);
            o.frame == Received(tr.frame, m, ts.frame) && Ends(k1, o.k, s, r, ts.frame, m, dest)
  {
    hide Dispatch;
    hide Handle;
    hide ServesNow;
    hide Inv;
    hide Decode;
    hide DecodeRecv;
    hide Landed;
    SenderJoins(k, ts, m);
    StepKeepsInv(k, ts);
    SenderIsReceived(Step(k, ts), trs, tr, m.endpoint, |QueueAt(k, Senders(m.endpoint))|);
  }

  /** What the receiver has when it came first. */
  lemma ReceivedFirstReceives(j: Kernel, tr: Trap, trs: seq<Trap>, ts: Trap, s: TcbId, r: TcbId, m: Message,
                              dest: Option<CPtr>)
    requires ReceivedFirst(j, tr, trs, ts, s, r, m, dest)
    ensures var j1 := Run(Step(j, tr), trs);
            var o := Handle(j1, s, ts);
            && r in o.k.tcbs && o.k.tcbs[r].context == Deposited(tr.frame, m, ts.frame)
            && Ends(j1, o.k, s, r, ts.frame, m, dest)
  {
    hide Dispatch;
    hide Handle;
    hide ServesNow;
    hide Inv;
    hide Decode;
    hide DecodeRecv;
    hide Landed;
    ReceiverJoins(j, tr, m.endpoint, dest);
    StepKeepsInv(j, tr);
    ReceiverIsServed(Step(j, tr), trs, ts, m.endpoint, |QueueAt(j, Receivers(m.endpoint))|);
  }

  /** A message from the same registers, with the same capabilities, reaches a receiver with the same
      registers alike whether it is sent first or received first, from whatever kernels, behind
      however many others, and whatever other threads do in between. What differs is mr1 and the
      error flag at most, and nothing exactly if `ShowsNoOrder`. */
  lemma AnyOrderDelivers(k: Kernel, trs: seq<Trap>, j: Kernel, us: seq<Trap>, ts: Trap, tr: Trap,
                         s: TcbId, r: TcbId, m: Message, dest: Option<CPtr>)
    requires SentFirst(k, ts, trs, tr, s, r, m, dest)
    requires ReceivedFirst(j, tr, us, ts, s, r, m, dest)
    ensures var (k1, j1) := (Run(Step(k, ts), trs), Run(Step(j, tr), us));
            var (a, b) := (Handle(k1, r, tr), Handle(j1, s, ts));
            && r in b.k.tcbs
            && (a.frame == b.k.tcbs[r].context <==> ShowsNoOrder(ts.frame))
            && OnlyOrderDiffers(a.frame, b.k.tcbs[r].context)
            && Ends(k1, a.k, s, r, ts.frame, m, dest) && Ends(j1, b.k, s, r, ts.frame, m, dest)
  {
    hide Dispatch;
    hide Handle;
    hide ServesNow;
    hide Inv;
    hide Decode;
    hide Ends;
    hide ShowsNoOrder;
    hide OnlyOrderDiffers;
    hide Received;
    hide Deposited;
    SentFirstReceives(k, ts, trs, tr, s, r, m, dest);
    ReceivedFirstReceives(j, tr, us, ts, s, r, m, dest);
    RegistersAgree(k, s, tr.frame, m, ts.frame);
  }

  /** Two traps in a row on an endpoint where nobody waits are the shortest case. */
  lemma NextTrapIsSentFirst(k: Kernel, ts: Trap, tr: Trap, s: TcbId, r: TcbId, m: Message, dest: Option<CPtr>)
    requires Inv(k) && SenderFirst(k, s, r, m.endpoint)
    requires SendsMessage(ts.frame.syscall) && Decode(k, s, ts.frame) == Success(m)
    requires tr.frame.syscall == RECV
    requires DecodeRecv(k, r, tr.frame.Mr(0), tr.frame) == Success(Reception(m.endpoint, dest))
    ensures SentFirst(k, ts, [], tr, s, r, m, dest) <==> Handle(Step(k, ts), r, tr).status.Ok?
  {
    hide Dispatch;
    hide Handle;
    hide Inv;
    hide Decode;
    hide DecodeRecv;
    SenderWaitsFirst(k, s, r, ts, tr, m, dest);
  }

  lemma NextTrapIsReceivedFirst(j: Kernel, tr: Trap, ts: Trap, s: TcbId, r: TcbId, m: Message, dest: Option<CPtr>)
    requires Inv(j) && SenderFirst(j, r, s, m.endpoint)
    requires SendsMessage(ts.frame.syscall) && Decode(j, s, ts.frame) == Success(m)
    requires tr.frame.syscall == RECV
    requires DecodeRecv(j, r, tr.frame.Mr(0), tr.frame) == Success(Reception(m.endpoint, dest))
    ensures ReceivedFirst(j, tr, [], ts, s, r, m, dest) <==> Handle(Step(j, tr), s, ts).status.Ok?
  {
    hide Dispatch;
    hide Handle;
    hide Inv;
    hide DecodeSend;
    hide DecodeCall;
    hide DecodeRecv;
    ReceiverWaitsFirst(j, s, r, ts, tr, m, dest);
  }
}
