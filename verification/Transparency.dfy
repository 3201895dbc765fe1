/** Context switches are transparent: a thread that is switched out finds its registers again,
    except for what was explicitly delivered to it. */
module Transparency {
  import opened Words
  import opened Wrappers
  import opened Capabilities
  import opened Objects
  import opened State
  import opened Ipc
  import opened IpcEffects
  import opened Invariants
  import opened Effects
  import opened Syscalls
  import opened Placement
  import opened AdminEffects
  import opened Upkeep

  predicate Rests(k: Kernel, t: TcbId) {
    t in k.tcbs && k.current != Some(t)
  }

  /** The registers that trap `tr` delivers to the waiting thread `t` if it serves it: the message
      of a sender or caller, the answer of a replier, or the pending bits of a signal. */
  function Delivered(k: Kernel, tr: Trap, t: TcbId): Option<Context>
    requires t in k.tcbs && k.current.Some?
  {
    var cur, f, c := k.current.value, tr.frame, k.tcbs[t].context;
    match k.tcbs[t].state
    case BlockedRecv(_, _) =>
      var m := if f.syscall == CALL then DecodeCall(k, cur, f.Mr(0), f) else DecodeSend(k, cur, f.Mr(0), f);
      if m.Success? then Some(c.Deliver(m.value.badge, m.value.payload, f.tag)) else None
    case BlockedReply(_) =>
      var a := DecodeReply(k, cur, f);
      if a.Success? then Some(c.Deliver(0, a.value.payload, f.tag)) else None
    case BlockedWait(n) =>
      var s := ResolveNotification(k, cur, f.Mr(0), {Write});
      if s.Success? && n in k.notifications then Some(c.SetMr(0, Or(k.notifications[n].signals, s.value.badge)))
      else None
    case _ => None
  }

  predicate SameStanding(a: Tcb, b: Tcb) {
    a.state == b.state && a.context == b.context
  }

  /** The state a thread served by call `n` gets: a directed switch makes it run. */
  predicate IsServedBy(n: Word, before: ThreadState, after: ThreadState) {
    match before
    case BlockedRecv(_, _) =>
      if n == CALL then after == Running else (n == SEND || n == NB_SEND) && after == Ready
    case BlockedReply(_) => n == REPLY && after == Running
    case BlockedWait(_) => n == SIGNAL && after == Ready
    case _ => false
  }

  /** What one trap may do to a thread that does not run before it. A ready or sending thread keeps
      all its registers. A thread that waits for a message, an answer or a signal keeps them until a
      trap serves it, and then has exactly what that trap delivers. */
  ghost predicate Progress(k: Kernel, tr: Trap, k': Kernel, t: TcbId)
    requires t in k.tcbs && k.current.Some?
  {
    && t in k'.tcbs
    && var a, b, n := k.tcbs[t], k'.tcbs[t], tr.frame.syscall;
       match a.state
       case Inactive => b.context == a.context && (b.state == Inactive || b.state == Ready)
       case Ready | Running => b.context == a.context && (b.state == Ready || b.state == Running)
       case BlockedSend(_, _, isCall, _, slot) =>
         b.context == a.context
         && (b.state == a.state || (n == RECV && b.state == if isCall then BlockedReply(slot) else Ready))
       case BlockedRecv(_, _) | BlockedReply(_) | BlockedWait(_) =>
         SameStanding(a, b) || (IsServedBy(n, a.state, b.state) && Delivered(k, tr, t) == Some(b.context))
  }

  // ---------------------------------------------------------------- what is delivered

  /** `t` has not been served, or has what the trap delivers. */
  ghost predicate ServedRight(k: Kernel, tr: Trap, k': Kernel, t: TcbId)
    requires t in k.tcbs && k.current.Some?
  {
    t in k'.tcbs && (k'.tcbs[t].state == k.tcbs[t].state || Delivered(k, tr, t) == Some(k'.tcbs[t].context))
  }

  lemma MakeReadyThread(k: Kernel, u: TcbId, t: TcbId)
    requires t in k.tcbs
    ensures var k' := MakeReady(k, u);
            && t in k'.tcbs && k'.tcbs[t].context == k.tcbs[t].context
            && (t != u ==> k'.tcbs[t] == k.tcbs[t])
  {
  }

  lemma SaveThread(k: Kernel, f: Context, t: TcbId)
    requires t in k.tcbs && k.current != Some(t)
    ensures var k' := SaveCurrent(k, f);
            t in k'.tcbs && k'.tcbs[t] == k.tcbs[t] && k'.ready == k.ready
  {
  }

  lemma ResumeThread(k: Kernel, f: Context, next: TcbId, t: TcbId)
    requires t in k.tcbs
    ensures var k' := Resume(k, f, next).0;
            && t in k'.tcbs && k'.tcbs[t].context == k.tcbs[t].context
            && (t != next ==> k'.tcbs[t] == k.tcbs[t])
  {
  }

  lemma SwitchThread(k: Kernel, f: Context, next: TcbId, t: TcbId)
    requires t in k.tcbs && k.current != Some(t)
    ensures var k' := SwitchTo(k, f, next).0;
            && t in k'.tcbs && k'.tcbs[t].context == k.tcbs[t].context
            && (t != next ==> k'.tcbs[t] == k.tcbs[t])
  {
    SaveThread(k, f, t);
    ResumeThread(SaveCurrent(k, f), f, next, t);
    hide SaveCurrent;
    hide Resume;
  }

  lemma DeliverThread(k: Kernel, m: Message, tag: MessageTag, q: seq<TcbId>, t: TcbId)
    requires q != [] && t in k.tcbs
    ensures var r := DeliverToReceiver(k, m, tag, q);
            r.Success? ==>
              && t in r.value.tcbs && r.value.current == k.current
              && r.value.tcbs[t] == if t == q[0] then k.tcbs[t].(context := k.tcbs[t].context.Deliver(m.badge, m.payload, tag))
                                    else k.tcbs[t]
  {
    TransferTouchesSlotsOnly(k, q[0], BlockedReceiverDestSlot(k, q[0]), m.extraCap);
    hide Transfer;
    hide Normalize;
  }

  lemma ParkThread(k: Kernel, f: Context, t: TcbId)
    requires t in k.tcbs && k.current != Some(t) && (k.ready != [] ==> t != k.ready[0])
    ensures var k' := Park(k, f).k; t in k'.tcbs && k'.tcbs[t] == k.tcbs[t]
  {
    if k.ready != [] {
      SaveThread(k, f, t);
      var k1 := SaveCurrent(k, f).(current := None);
      ResumeThread(k1.(ready := k1.ready[1..]), f, k1.ready[0], t);
    }
    hide SaveCurrent;
    hide Resume;
  }

  /** Parking at an endpoint whose queue has been written leaves other threads alone. */
  lemma ParkedElsewhere(k: Kernel, e: EndpointId, q: EndpointQueue, cur: TcbId, s: ThreadState, f: Context, t: TcbId)
    requires k.current == Some(cur) && t != cur && t in k.tcbs && (k.ready != [] ==> t != k.ready[0])
    ensures var k' := Park(SetState(SetEndpointQueue(k, e, q), cur, s), f).k; t in k'.tcbs && k'.tcbs[t] == k.tcbs[t]
  {
    hide Park;
    hide SetState;
    hide SetEndpointQueue;
    QueuedElsewhere(k, e, q, cur, s, t);
    ParkThread(SetState(SetEndpointQueue(k, e, q), cur, s), f, t);
  }

  lemma QueuedElsewhere(k: Kernel, e: EndpointId, q: EndpointQueue, cur: TcbId, s: ThreadState, t: TcbId)
    requires t != cur && t in k.tcbs
    ensures var k' := SetState(SetEndpointQueue(k, e, q), cur, s);
            && t in k'.tcbs && k'.tcbs[t] == k.tcbs[t]
            && k'.ready == k.ready && k'.current == k.current
  {
    hide SetState;
    var k1 := SetEndpointQueue(k, e, q);
    assert k1.tcbs == k.tcbs && k1.ready == k.ready && k1.current == k.current;
    hide SetEndpointQueue;
    StateElsewhere(k1, cur, s, t);
  }

  lemma StateElsewhere(k: Kernel, u: TcbId, s: ThreadState, t: TcbId)
    requires t != u && t in k.tcbs
    ensures var k' := SetState(k, u, s);
            t in k'.tcbs && k'.tcbs[t] == k.tcbs[t] && k'.ready == k.ready && k'.current == k.current
  {
  }

  lemma BlockSenderThread(k: Kernel, cur: TcbId, f: Context, m: Message, isCall: bool, t: TcbId)
    requires k.current == Some(cur) && t != cur && t in k.tcbs && (k.ready != [] ==> t != k.ready[0])
    requires m.endpoint in k.endpoints && !k.endpoints[m.endpoint].queue.RecvQueue?
    ensures var k' := BlockSender(k, cur, f, m, isCall).k; t in k'.tcbs && k'.tcbs[t] == k.tcbs[t]
  {
    hide Park;
    hide SetState;
    hide SetEndpointQueue;
    var queue := k.endpoints[m.endpoint].queue;
    var q := if queue.SendQueue? then queue.senders else [];
    if k.ready != [] && HasRoom(q) {
      ParkedElsewhere(k, m.endpoint, SendQueue(PushBack(q, cur)), cur,
                      BlockedSend(m.endpoint, m.badge, isCall, m.extraCap, m.replyDestSlot), f, t);
    }
  }

  /** A thread that is not ready is not the next to run. */
  lemma NotNext(k: Kernel, t: TcbId)
    requires Placed(k) && t in k.tcbs && k.tcbs[t].state != Ready
    ensures k.ready != [] ==> t != k.ready[0]
  {
    if k.ready != [] { HeadOf(k, ReadyQueue); }
  }

  lemma DeliveredBySend(k: Kernel, tr: Trap, t: TcbId)
    requires k.current.Some? && t in k.tcbs && k.tcbs[t].state.BlockedRecv? && tr.frame.syscall != CALL
    ensures var m := DecodeSend(k, k.current.value, tr.frame.Mr(0), tr.frame);
            m.Success? ==>
              Delivered(k, tr, t) == Some(k.tcbs[t].context.Deliver(m.value.badge, m.value.payload, tr.frame.tag))
  {
  }

  lemma SendServesRight(k: Kernel, tr: Trap, t: TcbId)
    requires Placed(k) && k.current.Some? && Rests(k, t) && k.tcbs[t].state.BlockedRecv?
    requires tr.frame.syscall == SEND || tr.frame.syscall == NB_SEND
    ensures ServedRight(k, tr, Send(k, k.current.value, tr.frame.Mr(0), tr.frame, tr.frame.syscall == NB_SEND).k, t)
  {
    hide Placed;
    hide DeliverToReceiver;
    hide MakeReady;
    hide BlockSender;
    hide DecodeSend;
    hide Delivered;
    var f, cur := tr.frame, k.current.value;
    NotNext(k, t);
    DeliveredBySend(k, tr, t);
    var d := DecodeSend(k, cur, f.Mr(0), f);
    if d.Success? {
      match k.endpoints[d.value.endpoint].queue
      case RecvQueue(q) =>
        if q != [] {
          DeliverThread(k, d.value, f.tag, q, t);
          var r := DeliverToReceiver(k, d.value, f.tag, q);
          if r.Success? { MakeReadyThread(r.value, q[0], t); }
        }
      case _ => BlockSenderThread(k, cur, f, d.value, false, t);
    }
  }

  lemma DeliveredByCall(k: Kernel, tr: Trap, t: TcbId)
    requires k.current.Some? && t in k.tcbs && k.tcbs[t].state.BlockedRecv? && tr.frame.syscall == CALL
    ensures var m := DecodeCall(k, k.current.value, tr.frame.Mr(0), tr.frame);
            m.Success? ==>
              Delivered(k, tr, t) == Some(k.tcbs[t].context.Deliver(m.value.badge, m.value.payload, tr.frame.tag))
  {
  }

  lemma CallServesRight(k: Kernel, tr: Trap, t: TcbId)
    requires Placed(k) && k.current.Some? && Rests(k, t) && k.tcbs[t].state.BlockedRecv? && tr.frame.syscall == CALL
    ensures ServedRight(k, tr, Call(k, k.current.value, tr.frame.Mr(0), tr.frame).k, t)
  {
    var f, cur := tr.frame, k.current.value;
    NotNext(k, t);
    hide Placed;
    hide LookupCap;
    hide DeliverToReceiver;
    hide HandOver;
    hide BlockSender;
    hide DecodeCall;
    var d := DecodeCall(k, cur, f.Mr(0), f);
    DeliveredByCall(k, tr, t);
    hide Delivered;
    if d.Success? {
      match k.endpoints[d.value.endpoint].queue
      case RecvQueue(q) =>
        if q != [] {
          DeliverThread(k, d.value, f.tag, q, t);
          var r := DeliverToReceiver(k, d.value, f.tag, q);
          if r.Success? { HandOverThread(r.value, cur, f, q[0], d.value.replyDestSlot, t); }
        }
      case _ =>
        BlockSenderThread(k, cur, f, d.value, true, t);
    }
  }

  lemma HandOverThread(k: Kernel, cur: TcbId, f: Context, r: TcbId, slot: Option<CPtr>, t: TcbId)
    requires t in k.tcbs && k.current == Some(cur) && t != cur
    ensures var k' := HandOver(k, cur, f, r, slot).k;
            && t in k'.tcbs && k'.tcbs[t].context == k.tcbs[t].context
            && (t != r ==> k'.tcbs[t] == k.tcbs[t])
  {
    var k1 := SetState(SetReplyTo(k, r, Some(cur)), cur, BlockedReply(slot));
    LinkThread(k, cur, r, slot, t);
    hide SetState;
    hide SetReplyTo;
    hide SwitchTo;
    SwitchThread(k1, f, r, t);
  }

  lemma SetReplyToThread(k: Kernel, u: TcbId, r: Option<TcbId>, t: TcbId)
    requires t in k.tcbs
    ensures var k' := SetReplyTo(k, u, r);
            && t in k'.tcbs && k'.current == k.current && k'.tcbs[t].context == k.tcbs[t].context
            && (t != u ==> k'.tcbs[t] == k.tcbs[t])
  {
  }

  lemma SetStateThread(k: Kernel, u: TcbId, s: ThreadState, t: TcbId)
    requires t in k.tcbs
    ensures var k' := SetState(k, u, s);
            && t in k'.tcbs && k'.current == k.current && k'.tcbs[t].context == k.tcbs[t].context
            && (t != u ==> k'.tcbs[t] == k.tcbs[t])
  {
  }

  lemma LinkThread(k: Kernel, cur: TcbId, r: TcbId, slot: Option<CPtr>, t: TcbId)
    requires t in k.tcbs && t != cur
    ensures var k' := SetState(SetReplyTo(k, r, Some(cur)), cur, BlockedReply(slot));
            && k'.current == k.current && t in k'.tcbs && k'.tcbs[t].context == k.tcbs[t].context
            && (t != r ==> k'.tcbs[t] == k.tcbs[t])
  {
    SetReplyToThread(k, r, Some(cur), t);
    SetStateThread(SetReplyTo(k, r, Some(cur)), cur, BlockedReply(slot), t);
    hide SetReplyTo;
    hide SetState;
  }

  lemma ReplyServesRight(k: Kernel, tr: Trap, t: TcbId)
    requires k.current.Some? && Rests(k, t) && k.tcbs[t].state.BlockedReply? && tr.frame.syscall == REPLY
    ensures ServedRight(k, tr, Reply(k, k.current.value, tr.frame).k, t)
  {
    hide Transfer;
    hide AnswerCaller;
    hide DecodeReply;
    var f, cur := tr.frame, k.current.value;
    var d := DecodeReply(k, cur, f);
    if d.Success? {
      var Answer(u, extra, payload) := d.value;
      TransferTouchesSlotsOnly(k, u, BlockedCallerReplyDestSlot(k, u), extra);
      var r := Transfer(k, u, BlockedCallerReplyDestSlot(k, u), extra);
      if r.Success? { AnswerThread(r.value, cur, f, u, payload, t); }
    }
  }

  lemma AnswerThread(k: Kernel, cur: TcbId, f: Context, u: TcbId, payload: Payload, t: TcbId)
    requires t in k.tcbs && k.current == Some(cur) && t != cur
    ensures var k' := AnswerCaller(k, cur, f, u, payload).k;
            && t in k'.tcbs
            && (if t == u then k'.tcbs[t].context == k.tcbs[t].context.Deliver(0, payload, f.tag)
                else k'.tcbs[t] == k.tcbs[t])
  {
    var k1 := SetReplyTo(k, cur, None);
    if u in k1.tcbs {
      var k2 := DeliverPayload(k1, u, 0, payload, f.tag);
      MakeReadyThread(k2, cur, t);
      SwitchThread(MakeReady(k2, cur), f, u, t);
    }
    hide MakeReady;
    hide SwitchTo;
  }

  lemma SignalServesRight(k: Kernel, tr: Trap, t: TcbId)
    requires Placed(k) && k.current.Some? && Rests(k, t) && k.tcbs[t].state.BlockedWait? && tr.frame.syscall == SIGNAL
    ensures ServedRight(k, tr, Signal(k, k.current.value, tr.frame.Mr(0), tr.frame).k, t)
  {
    hide Placed;
    hide Or;
    hide WakeWaiter;
    hide SetSignals;
    hide ResolveNotification;
    var f, cur := tr.frame, k.current.value;
    var d := ResolveNotification(k, cur, f.Mr(0), {Write});
    if d.Success? && d.value.notification in k.notifications {
      var NotificationTarget(id, badge) := d.value;
      if k.notifications[id].waiters != [] {
        HeadOf(k, Waiters(id));
        WakeThread(k, id, badge, t);
      } else {
        SignalsThread(k, id, Or(k.notifications[id].signals, badge), k.notifications[id].waiters, t);
      }
    }
  }

  lemma SignalsThread(k: Kernel, id: NotificationId, signals: Word, waiters: seq<TcbId>, t: TcbId)
    requires t in k.tcbs
    ensures var k' := SetSignals(k, id, signals, waiters); k'.tcbs == k.tcbs && k'.ready == k.ready && k'.current == k.current
  {
  }

  lemma WakeThread(k: Kernel, id: NotificationId, badge: Word, t: TcbId)
    requires t in k.tcbs && id in k.notifications && k.notifications[id].waiters != []
    ensures var n, k' := k.notifications[id], WakeWaiter(k, id, badge);
            && t in k'.tcbs
            && (if t == n.waiters[0] then k'.tcbs[t].context == k.tcbs[t].context.SetMr(0, Or(n.signals, badge))
                else k'.tcbs[t] == k.tcbs[t])
  {
    hide Or;
    var n := k.notifications[id];
    var w := n.waiters[0];
    var k1 := SetSignals(k, id, 0, n.waiters[1..]);
    var k2 := if w in k1.tcbs then SetContext(k1, w, k1.tcbs[w].context.SetMr(0, Or(n.signals, badge))) else k1;
    MakeReadyThread(k2, w, t);
    hide MakeReady;
  }

  /** A thread that waits is left waiting, or gets exactly what the trap delivers. */
  lemma HandlerServesRight(k: Kernel, tr: Trap, t: TcbId)
    requires Inv(k) && Rests(k, t)
    requires IsServedBy(tr.frame.syscall, k.tcbs[t].state, Running) || IsServedBy(tr.frame.syscall, k.tcbs[t].state, Ready)
    ensures ServedRight(k, tr, Step(k, tr), t)
  {
    hide ServedRight;
    hide Send;
    hide Call;
    hide Reply;
    hide Signal;
    var n := tr.frame.syscall;
    if n == SEND || n == NB_SEND {
      SendServesRight(k, tr, t);
    } else if n == CALL {
      CallServesRight(k, tr, t);
    } else if n == REPLY {
      ReplyServesRight(k, tr, t);
    } else {
      SignalServesRight(k, tr, t);
    }
  }

  // --------------------------------------------------------------------- one trap

  /** What a move does to a thread that does not run before it, registers that are delivered aside. */
  ghost predicate MovesOn(n: Word, a: Tcb, b: Tcb) {
    match a.state
    case Inactive => b.context == a.context && (b.state == Inactive || b.state == Ready)
    case Ready | Running => b.context == a.context && (b.state == Ready || b.state == Running)
    case BlockedSend(_, _, isCall, _, slot) =>
      b.context == a.context
      && (b.state == a.state || (n == RECV && b.state == if isCall then BlockedReply(slot) else Ready))
    case BlockedRecv(_, _) | BlockedReply(_) | BlockedWait(_) =>
      SameStanding(a, b) || IsServedBy(n, a.state, b.state)
  }

  lemma MoveMovesOn(n: Word, x: Effect, k: Kernel, f: Context, k': Kernel, f': Context, t: TcbId)
    requires ThreadsOk(k) && Does(x, k, f, k', f') && Causes(n, x) && Rests(k, t)
    ensures t in k'.tcbs && MovesOn(n, k.tcbs[t], k'.tcbs[t])
  {
    match x
    case Woken(p, _, _) => HeadOf(k, p);
    case Called(e, _, _, _) => HeadOf(k, Receivers(e));
    case Replied(u, _) => assert Owes(k, k.current.value, u);
    case Parked(_, _) => ParkMovesOn(n, x, k, f, k', f', t);
    case _ =>
  }

  lemma ParkMovesOn(n: Word, x: Effect, k: Kernel, f: Context, k': Kernel, f': Context, t: TcbId)
    requires ThreadsOk(k) && x.Parked? && Does(x, k, f, k', f') && Rests(k, t)
    ensures t in k'.tcbs && MovesOn(n, k.tcbs[t], k'.tcbs[t])
  {
    if k.ready != [] { HeadOf(k, ReadyQueue); }
  }

  lemma StepMovesOn(k: Kernel, tr: Trap, t: TcbId)
    requires Inv(k) && Rests(k, t)
    ensures t in Step(k, tr).tcbs && MovesOn(tr.frame.syscall, k.tcbs[t], Step(k, tr).tcbs[t])
  {
    hide Handle;
    DispatchMoves(k, tr);
    var (k', f') := Dispatch(k, tr);
    var x :| Does(x, k, tr.frame, k', f') && Causes(tr.frame.syscall, x);
    MoveMovesOn(tr.frame.syscall, x, k, tr.frame, k', f', t);
  }

  /** Whatever trap comes, a thread that does not run keeps its registers until it is served, and
      then has exactly what it was served. */
  lemma StepKeepsRegisters(k: Kernel, tr: Trap, t: TcbId)
    requires Inv(k) && Rests(k, t)
    ensures Progress(k, tr, Step(k, tr), t)
  {
    hide Dispatch;
    hide Delivered;
    StepMovesOn(k, tr, t);
    if IsServedBy(tr.frame.syscall, k.tcbs[t].state, Step(k, tr).tcbs[t].state) {
      HandlerServesRight(k, tr, t);
    }
  }

  /** A resumed thread's frame is its saved context; a resumption by `Yield` clears the flag. */
  predicate IsResumed(n: Word, saved: Context, f': Context) {
    f' == if n == YIELD then ReplySuccess(saved) else saved
  }

  /** The thread that stops running has its frame saved, and the one that starts is loaded. */
  lemma MoveSavesAndLoads(n: Word, x: Effect, k: Kernel, f: Context, k': Kernel, f': Context)
    requires ThreadsOk(k) && k.current.Some? && Does(x, k, f, k', f') && Causes(n, x) && k'.current != k.current
    ensures k'.current.Some? && k'.current.value in k'.tcbs
    ensures k.current.value in k'.tcbs && k'.tcbs[k.current.value].context == f
    ensures IsResumed(n, k'.tcbs[k'.current.value].context, f')
  {
    match x
    case Called(e, u, _, _) => HeadOf(k, Receivers(e));
    case _ =>
  }

  lemma StepSavesAndLoads(k: Kernel, tr: Trap)
    requires Inv(k) && Step(k, tr).current != k.current
    ensures var (k', f') := Dispatch(k, tr);
            && k'.current.Some? && k'.current.value in k'.tcbs
            && k.current.value in k'.tcbs && k'.tcbs[k.current.value].context == tr.frame
            && IsResumed(tr.frame.syscall, k'.tcbs[k'.current.value].context, f')
  {
    DispatchMoves(k, tr);
    var (k', f') := Dispatch(k, tr);
    var x :| Does(x, k, tr.frame, k', f') && Causes(tr.frame.syscall, x);
    MoveSavesAndLoads(tr.frame.syscall, x, k, tr.frame, k', f');
  }

  // -------------------------------------------------------------------- every run

  /** `t` does not run before or after any trap of the run. */
  ghost predicate RestsThrough(k: Kernel, trs: seq<Trap>, t: TcbId)
    decreases |trs|
  {
    Rests(k, t) && (trs != [] ==> RestsThrough(Step(k, trs[0]), trs[1..], t))
  }

  /** `t` keeps its state and registers up to a trap of the run that makes it ready with registers `d`. */
  ghost predicate WokenWith(k: Kernel, trs: seq<Trap>, t: TcbId, d: Context)
    decreases |trs|
  {
    && trs != [] && t in k.tcbs && k.current.Some?
    && var k' := Step(k, trs[0]);
       && t in k'.tcbs
       && if SameStanding(k.tcbs[t], k'.tcbs[t]) then WokenWith(k', trs[1..], t, d)
          else k'.tcbs[t].state == Ready && Delivered(k, trs[0], t) == Some(d)
  }

  /** What has become of thread `t` when it has not run during a run of traps. */
  ghost predicate Rested(k: Kernel, trs: seq<Trap>, t: TcbId)
    requires t in k.tcbs
  {
    var k' := Run(k, trs);
    && t in k'.tcbs
    && var a, b := k.tcbs[t], k'.tcbs[t];
       match a.state
       case Inactive | Running => b.context == a.context
       case Ready => SameStanding(a, b)
       case BlockedSend(_, _, isCall, _, slot) =>
         b.context == a.context && (b.state == a.state || b.state == if isCall then BlockedReply(slot) else Ready)
       case BlockedReply(_) => SameStanding(a, b)
       case BlockedRecv(_, _) | BlockedWait(_) =>
         SameStanding(a, b) || (b.state == Ready && WokenWith(k, trs, t, b.context))
  }

  lemma NotRunning(k: Kernel, t: TcbId)
    requires Inv(k) && Rests(k, t)
    ensures k.tcbs[t].state != Running
  {
  }

  /** One more trap at the front of a run. */
  lemma RestedStep(k: Kernel, trs: seq<Trap>, t: TcbId)
    requires trs != [] && k.current.Some?
    requires Rests(k, t) && k.tcbs[t].state != Running
    requires Progress(k, trs[0], Step(k, trs[0]), t) && Step(k, trs[0]).tcbs[t].state != Running
    requires Rested(Step(k, trs[0]), trs[1..], t)
    ensures Rested(k, trs, t)
  {
    hide Dispatch;
    hide Delivered;
    assert Run(k, trs) == Run(Step(k, trs[0]), trs[1..]);
  }

  /** A thread that rests through a run keeps all its registers, unless it waits for a message or a
      signal and is woken: then it has what the waking trap delivered. */
  lemma {:induction false} RunKeepsRegisters(k: Kernel, trs: seq<Trap>, t: TcbId)
    requires Inv(k) && RestsThrough(k, trs, t)
    ensures Rested(k, trs, t) && Inv(Run(k, trs)) && Rests(Run(k, trs), t)
    decreases |trs|
  {
    hide Dispatch;
    if trs != [] {
      StepKeepsRegisters(k, trs[0], t);
      StepKeepsInv(k, trs[0]);
      RunKeepsRegisters(Step(k, trs[0]), trs[1..], t);
      NotRunning(k, t);
      NotRunning(Step(k, trs[0]), t);
      hide Inv;
      RestedStep(k, trs, t);
    }
  }

  /** The parts of the registers that a wake-up leaves alone: a signal writes `mr0` only, a message
      or an answer the message registers and the tag. */
  predicate WakesWithin(s: ThreadState, c: Context, d: Context) {
    match s
    case BlockedWait(_) => d == c.SetMr(0, d.Mr(0))
    case BlockedRecv(_, _) | BlockedReply(_) => SameHiddenRegisters(c, d)
    case _ => false
  }

  lemma DeliveredWithin(k: Kernel, tr: Trap, t: TcbId)
    requires t in k.tcbs && k.current.Some?
    ensures var d := Delivered(k, tr, t); d.Some? ==> WakesWithin(k.tcbs[t].state, k.tcbs[t].context, d.value)
  {
    hide LookupCap;
    hide Or;
  }

  lemma {:induction false} WokenWithin(k: Kernel, trs: seq<Trap>, t: TcbId, d: Context)
    requires t in k.tcbs && WokenWith(k, trs, t, d)
    ensures WakesWithin(k.tcbs[t].state, k.tcbs[t].context, d)
    decreases |trs|
  {
    hide Dispatch;
    DeliveredWithin(k, trs[0], t);
    hide Delivered;
    if SameStanding(k.tcbs[t], Step(k, trs[0]).tcbs[t]) {
      WokenWithin(Step(k, trs[0]), trs[1..], t, d);
    }
  }

  /** How a thread that was switched out with registers `c`, giving kernel `k1`, is resumed with
      frame `f'` by trap `back` of kernel `k2`, after the run `trs`. */
  ghost predicate ResumesWith(c: Context, k1: Kernel, trs: seq<Trap>, k2: Kernel, back: Trap, f': Context, t: TcbId)
    requires t in k1.tcbs && t in k2.tcbs && k2.current.Some?
  {
    var n := back.frame.syscall;
    match k1.tcbs[t].state
    case Ready => IsResumed(n, c, f')
    case BlockedSend(_, _, isCall, _, _) =>
      if isCall then AnsweredWith(c, k2, back, f', t) else IsResumed(n, c, f')
    case BlockedReply(_) => AnsweredWith(c, k2, back, f', t)
    case BlockedRecv(_, _) =>
      || (n == CALL && SameStanding(k1.tcbs[t], k2.tcbs[t]) && Delivered(k2, back, t) == Some(f'))
      || WokenBefore(c, k1, trs, n, f', t)
    case BlockedWait(_) => WokenBefore(c, k1, trs, n, f', t)
    case Inactive | Running => false
  }

  /** The trap `back` is the `Reply` that answers, and its message is all that has changed. */
  ghost predicate AnsweredWith(c: Context, k2: Kernel, back: Trap, f': Context, t: TcbId)
    requires t in k2.tcbs && k2.current.Some?
  {
    && back.frame.syscall == REPLY && k2.tcbs[t].state.BlockedReply? && k2.tcbs[t].context == c
    && Delivered(k2, back, t) == Some(f')
  }

  /** One trap of the run woke the thread, and what that trap delivered is all that has changed. */
  ghost predicate WokenBefore(c: Context, k1: Kernel, trs: seq<Trap>, n: Word, f': Context, t: TcbId)
    requires t in k1.tcbs
  {
    exists d :: WokenWith(k1, trs, t, d) && WakesWithin(k1.tcbs[t].state, c, d) && IsResumed(n, d, f')
  }

  lemma RestedIsResumed(c: Context, k1: Kernel, trs: seq<Trap>, k2: Kernel, back: Trap, k3: Kernel, f': Context, t: TcbId)
    requires t in k1.tcbs && k1.tcbs[t].context == c && k2 == Run(k1, trs) && k2.current.Some?
    requires Rested(k1, trs, t) && Progress(k2, back, k3, t) && k3.tcbs[t].state == Running
    requires k1.tcbs[t].state != Running && k1.tcbs[t].state != Inactive && k2.tcbs[t].state != Running
    requires IsResumed(back.frame.syscall, k3.tcbs[t].context, f')
    ensures ResumesWith(c, k1, trs, k2, back, f', t)
  {
    hide Run;
    hide Delivered;
    hide WokenWith;
    if k1.tcbs[t].state.BlockedRecv? || k1.tcbs[t].state.BlockedWait? {
      var d := k2.tcbs[t].context;
      if WokenWith(k1, trs, t, d) {
        WokenWithin(k1, trs, t, d);
      }
    }
  }

  /** A thread is switched out by trap `out`, rests through any run, and is switched in by trap
      `back`. If it was ready or blocked in `Send`, it resumes with all of its registers; if it
      waited for a signal, with all but `mr0`; if it waited for a message or for an answer, with the
      message of the one trap that served it. (A `Yield` that resumes it clears the flag.) */
  lemma SwitchRoundTrip(k: Kernel, out: Trap, trs: seq<Trap>, back: Trap, t: TcbId)
    requires Inv(k) && k.current == Some(t)
    requires RestsThrough(Step(k, out), trs, t)
    requires Step(Run(Step(k, out), trs), back).current == Some(t)
    ensures t in Step(k, out).tcbs && t in Run(Step(k, out), trs).tcbs && Run(Step(k, out), trs).current.Some?
    ensures ResumesWith(out.frame, Step(k, out), trs, Run(Step(k, out), trs), back,
                        Dispatch(Run(Step(k, out), trs), back).1, t)
  {
    hide Dispatch;
    var k1 := Step(k, out);
    var k2 := Run(k1, trs);
    StepSavesAndLoads(k, out);
    StepKeepsInv(k, out);
    RunKeepsRegisters(k1, trs, t);
    StepKeepsRegisters(k2, back, t);
    StepSavesAndLoads(k2, back);
    StepKeepsInv(k2, back);
    hide ResumesWith;
    hide Progress;
    hide Rested;
    hide Run;
    SwitchedOutIsLive(k, out, t);
    NotRunning(k2, t);
    RestedIsResumed(out.frame, k1, trs, k2, back, Step(k2, back), Dispatch(k2, back).1, t);
  }

  /** A thread that ran is not inactive afterwards. */
  lemma SwitchedOutIsLive(k: Kernel, out: Trap, t: TcbId)
    requires Inv(k) && k.current == Some(t) && Rests(Step(k, out), t)
    ensures Step(k, out).tcbs[t].state != Inactive && Step(k, out).tcbs[t].state != Running
  {
    hide Handle;
    StepKeepsInv(k, out);
    DispatchMoves(k, out);
    var (k', f') := Dispatch(k, out);
    var x :| Does(x, k, out.frame, k', f') && Causes(out.frame.syscall, x);
    LiveAfterMove(x, k, out.frame, k', f', t);
    NotRunning(k', t);
  }

  lemma LiveAfterMove(x: Effect, k: Kernel, f: Context, k': Kernel, f': Context, t: TcbId)
    requires ThreadsOk(k) && Does(x, k, f, k', f') && k.current == Some(t) && t in k'.tcbs
    ensures k'.tcbs[t].state != Inactive
  {
  }
}
