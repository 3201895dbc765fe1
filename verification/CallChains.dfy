/** Reply links never form a cycle, and a call is answered at most once, by the thread that
    received it. */
module CallChains {
  import opened Words
  import opened Wrappers
  import opened Capabilities
  import opened Objects
  import opened State
  import opened Ipc
  import opened IpcEffects
  import opened Invariants
  import opened Effects
  import opened Syscalls
  import opened Placement
  import opened AdminEffects
  import opened Upkeep

  /** Each thread of `p` owes the next one a reply. */
  ghost predicate Chain(k: Kernel, p: seq<TcbId>) {
    forall i :: 0 <= i < |p| - 1 ==> Owes(k, p[i], p[i + 1])
  }

  ghost predicate Acyclic(k: Kernel) {
    forall p :: Chain(k, p) && |p| >= 2 ==> p[0] != p[|p| - 1]
  }

  predicate AwaitsReply(k: Kernel, t: TcbId) {
    t in k.tcbs && k.tcbs[t].state.BlockedReply?
  }

  /** A thread that gains a link does not itself wait for a reply. */
  lemma NewLinkHolderIsFree(x: Effect, k: Kernel, f: Context, k': Kernel, f': Context, h: TcbId, t: TcbId)
    requires ThreadsOk(k) && Does(x, k, f, k', f')
    requires Owes(k', h, t) && !Owes(k, h, t)
    ensures !AwaitsReply(k', h)
  {
    match x
    case AcceptedCall(e, u, _) => HeadOf(k, Senders(e));
    case Called(e, u, _, _) => HeadOf(k, Receivers(e));
    case _ =>
  }

  lemma MoveKeepsAcyclic(x: Effect, k: Kernel, f: Context, k': Kernel, f': Context)
    requires ThreadsOk(k) && ThreadsOk(k') && Acyclic(k) && Does(x, k, f, k', f')
    ensures Acyclic(k')
  {
    forall p | Chain(k', p) && |p| >= 2 ensures p[0] != p[|p| - 1] {
      if p[0] == p[|p| - 1] {
        CycleWasThere(x, k, f, k', f', p);
      }
    }
  }

  /** In a cycle everybody waits for a reply, so no link of it can be new. */
  lemma CycleWasThere(x: Effect, k: Kernel, f: Context, k': Kernel, f': Context, p: seq<TcbId>)
    requires ThreadsOk(k) && ThreadsOk(k') && Does(x, k, f, k', f')
    requires Chain(k', p) && |p| >= 2 && p[0] == p[|p| - 1]
    ensures Chain(k, p)
  {
    forall i | 0 <= i < |p| - 1 ensures Owes(k, p[i], p[i + 1]) {
      assert Owes(k', p[i], p[i + 1]);
      var before := if i == 0 then |p| - 2 else i - 1;
      assert Owes(k', p[before], p[before + 1]);
      assert AwaitsReply(k', p[i]);
      if !Owes(k, p[i], p[i + 1]) {
        NewLinkHolderIsFree(x, k, f, k', f', p[i], p[i + 1]);
      }
    }
  }

  /** Over any run, following reply links never leads back. */
  lemma {:induction false} RunKeepsAcyclic(k: Kernel, trs: seq<Trap>)
    requires Inv(k) && Acyclic(k)
    ensures Acyclic(Run(k, trs))
    decreases |trs|
  {
    if trs != [] {
      StepKeepsAcyclic(k, trs[0]);
      StepKeepsInv(k, trs[0]);
      RunKeepsAcyclic(Step(k, trs[0]), trs[1..]);
    }
  }

  lemma StepKeepsAcyclic(k: Kernel, tr: Trap)
    requires Inv(k) && Acyclic(k)
    ensures Acyclic(Step(k, tr))
  {
    DispatchMoves(k, tr);
    var (k', f') := Dispatch(k, tr);
    var x :| Does(x, k, tr.frame, k', f');
    MoveKeepsThreads(x, k, tr.frame, k', f');
    MoveKeepsAcyclic(x, k, tr.frame, k', f');
  }

  // ------------------------------------------------------------------- one answer

  /** Nobody new owes `t` a reply. */
  ghost predicate NoNewDebtor(k: Kernel, k': Kernel, t: TcbId) {
    forall h :: Owes(k', h, t) ==> Owes(k, h, t)
  }

  /** `t` has been answered: the running thread owed it the reply, `t` runs, and the debt is gone. */
  ghost predicate Answered(n: Word, k: Kernel, k': Kernel, t: TcbId) {
    && n == REPLY && k.current.Some? && Owes(k, k.current.value, t)
    && k'.current == Some(t)
    && (forall h :: !Owes(k', h, t))
    && (forall u :: !Owes(k', k.current.value, u))
  }

  lemma ParkedAnswersNobody(p: Place, st: ThreadState, k: Kernel, f: Context, k': Kernel, f': Context, t: TcbId)
    requires ThreadsOk(k) && ThreadsOk(k') && Parks(p, st, k, f, k', f') && AwaitsReply(k, t)
    ensures AwaitsReply(k', t) && NoNewDebtor(k, k', t)
  {
    if k.ready != [] { HeadOf(k, ReadyQueue); }
  }

  lemma CalledAnswersNobody(x: Effect, k: Kernel, f: Context, k': Kernel, f': Context, t: TcbId)
    requires ThreadsOk(k) && Does(x, k, f, k', f') && (x.AcceptedCall? || x.Called?) && AwaitsReply(k, t)
    ensures AwaitsReply(k', t) && NoNewDebtor(k, k', t)
  {
    match x
    case AcceptedCall(e, _, _) => HeadOf(k, Senders(e));
    case Called(e, _, _, _) => HeadOf(k, Receivers(e));
  }

  lemma ReplyAnswersOne(x: Effect, k: Kernel, f: Context, k': Kernel, f': Context, t: TcbId)
    requires ThreadsOk(k) && ThreadsOk(k') && x.Replied? && Does(x, k, f, k', f') && AwaitsReply(k, t)
    ensures if AwaitsReply(k', t) then NoNewDebtor(k, k', t) else Answered(REPLY, k, k', t)
  {
  }

  lemma MoveAnswers(n: Word, x: Effect, k: Kernel, f: Context, k': Kernel, f': Context, t: TcbId)
    requires ThreadsOk(k) && ThreadsOk(k') && Does(x, k, f, k', f') && Causes(n, x) && AwaitsReply(k, t)
    ensures if AwaitsReply(k', t) then NoNewDebtor(k, k', t) else Answered(n, k, k', t)
  {
    match x
    case Woken(p, _, _) => HeadOf(k, p);
    case AcceptedCall(_, _, _) => CalledAnswersNobody(x, k, f, k', f', t);
    case Called(_, _, _, _) => CalledAnswersNobody(x, k, f, k', f', t);
    case Parked(p, st) => ParkedAnswersNobody(p, st, k, f, k', f', t);
    case Replied(_, _) => ReplyAnswersOne(x, k, f, k', f', t);
    case _ =>
  }

  lemma StepAnswers(k: Kernel, tr: Trap, t: TcbId)
    requires Inv(k) && AwaitsReply(k, t)
    ensures if AwaitsReply(Step(k, tr), t) then NoNewDebtor(k, Step(k, tr), t)
            else Answered(tr.frame.syscall, k, Step(k, tr), t)
  {
    DispatchMoves(k, tr);
    var (k', f') := Dispatch(k, tr);
    var x :| Does(x, k, tr.frame, k', f') && Causes(tr.frame.syscall, x);
    MoveKeepsThreads(x, k, tr.frame, k', f');
    MoveAnswers(tr.frame.syscall, x, k, tr.frame, k', f', t);
  }

  /** `t` waits for a reply before every trap of the run, and no longer after the last. */
  ghost predicate WaitsUntilEnd(k: Kernel, trs: seq<Trap>, t: TcbId)
    decreases |trs|
  {
    && trs != [] && AwaitsReply(k, t)
    && if |trs| == 1 then !AwaitsReply(Step(k, trs[0]), t) else WaitsUntilEnd(Step(k, trs[0]), trs[1..], t)
  }

  /** The kernel at the last trap of a run. */
  function BeforeLast(k: Kernel, trs: seq<Trap>): Kernel
    requires trs != []
    decreases |trs|
  {
    if |trs| == 1 then k else BeforeLast(Step(k, trs[0]), trs[1..])
  }

  /** Trap `tr` of kernel `b` answers `t`, and the thread that does owed it the reply in `k`. */
  ghost predicate DebtorAnswers(k: Kernel, b: Kernel, tr: Trap, t: TcbId) {
    Answered(tr.frame.syscall, b, Step(b, tr), t) && Owes(k, b.current.value, t)
  }

  lemma EarlierDebtor(k: Kernel, k1: Kernel, b: Kernel, tr: Trap, t: TcbId)
    requires NoNewDebtor(k, k1, t) && DebtorAnswers(k1, b, tr, t)
    ensures DebtorAnswers(k, b, tr, t)
  {
  }

  /** However long a call goes unanswered, the one trap that ends the wait is a `Reply` by the
      thread that owed it from the start; after it nobody owes the caller anything. */
  lemma {:induction false} OnlyDebtorAnswers(k: Kernel, trs: seq<Trap>, t: TcbId)
    requires Inv(k) && WaitsUntilEnd(k, trs, t)
    ensures DebtorAnswers(k, BeforeLast(k, trs), trs[|trs| - 1], t)
    decreases |trs|
  {
    hide Dispatch;
    StepAnswers(k, trs[0], t);
    if |trs| > 1 {
      StepKeepsInv(k, trs[0]);
      OnlyDebtorAnswers(Step(k, trs[0]), trs[1..], t);
      EarlierDebtor(k, Step(k, trs[0]), BeforeLast(k, trs), trs[|trs| - 1], t);
    }
  }

  // ------------------------------------------------------------------ lost callers

  /** `t` waits for a reply that nobody owes it. */
  ghost predicate IsLost(k: Kernel, t: TcbId) {
    AwaitsReply(k, t) && forall g :: !Owes(k, g, t)
  }

  /** A caller that nobody owes a reply to waits for ever. */
  lemma {:induction false} OrphanWaitsForever(k: Kernel, trs: seq<Trap>, t: TcbId)
    requires Inv(k) && IsLost(k, t)
    ensures IsLost(Run(k, trs), t)
    decreases |trs|
  {
    hide Dispatch;
    if trs != [] {
      StepAnswers(k, trs[0], t);
      StepKeepsInv(k, trs[0]);
      OrphanWaitsForever(Step(k, trs[0]), trs[1..], t);
    }
  }

  lemma OneDebtEach(k: Kernel, k': Kernel, h: TcbId, g: TcbId, first: TcbId, t: TcbId)
    requires Linked(k) && NoNewDebtor(k, k', first) && Owes(k, h, first) && Owes(k', h, t)
    requires Owes(k', g, first)
    ensures t == first
  {
    assert Owes(k, g, first);
  }

  /** A debtor that owes a reply to another caller has lost the first. */
  lemma OverwrittenCallerIsLost(k: Kernel, tr: Trap, h: TcbId, first: TcbId, t: TcbId)
    requires Inv(k) && Owes(k, h, first) && Owes(Step(k, tr), h, t) && t != first
    ensures IsLost(Step(k, tr), first)
  {
    hide Dispatch;
    StepAnswers(k, tr, first);
    var k' := Step(k, tr);
    forall g ensures !Owes(k', g, first) {
      if Owes(k', g, first) {
        OneDebtEach(k, k', h, g, first, t);
        assert false;
      }
    }
  }

  /** The running thread receives from an endpoint whose head sender has blocked in a `Call`, and
      the capability it attached, if any, can be placed. */
  predicate ReceivesCall(k: Kernel, tr: Trap) {
    && k.current.Some? && tr.frame.syscall == RECV
    && var d := DecodeRecv(k, k.current.value, tr.frame.Mr(0), tr.frame);
       && d.Success? && k.endpoints[d.value.endpoint].queue.SendQueue?
       && var q := k.endpoints[d.value.endpoint].queue.senders;
          && q != [] && q[0] in k.tcbs && k.tcbs[q[0]].state.BlockedSend? && k.tcbs[q[0]].state.isCall
          && Transfer(k, k.current.value, d.value.destSlot, k.tcbs[q[0]].state.extraCap).Success?
  }

  /** The running thread calls an endpoint whose head receiver is `h`, and the capability it
      attaches, if any, can be placed. */
  predicate IsCalled(k: Kernel, tr: Trap, h: TcbId) {
    && k.current.Some? && tr.frame.syscall == CALL
    && var d := DecodeCall(k, k.current.value, tr.frame.Mr(0), tr.frame);
       && d.Success? && k.endpoints[d.value.endpoint].queue.RecvQueue?
       && var q := k.endpoints[d.value.endpoint].queue.receivers;
          && q != [] && q[0] == h
          && Transfer(k, h, BlockedReceiverDestSlot(k, h), d.value.extraCap).Success?
  }

  /** Thread `h` takes a call at this trap. */
  predicate TakesCall(k: Kernel, tr: Trap, h: TcbId) {
    (k.current == Some(h) && ReceivesCall(k, tr)) || IsCalled(k, tr, h)
  }

  // ------------------------------------------------- a thread that takes a call owes it

  lemma ReceivedCallIsOwed(k: Kernel, tr: Trap)
    requires Inv(k) && ReceivesCall(k, tr)
    ensures var q := k.endpoints[DecodeRecv(k, k.current.value, tr.frame.Mr(0), tr.frame).value.endpoint].queue.senders;
            Owes(Step(k, tr), k.current.value, q[0])
  {
    hide ReleaseSender;
    hide Transfer;
    hide DecodeRecv;
    hide WellFormed;
    hide Wakes;
    hide SameQueuesBut;
    var cur, f := k.current.value, tr.frame;
    var Reception(id, dest) := DecodeRecv(k, cur, f.Mr(0), f).value;
    var q := k.endpoints[id].queue.senders;
    var st := k.tcbs[q[0]].state;
    var r := Transfer(k, cur, dest, st.extraCap);
    TransferTouchesSlotsOnly(k, cur, dest, st.extraCap);
    WaitingHead(k, Senders(id));
    ReleaseSenderEffect(k, r.value, id, true, st.replyDestSlot);
    assert Step(k, tr) == ReleaseSender(r.value, cur, id, q, true, st.replyDestSlot);
  }

  lemma CallIsOwed(k: Kernel, tr: Trap, h: TcbId)
    requires Placed(k) && IsCalled(k, tr, h)
    ensures Owes(Step(k, tr), h, k.current.value)
  {
    hide Placed;
    hide DecodeCall;
    hide DeliverToReceiver;
    hide Transfer;
    hide HandOver;
    hide BlockedReceiverDestSlot;
    var cur, f := k.current.value, tr.frame;
    var m := DecodeCall(k, cur, f.Mr(0), f).value;
    HeadOf(k, Receivers(m.endpoint));
    CalledOwes(k, cur, f, m, k.endpoints[m.endpoint].queue.receivers);
  }

  lemma CalledOwes(k: Kernel, cur: TcbId, f: Context, m: Message, q: seq<TcbId>)
    requires q != [] && q[0] in k.tcbs && Transfer(k, q[0], BlockedReceiverDestSlot(k, q[0]), m.extraCap).Success?
    ensures var r := DeliverToReceiver(k, m, f.tag, q);
            r.Success? && Owes(HandOver(r.value, cur, f, q[0], m.replyDestSlot).k, q[0], cur)
  {
    DeliverKeepsLink(k, m, f.tag, q, q[0]);
    hide DeliverToReceiver;
    hide Transfer;
    HandOverOwes(DeliverToReceiver(k, m, f.tag, q).value, cur, f, q[0], m.replyDestSlot);
    hide HandOver;
  }

  lemma HandOverOwes(k: Kernel, cur: TcbId, f: Context, h: TcbId, slot: Option<CPtr>)
    requires h in k.tcbs
    ensures Owes(HandOver(k, cur, f, h, slot).k, h, cur)
  {
    var k1 := SetReplyTo(k, h, Some(cur));
    assert Owes(k1, h, cur);
    StateKeepsLink(k1, cur, BlockedReply(slot), h);
    var k2 := SetState(k1, cur, BlockedReply(slot));
    SaveKeepsLink(k2, f, h);
    ResumeKeepsLink(SaveCurrent(k2, f), f, h, h);
    hide SetReplyTo;
    hide SetState;
    hide SaveCurrent;
    hide Resume;
  }

  // ------------------------------------------------------- nothing else makes a debt

  /** The reply link of `h` is as it was. */
  predicate SameLink(k: Kernel, k': Kernel, h: TcbId) {
    h in k.tcbs && h in k'.tcbs && k'.tcbs[h].replyTo == k.tcbs[h].replyTo
  }

  lemma ParkKeepsLink(k: Kernel, f: Context, h: TcbId)
    requires h in k.tcbs
    ensures SameLink(k, Park(k, f).k, h)
  {
    if k.ready != [] {
      SaveKeepsLink(k, f, h);
      var k1 := SaveCurrent(k, f).(current := None);
      ResumeKeepsLink(k1.(ready := k1.ready[1..]), f, k1.ready[0], h);
    }
    hide SaveCurrent;
    hide Resume;
  }

  lemma SaveKeepsLink(k: Kernel, f: Context, h: TcbId)
    requires h in k.tcbs
    ensures SameLink(k, SaveCurrent(k, f), h) && SaveCurrent(k, f).ready == k.ready
  {
  }

  lemma ResumeKeepsLink(k: Kernel, f: Context, next: TcbId, h: TcbId)
    requires h in k.tcbs
    ensures SameLink(k, Resume(k, f, next).0, h)
  {
  }

  lemma StateKeepsLink(k: Kernel, t: TcbId, s: ThreadState, h: TcbId)
    requires h in k.tcbs
    ensures SameLink(k, SetState(k, t, s), h)
  {
  }

  lemma ReadyKeepsLink(k: Kernel, t: TcbId, h: TcbId)
    requires h in k.tcbs
    ensures SameLink(k, MakeReady(k, t), h)
  {
    StateKeepsLink(k, t, Ready, h);
    hide SetState;
  }

  /** Parking at an endpoint whose queue has been written changes no link. */
  lemma ParkedKeepsLink(k: Kernel, e: EndpointId, q: EndpointQueue, cur: TcbId, s: ThreadState, f: Context, h: TcbId)
    requires h in k.tcbs
    ensures SameLink(k, Park(SetState(SetEndpointQueue(k, e, q), cur, s), f).k, h)
  {
    hide Park;
    var k1 := SetEndpointQueue(k, e, q);
    StateKeepsLink(k1, cur, s, h);
    ParkKeepsLink(SetState(k1, cur, s), f, h);
    hide SetState;
  }

  lemma BlockReceiverKeepsLink(k: Kernel, cur: TcbId, f: Context, id: EndpointId, dest: Option<CPtr>, h: TcbId)
    requires h in k.tcbs && id in k.endpoints && !k.endpoints[id].queue.SendQueue?
    ensures SameLink(k, BlockReceiver(k, cur, f, id, dest).k, h)
  {
    hide Park;
    hide SetState;
    hide SetEndpointQueue;
    var queue := k.endpoints[id].queue;
    var q := if queue.RecvQueue? then queue.receivers else [];
    if k.ready != [] && HasRoom(q) {
      ParkedKeepsLink(k, id, RecvQueue(PushBack(q, cur)), cur, BlockedRecv(id, dest), f, h);
    }
  }

  lemma BlockSenderKeepsLink(k: Kernel, cur: TcbId, f: Context, m: Message, isCall: bool, h: TcbId)
    requires h in k.tcbs && m.endpoint in k.endpoints && !k.endpoints[m.endpoint].queue.RecvQueue?
    ensures SameLink(k, BlockSender(k, cur, f, m, isCall).k, h)
  {
    hide Park;
    hide SetState;
    hide SetEndpointQueue;
    var queue := k.endpoints[m.endpoint].queue;
    var q := if queue.SendQueue? then queue.senders else [];
    if k.ready != [] && HasRoom(q) {
      ParkedKeepsLink(k, m.endpoint, SendQueue(PushBack(q, cur)), cur,
                      BlockedSend(m.endpoint, m.badge, isCall, m.extraCap, m.replyDestSlot), f, h);
    }
  }

  /** A `Recv` that does not take a call leaves every link alone. */
  lemma RecvKeepsLink(k: Kernel, tr: Trap, h: TcbId)
    requires h in k.tcbs && k.current.Some? && tr.frame.syscall == RECV && !ReceivesCall(k, tr)
    ensures SameLink(k, Recv(k, k.current.value, tr.frame.Mr(0), tr.frame).k, h)
  {
    var cur, f := k.current.value, tr.frame;
    hide DecodeRecv;
    hide BlockReceiver;
    hide Transfer;
    hide MakeReady;
    var d := DecodeRecv(k, cur, f.Mr(0), f);
    if d.Success? {
      var Reception(id, dest) := d.value;
      match k.endpoints[id].queue
      case SendQueue(q) =>
        if q != [] && q[0] in k.tcbs && k.tcbs[q[0]].state.BlockedSend? {
          var st := k.tcbs[q[0]].state;
          TransferTouchesSlotsOnly(k, cur, dest, st.extraCap);
          var r := Transfer(k, cur, dest, st.extraCap);
          if r.Success? {
            ReadyKeepsLink(SetEndpointQueue(r.value, id, Normalize(SendQueue(q[1..]))), q[0], h);
          }
        }
      case _ => BlockReceiverKeepsLink(k, cur, f, id, dest, h);
    }
  }

  lemma HandOverKeepsLink(k: Kernel, cur: TcbId, f: Context, r: TcbId, slot: Option<CPtr>, h: TcbId)
    requires h in k.tcbs && h != r
    ensures SameLink(k, HandOver(k, cur, f, r, slot).k, h)
  {
    var k1 := SetReplyTo(k, r, Some(cur));
    assert SameLink(k, k1, h);
    StateKeepsLink(k1, cur, BlockedReply(slot), h);
    var k2 := SetState(k1, cur, BlockedReply(slot));
    SaveKeepsLink(k2, f, h);
    ResumeKeepsLink(SaveCurrent(k2, f), f, r, h);
    hide SetReplyTo;
    hide SetState;
    hide SaveCurrent;
    hide Resume;
  }

  /** A `Call` leaves the link of every thread alone that it does not reach. */
  lemma CallKeepsLink(k: Kernel, tr: Trap, h: TcbId)
    requires h in k.tcbs && k.current.Some? && tr.frame.syscall == CALL && !IsCalled(k, tr, h)
    ensures SameLink(k, Call(k, k.current.value, tr.frame.Mr(0), tr.frame).k, h)
  {
    var cur, f := k.current.value, tr.frame;
    hide DecodeCall;
    hide BlockSender;
    hide HandOver;
    var d := DecodeCall(k, cur, f.Mr(0), f);
    if d.Success? {
      var m := d.value;
      match k.endpoints[m.endpoint].queue
      case RecvQueue(q) =>
        if q != [] {
          DeliverKeepsLink(k, m, f.tag, q, h);
          var r := DeliverToReceiver(k, m, f.tag, q);
          if r.Success? && q[0] != h { HandOverKeepsLink(r.value, cur, f, q[0], m.replyDestSlot, h); }
        }
      case _ => BlockSenderKeepsLink(k, cur, f, m, true, h);
    }
    hide DeliverToReceiver;
  }

  lemma DeliverKeepsLink(k: Kernel, m: Message, tag: MessageTag, q: seq<TcbId>, h: TcbId)
    requires q != [] && h in k.tcbs
    ensures var r := DeliverToReceiver(k, m, tag, q);
            && (r.Success? ==> SameLink(k, r.value, h))
            && (r.Success? <==> Transfer(k, q[0], BlockedReceiverDestSlot(k, q[0]), m.extraCap).Success?)
  {
    TransferTouchesSlotsOnly(k, q[0], BlockedReceiverDestSlot(k, q[0]), m.extraCap);
    hide Transfer;
    hide Normalize;
  }

  lemma LinkKept(k: Kernel, tr: Trap, h: TcbId)
    requires k.current.Some? && h in k.tcbs && !TakesCall(k, tr, h)
    ensures (tr.frame.syscall == RECV && k.current == Some(h)) || tr.frame.syscall == CALL ==>
              SameLink(k, Step(k, tr), h)
  {
    hide SameLink;
    hide Recv;
    hide Call;
    if tr.frame.syscall == RECV && k.current == Some(h) {
      RecvKeepsLink(k, tr, h);
    } else if tr.frame.syscall == CALL {
      CallKeepsLink(k, tr, h);
    }
  }

  /** A debtor whose link is left alone still owes its caller, unless it has just answered. */
  lemma MoveKeepsDebt(n: Word, x: Effect, k: Kernel, f: Context, k': Kernel, f': Context, h: TcbId, t: TcbId)
    requires ThreadsOk(k) && ThreadsOk(k') && Does(x, k, f, k', f') && Causes(n, x) && Owes(k, h, t)
    requires (n == RECV && k.current == Some(h)) || n == CALL ==> SameLink(k, k', h)
    ensures Owes(k', h, t) || !AwaitsReply(k', t)
  {
    hide Placed;
    hide OneRunning;
    hide Delivery;
  }

  lemma StepKeepsDebt(k: Kernel, tr: Trap, h: TcbId, t: TcbId)
    requires Inv(k) && Owes(k, h, t) && !TakesCall(k, tr, h)
    ensures Owes(Step(k, tr), h, t) || !AwaitsReply(Step(k, tr), t)
  {
    hide Handle;
    hide ReceivesCall;
    hide IsCalled;
    DispatchMoves(k, tr);
    StepKeepsInv(k, tr);
    var (k', f') := Dispatch(k, tr);
    var x :| Does(x, k, tr.frame, k', f') && Causes(tr.frame.syscall, x);
    LinkKept(k, tr, h);
    MoveKeepsDebt(tr.frame.syscall, x, k, tr.frame, k', f', h, t);
  }

  // ------------------------------------------------------------ when a caller is lost

  /** The exact condition: a thread that owes a reply loses its caller if and only if it takes
      another call before it has answered. */
  lemma CallerIsLostIff(k: Kernel, tr: Trap, h: TcbId, t: TcbId)
    requires Inv(k) && Owes(k, h, t)
    ensures IsLost(Step(k, tr), t) <==> TakesCall(k, tr, h)
  {
    hide Dispatch;
    hide Transfer;
    if k.current == Some(h) && ReceivesCall(k, tr) {
      var q := k.endpoints[DecodeRecv(k, h, tr.frame.Mr(0), tr.frame).value.endpoint].queue.senders;
      ReceivedCallIsOwed(k, tr);
      OverwrittenCallerIsLost(k, tr, h, t, q[0]);
    } else if IsCalled(k, tr, h) {
      CallIsOwed(k, tr, h);
      OverwrittenCallerIsLost(k, tr, h, t, k.current.value);
    } else {
      StepKeepsDebt(k, tr, h, t);
    }
  }

  /** A lost caller is never answered. */
  lemma LostForEver(k: Kernel, tr: Trap, h: TcbId, t: TcbId, trs: seq<Trap>)
    requires Inv(k) && Owes(k, h, t) && TakesCall(k, tr, h)
    ensures IsLost(Run(Step(k, tr), trs), t)
  {
    hide Dispatch;
    hide TakesCall;
    CallerIsLostIff(k, tr, h, t);
    StepKeepsInv(k, tr);
    OrphanWaitsForever(Step(k, tr), trs, t);
  }

  /** `h` takes no call at any trap of the run, and `t` waits for its reply before each. */
  ghost predicate WaitsUndisturbed(k: Kernel, trs: seq<Trap>, h: TcbId, t: TcbId)
    decreases |trs|
  {
    trs != [] ==>
      AwaitsReply(k, t) && !TakesCall(k, trs[0], h) && WaitsUndisturbed(Step(k, trs[0]), trs[1..], h, t)
  }

  /** As long as the debtor takes no other call, the debt lasts until it is paid. */
  lemma {:induction false} DebtLasts(k: Kernel, trs: seq<Trap>, h: TcbId, t: TcbId)
    requires Inv(k) && Owes(k, h, t) && WaitsUndisturbed(k, trs, h, t)
    ensures Owes(Run(k, trs), h, t) || !AwaitsReply(Run(k, trs), t)
    decreases |trs|
  {
    hide Dispatch;
    hide TakesCall;
    if trs != [] {
      StepKeepsDebt(k, trs[0], h, t);
      StepKeepsInv(k, trs[0]);
      if Owes(Step(k, trs[0]), h, t) {
        DebtLasts(Step(k, trs[0]), trs[1..], h, t);
      }
    }
  }
}
