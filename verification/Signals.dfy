/** Notifications neither lose nor repeat bits: each word taken from a notification is the OR of
    exactly the badges signalled since the word before it was taken. */
module Signals {
  import opened Words
  import opened Wrappers
  import opened Capabilities
  import opened Objects
  import opened State
  import opened Ipc
  import opened Invariants
  import opened Syscalls
  import opened IpcEffects
  import opened Upkeep
  import opened Designation
  import Admin
  import CNodes
  import Frames

  // ------------------------------------------------------------------ OR of words

  function OrAll(ws: seq<Word>): Word {
    if ws == [] then 0 else Or(OrAll(ws[..|ws| - 1]), ws[|ws| - 1])
  }

  /** The bits of `OrAll` are those that some word has. */
  lemma {:induction false} OrAllBits(ws: seq<Word>, i: nat)
    ensures Bit(OrAll(ws), i) <==> exists w :: w in ws && Bit(w, i)
    decreases |ws|
  {
    hide Or;
    hide Bit;
    if ws == [] {
      ZeroHasNoBits(i);
    } else {
      var front, last := ws[..|ws| - 1], ws[|ws| - 1];
      OrAllBits(front, i);
      OrBit(OrAll(front), last, i);
      assert ws == front + [last];
    }
  }

  lemma OrAllPush(ws: seq<Word>, w: Word)
    ensures OrAll(ws + [w]) == Or(OrAll(ws), w)
  {
    assert (ws + [w])[..|ws|] == ws;
  }

  // ------------------------------------------------------------------ observations

  /** The notification, and the badge, of the capability in slot mr0 of the caller's CSpace, if it is one
      for a notification with this right. */
  function Target(k: Kernel, tr: Trap, right: Right): Option<NotificationTarget> {
    if k.current.None? then None
    else
      var c := Designated(k, k.current.value, tr.frame.mrs[0]);
      if c.NotificationCap? && right in c.notificationRights then Some(NotificationTarget(c.notification, c.badge))
      else None
  }

  /** Resolving a pointer finds that target. */
  lemma TargetResolves(k: Kernel, tr: Trap, right: Right)
    requires k.current.Some?
    ensures var (t, r) := (Target(k, tr, right), ResolveNotification(k, k.current.value, tr.frame.Mr(0), {right}));
            if t.Some? then r == Success(t.value) else r.Failure?
  {
    LookupFindsDesignated(k, k.current.value, tr.frame.mrs[0]);
    hide LookupCap;
  }

  /** The badge this trap signals to `n`, if it does: that of the capability in the slot mr0 names. */
  function Signalled(k: Kernel, tr: Trap, n: NotificationId): seq<Word> {
    var t := Target(k, tr, Write);
    if tr.frame.syscall == SIGNAL && t.Some? && t.value.notification == n then [t.value.badge] else []
  }

  /** The running thread waits on or polls `n`. */
  predicate Asks(k: Kernel, tr: Trap, n: NotificationId) {
    && (tr.frame.syscall == WAIT || tr.frame.syscall == POLL)
    && Target(k, tr, Read).Some? && Target(k, tr, Read).value.notification == n
  }

  function FirstWaiter(k: Kernel, n: NotificationId): Option<TcbId> {
    if n in k.notifications && k.notifications[n].waiters != [] then Some(k.notifications[n].waiters[0]) else None
  }

  /** The word some thread takes from `n` at this trap, as its registers show it: `mr0` of a thread
      whose `Wait` or `Poll` returns at once, or the saved `mr0` of a waiter that gets ready. */
  function Taken(k: Kernel, tr: Trap, n: NotificationId): Option<Word> {
    var (k', f') := Dispatch(k, tr);
    var w := FirstWaiter(k, n);
    if Asks(k, tr, n) && k'.current == k.current && !f'.tag.error then Some(f'.Mr(0))
    else if w.Some? && w.value in k'.tcbs && k'.tcbs[w.value].state == Ready then
      Some(k'.tcbs[w.value].context.Mr(0))
    else None
  }

  /** The badges signalled to `n` since a word was last taken, after one more trap. */
  function Pending(k: Kernel, tr: Trap, n: NotificationId, pending: seq<Word>): seq<Word> {
    if Taken(k, tr, n).Some? then [] else pending + Signalled(k, tr, n)
  }

  // ---------------------------------------------------- calls that leave signals alone

  /** The notifications that were there are as they were. */
  ghost predicate SameNotifications(k: Kernel, k': Kernel) {
    forall n | n in k.notifications :: n in k'.notifications && k'.notifications[n] == k.notifications[n]
  }

  lemma BlockSenderSignals(k: Kernel, cur: TcbId, f: Context, m: Message, isCall: bool)
    requires m.endpoint in k.endpoints && !k.endpoints[m.endpoint].queue.RecvQueue?
    ensures BlockSender(k, cur, f, m, isCall).k.notifications == k.notifications
  {
    hide BlockCurrent;
  }

  lemma SendSignals(k: Kernel, cur: TcbId, cptr: CPtr, f: Context, nonblocking: bool)
    ensures Send(k, cur, cptr, f, nonblocking).k.notifications == k.notifications
  {
    hide DecodeSend;
    hide MakeReady;
    hide DeliverToReceiver;
    hide BlockSender;
    var d := DecodeSend(k, cur, cptr, f);
    if d.Success? {
      match k.endpoints[d.value.endpoint].queue
      case RecvQueue(q) =>
        if q != [] { DeliverSignals(k, d.value, f.tag, q); }
      case _ =>
        BlockSenderSignals(k, cur, f, d.value, false);
    }
  }

  lemma DeliverSignals(k: Kernel, m: Message, tag: MessageTag, q: seq<TcbId>)
    requires q != []
    ensures var r := DeliverToReceiver(k, m, tag, q); r.Success? ==> r.value.notifications == k.notifications
  {
    TransferTouchesSlotsOnly(k, q[0], BlockedReceiverDestSlot(k, q[0]), m.extraCap);
    hide Transfer;
    hide Normalize;
  }

  lemma HandOverSignals(k: Kernel, cur: TcbId, f: Context, receiver: TcbId, slot: Option<CPtr>)
    ensures HandOver(k, cur, f, receiver, slot).k.notifications == k.notifications
  {
    hide SwitchTo;
  }

  lemma CallSignals(k: Kernel, cur: TcbId, cptr: CPtr, f: Context)
    ensures Call(k, cur, cptr, f).k.notifications == k.notifications
  {
    hide DecodeCall;
    hide DeliverToReceiver;
    hide HandOver;
    hide BlockSender;
    var d := DecodeCall(k, cur, cptr, f);
    if d.Success? {
      match k.endpoints[d.value.endpoint].queue
      case RecvQueue(q) =>
        if q != [] {
          DeliverSignals(k, d.value, f.tag, q);
          var r := DeliverToReceiver(k, d.value, f.tag, q);
          if r.Success? { HandOverSignals(r.value, cur, f, q[0], d.value.replyDestSlot); }
        }
      case _ =>
        BlockSenderSignals(k, cur, f, d.value, true);
    }
  }

  lemma ReleaseSignals(k: Kernel, cur: TcbId, id: EndpointId, q: seq<TcbId>, isCall: bool, slot: Option<CPtr>)
    requires q != []
    ensures ReleaseSender(k, cur, id, q, isCall, slot).notifications == k.notifications
  {
    hide MakeReady;
    hide Normalize;
  }

  lemma ReceiveSignals(k: Kernel, cur: TcbId, f: Context, id: EndpointId, dest: Option<CPtr>, q: seq<TcbId>)
    requires q != []
    ensures ReceiveFromSender(k, cur, f, id, dest, q).k.notifications == k.notifications
  {
    hide Transfer;
    hide ReleaseSender;
    if q[0] in k.tcbs && k.tcbs[q[0]].state.BlockedSend? {
      var st := k.tcbs[q[0]].state;
      TransferTouchesSlotsOnly(k, cur, dest, st.extraCap);
      var r := Transfer(k, cur, dest, st.extraCap);
      if r.Success? { ReleaseSignals(r.value, cur, id, q, st.isCall, st.replyDestSlot); }
    }
  }

  lemma BlockReceiverSignals(k: Kernel, cur: TcbId, f: Context, id: EndpointId, dest: Option<CPtr>)
    requires id in k.endpoints && !k.endpoints[id].queue.SendQueue?
    ensures BlockReceiver(k, cur, f, id, dest).k.notifications == k.notifications
  {
    hide BlockCurrent;
  }

  lemma RecvSignals(k: Kernel, cur: TcbId, cptr: CPtr, f: Context)
    ensures Recv(k, cur, cptr, f).k.notifications == k.notifications
  {
    hide DecodeRecv;
    hide ReceiveFromSender;
    hide BlockReceiver;
    var d := DecodeRecv(k, cur, cptr, f);
    if d.Success? {
      match k.endpoints[d.value.endpoint].queue
      case SendQueue(q) =>
        if q != [] { ReceiveSignals(k, cur, f, d.value.endpoint, d.value.destSlot, q); }
      case _ =>
        BlockReceiverSignals(k, cur, f, d.value.endpoint, d.value.destSlot);
    }
  }

  lemma ReplySignals(k: Kernel, cur: TcbId, f: Context)
    ensures Reply(k, cur, f).k.notifications == k.notifications
  {
    hide DecodeReply;
    hide MakeReady;
    hide SwitchTo;
    var d := DecodeReply(k, cur, f);
    if d.Success? {
      TransferTouchesSlotsOnly(k, d.value.target, BlockedCallerReplyDestSlot(k, d.value.target), d.value.extraCap);
      hide Transfer;
    }
  }

  lemma YieldSignals(k: Kernel, cur: TcbId, f: Context)
    ensures YieldNow(k, cur, f).k.notifications == k.notifications
  {
    hide MakeReady;
    hide BlockCurrent;
  }

  lemma AdministrationSignals(k: Kernel, cur: TcbId, tr: Trap)
    ensures CNodes.Invoke(k, cur, tr.frame.Mr(0), tr.frame).k.notifications == k.notifications
    ensures Admin.Configure(k, cur, tr.frame.Mr(0), tr.frame).k.notifications == k.notifications
    ensures Frames.Invoke(k, cur, tr.frame.Mr(0), tr.frame, tr.walk).k.notifications == k.notifications
  {
    hide LookupCap;
    hide CNodes.Operate;
    hide Admin.DecodeConfigure;
    hide Admin.ApplyConfiguration;
    hide Frames.Map;
    hide Frames.Unmap;
  }

  lemma RetypeSignals(k: Kernel, cur: TcbId, f: Context)
    ensures SameNotifications(k, Admin.UntypedRetype(k, cur, f.Mr(0), f).k)
  {
    hide LookupCap;
    var d := Admin.DecodeRetype(k, cur, f.Mr(0), f);
    if d.Success? {
      NewObjectSignals(k, d.value.untyped, d.value.objectType);
      hide Admin.NewObject;
    }
  }

  lemma NewObjectSignals(k: Kernel, u: UntypedId, t: ObjectType)
    requires u in k.untypeds
    ensures var c := Admin.NewObject(k, u, t); c.Made? || c.NotMade? ==> SameNotifications(k, c.k)
  {
    hide BumpUntyped;
  }

  predicate ConcernsSignals(n: Word) {
    n == SIGNAL || n == WAIT || n == POLL
  }

  lemma OthersKeepSignals(k: Kernel, cur: TcbId, tr: Trap)
    requires !ConcernsSignals(tr.frame.syscall)
    ensures SameNotifications(k, Handle(k, cur, tr).k)
  {
    hide Send;
    hide Recv;
    hide Call;
    hide Reply;
    hide YieldNow;
    hide CNodes.Invoke;
    hide Admin.UntypedRetype;
    hide Admin.Configure;
    hide Frames.Invoke;
    var f := tr.frame;
    var n, cptr := f.syscall, f.Mr(0);
    if n == SEND || n == NB_SEND {
      SendSignals(k, cur, cptr, f, n == NB_SEND);
    } else if n == RECV {
      RecvSignals(k, cur, cptr, f);
    } else if n == CALL {
      CallSignals(k, cur, cptr, f);
    } else if n == REPLY {
      ReplySignals(k, cur, f);
    } else if n == UNTYPED_RETYPE {
      RetypeSignals(k, cur, f);
    } else if n == YIELD {
      YieldSignals(k, cur, f);
    } else {
      AdministrationSignals(k, cur, tr);
    }
  }

  // -------------------------------------------------------------------- one trap

  /** `n` keeps its signals and loses no waiter. */
  ghost predicate Undisturbed(k: Kernel, k': Kernel, n: NotificationId) {
    && n in k.notifications && n in k'.notifications
    && k'.notifications[n].signals == k.notifications[n].signals
    && k.notifications[n].waiters <= k'.notifications[n].waiters
  }

  /** A thread that still waits has taken nothing. */
  lemma StillWaiting(k: Kernel, k': Kernel, n: NotificationId)
    requires Placed(k') && Undisturbed(k, k', n)
    ensures var w := FirstWaiter(k, n); w.Some? ==> w.value in k'.tcbs && k'.tcbs[w.value].state == BlockedWait(n)
  {
    var w := FirstWaiter(k, n);
    if w.Some? {
      assert k'.notifications[n].waiters[0] == w.value;
      assert w.value in QueueAt(k', Waiters(n));
    }
  }

  /** What a trap does for `n`, when `pending` are the badges signalled since a word was last taken. */
  ghost predicate Accounted(k: Kernel, tr: Trap, n: NotificationId, pending: seq<Word>) {
    && n in Step(k, tr).notifications
    && (Taken(k, tr, n).Some? ==> Taken(k, tr, n).value == OrAll(pending + Signalled(k, tr, n)))
    && Step(k, tr).notifications[n].signals == OrAll(Pending(k, tr, n, pending))
  }

  lemma UndisturbedIsAccounted(k: Kernel, tr: Trap, n: NotificationId, pending: seq<Word>)
    requires Placed(Step(k, tr)) && Undisturbed(k, Step(k, tr), n)
    requires k.notifications[n].signals == OrAll(pending)
    requires Asks(k, tr, n) ==> Step(k, tr).current != k.current || Dispatch(k, tr).1.tag.error
    requires Signalled(k, tr, n) == []
    ensures Accounted(k, tr, n, pending)
  {
    hide Dispatch;
    hide Target;
    hide OrAll;
    StillWaiting(k, Step(k, tr), n);
    assert pending + [] == pending;
  }

  // ---------------------------------------------------------------------- Signal

  /** The outcome of a signal that resolves to `id`. */
  lemma SignalOutcome(k: Kernel, tr: Trap, id: NotificationId, badge: Word)
    requires tr.frame.syscall == SIGNAL && Target(k, tr, Write) == Some(NotificationTarget(id, badge))
    requires id in k.notifications
    ensures Step(k, tr) == if k.notifications[id].waiters != [] then WakeWaiter(k, id, badge)
                           else SetSignals(k, id, Or(k.notifications[id].signals, badge), k.notifications[id].waiters)
  {
    TargetResolves(k, tr, Write);
    hide Designated;
    hide Or;
    hide WakeWaiter;
    hide SetSignals;
    hide ResolveNotification;
  }

  /** A waiter gets all the pending bits and the new badge. */
  lemma WakeWaiterTakes(k: Kernel, id: NotificationId, badge: Word)
    requires id in k.notifications && k.notifications[id].waiters != [] && k.notifications[id].waiters[0] in k.tcbs
    ensures var n, k' := k.notifications[id], WakeWaiter(k, id, badge);
            var w := n.waiters[0];
            && k'.notifications == k.notifications[id := Notification(0, n.waiters[1..])]
            && w in k'.tcbs && k'.tcbs[w].state == Ready && k'.tcbs[w].context.Mr(0) == Or(n.signals, badge)
  {
    hide Or;
  }

  lemma SignalAccounted(k: Kernel, tr: Trap, n: NotificationId, pending: seq<Word>)
    requires Inv(k) && Inv(Step(k, tr)) && n in k.notifications && tr.frame.syscall == SIGNAL
    requires k.notifications[n].signals == OrAll(pending)
    ensures Accounted(k, tr, n, pending)
  {
    var t := Target(k, tr, Write);
    if t.Some? && t.value.notification in k.notifications {
      SignalOutcome(k, tr, t.value.notification, t.value.badge);
      if t.value.notification == n {
        SignalHereAccounted(k, tr, n, t.value.badge, pending);
      } else {
        SignalElsewhere(k, t.value.notification, t.value.badge, n);
        hide Handle;
        hide WakeWaiter;
        UndisturbedIsAccounted(k, tr, n, pending);
      }
    } else {
      SignalMisses(k, tr);
      UndisturbedIsAccounted(k, tr, n, pending);
    }
  }

  lemma SignalMisses(k: Kernel, tr: Trap)
    requires tr.frame.syscall == SIGNAL
    requires var t := Target(k, tr, Write); t.None? || t.value.notification !in k.notifications
    ensures Step(k, tr) == k
  {
    if k.current.Some? { TargetResolves(k, tr, Write); }
    hide Designated;
    hide ResolveNotification;
  }

  lemma SignalElsewhere(k: Kernel, id: NotificationId, badge: Word, n: NotificationId)
    requires Placed(k) && id in k.notifications && n in k.notifications && n != id
    ensures k.notifications[id].waiters != [] ==> Undisturbed(k, WakeWaiter(k, id, badge), n)
    ensures Undisturbed(k, SetSignals(k, id, Or(k.notifications[id].signals, badge), k.notifications[id].waiters), n)
  {
    hide Or;
    if k.notifications[id].waiters != [] {
      HeadOf(k, Waiters(id));
      WakeWaiterTakes(k, id, badge);
      hide WakeWaiter;
    }
  }

  lemma SignalHereAccounted(k: Kernel, tr: Trap, n: NotificationId, badge: Word, pending: seq<Word>)
    requires Inv(k) && n in k.notifications && tr.frame.syscall == SIGNAL
    requires Target(k, tr, Write) == Some(NotificationTarget(n, badge))
    requires k.notifications[n].signals == OrAll(pending)
    ensures Accounted(k, tr, n, pending)
  {
    assert Signalled(k, tr, n) == [badge];
    assert !Asks(k, tr, n);
    SignalOutcome(k, tr, n, badge);
    hide Signalled;
    hide Asks;
    hide Target;
    hide Dispatch;
    hide WakeWaiter;
    hide SetSignals;
    var k' := Step(k, tr);
    if k.notifications[n].waiters != [] {
      HeadOf(k, Waiters(n));
      WakeWaiterTakes(k, n, badge);
      TakenAtOnce(k, tr, n, badge, pending);
    } else {
      SetSignalsAdds(k, n, badge);
      NothingTaken(k, tr, n, badge, pending);
    }
  }

  lemma SetSignalsAdds(k: Kernel, id: NotificationId, badge: Word)
    requires id in k.notifications
    ensures var n := k.notifications[id];
            SetSignals(k, id, Or(n.signals, badge), n.waiters).notifications
              == k.notifications[id := Notification(Or(n.signals, badge), n.waiters)]
  {
  }

  lemma TakenAtOnce(k: Kernel, tr: Trap, n: NotificationId, badge: Word, pending: seq<Word>)
    requires !Asks(k, tr, n) && Signalled(k, tr, n) == [badge]
    requires FirstWaiter(k, n).Some? && k.notifications[n].signals == OrAll(pending)
    requires var k', w := Step(k, tr), FirstWaiter(k, n).value;
             && n in k'.notifications && k'.notifications[n].signals == 0
             && w in k'.tcbs && k'.tcbs[w].state == Ready
             && k'.tcbs[w].context.Mr(0) == Or(k.notifications[n].signals, badge)
    ensures Accounted(k, tr, n, pending)
  {
    OrAllPush(pending, badge);
    OrAllEmpty();
    hide OrAll;
    hide Or;
    hide Dispatch;
    hide Asks;
    hide Signalled;
  }

  lemma NothingTaken(k: Kernel, tr: Trap, n: NotificationId, badge: Word, pending: seq<Word>)
    requires !Asks(k, tr, n) && Signalled(k, tr, n) == [badge]
    requires FirstWaiter(k, n).None? && n in k.notifications && k.notifications[n].signals == OrAll(pending)
    requires var k' := Step(k, tr);
             n in k'.notifications && k'.notifications[n].signals == Or(k.notifications[n].signals, badge)
    ensures Accounted(k, tr, n, pending)
  {
    OrAllPush(pending, badge);
    hide OrAll;
    hide Or;
    hide Dispatch;
    hide Asks;
    hide Signalled;
  }

  // --------------------------------------------------------------- Wait and Poll

  /** A `Wait` or `Poll` that resolves to `id`: it returns the pending word, or it blocks or fails. */
  lemma AskOutcome(k: Kernel, tr: Trap, id: NotificationId)
    requires Asks(k, tr, id) && id in k.notifications
    ensures var n, f := k.notifications[id], tr.frame;
            if n.signals != 0 then
              Dispatch(k, tr) == (SetSignals(k, id, 0, n.waiters), ReplySuccess(f.SetMr(0, n.signals)))
            else if f.syscall == POLL then
              Dispatch(k, tr) == (k, ReplySuccess(f.SetMr(0, 0)))
            else
              Handle(k, k.current.value, tr) == BlockWaiter(k, k.current.value, f, id)
  {
    TargetResolves(k, tr, Read);
    hide Designated;
    hide ResolveNotification;
    hide BlockWaiter;
    hide SetSignals;
  }

  lemma AskMisses(k: Kernel, tr: Trap, n: NotificationId)
    requires k.current.Some? && (tr.frame.syscall == WAIT || tr.frame.syscall == POLL) && n in k.notifications
    requires !Asks(k, tr, n)
    ensures Undisturbed(k, Step(k, tr), n)
  {
    var t := Target(k, tr, Read);
    TargetResolves(k, tr, Read);
    hide Designated;
    hide ResolveNotification;
    if t.Some? && t.value.notification in k.notifications {
      AskOutcome(k, tr, t.value.notification);
      BlockWaiterSignals(k, k.current.value, tr.frame, t.value.notification);
      hide BlockWaiter;
    }
  }

  lemma BlockWaiterSignals(k: Kernel, cur: TcbId, f: Context, id: NotificationId)
    requires id in k.notifications
    ensures forall n | n in k.notifications :: Undisturbed(k, BlockWaiter(k, cur, f, id).k, n)
  {
    BlockWaiterQueues(k, cur, f, id);
    hide BlockWaiter;
  }

  lemma BlockWaiterQueues(k: Kernel, cur: TcbId, f: Context, id: NotificationId)
    requires id in k.notifications
    ensures var n, m := k.notifications[id], BlockWaiter(k, cur, f, id).k.notifications;
            m == k.notifications || m == k.notifications[id := Notification(n.signals, PushBack(n.waiters, cur))]
  {
    hide BlockCurrent;
    hide PushBack;
  }

  /** A `Wait` that does not return at once blocks or fails. */
  lemma BlockedWaiterGone(k: Kernel, cur: TcbId, f: Context, id: NotificationId)
    requires Inv(k) && cur == k.current.value && id in k.notifications
    ensures var o := BlockWaiter(k, cur, f, id); o.status.Err? || o.k.current != k.current
  {
    if k.ready != [] { NotIn(k, ReadyQueue, cur); assert k.ready[0] in QueueAt(k, ReadyQueue); }
    hide SaveCurrent;
  }

  lemma AskAccounted(k: Kernel, tr: Trap, n: NotificationId, pending: seq<Word>)
    requires Inv(k) && Inv(Step(k, tr)) && n in k.notifications && Asks(k, tr, n)
    requires k.notifications[n].signals == OrAll(pending)
    ensures Accounted(k, tr, n, pending)
  {
    AskOutcome(k, tr, n);
    assert Signalled(k, tr, n) == [] && pending + [] == pending;
    if k.notifications[n].signals == 0 && tr.frame.syscall == WAIT {
      WaitBlocks(k, tr, n);
      hide BlockWaiter;
      hide Handle;
      hide Target;
      UndisturbedIsAccounted(k, tr, n, pending);
    } else {
      hide Handle;
      hide Target;
      hide BlockWaiter;
      AnsweredAtOnce(k, tr, n, pending);
    }
  }

  lemma WaitBlocks(k: Kernel, tr: Trap, n: NotificationId)
    requires Inv(k) && n in k.notifications
    requires Handle(k, k.current.value, tr) == BlockWaiter(k, k.current.value, tr.frame, n)
    ensures Undisturbed(k, Step(k, tr), n)
    ensures Step(k, tr).current != k.current || Dispatch(k, tr).1.tag.error
  {
    hide Handle;
    BlockWaiterSignals(k, k.current.value, tr.frame, n);
    BlockedWaiterGone(k, k.current.value, tr.frame, n);
    hide BlockWaiter;
  }

  lemma AnsweredAtOnce(k: Kernel, tr: Trap, n: NotificationId, pending: seq<Word>)
    requires n in k.notifications && Asks(k, tr, n) && Signalled(k, tr, n) == [] && pending + [] == pending
    requires k.notifications[n].signals == OrAll(pending)
    requires var f' := ReplySuccess(tr.frame.SetMr(0, k.notifications[n].signals));
             || Dispatch(k, tr) == (SetSignals(k, n, 0, k.notifications[n].waiters), f')
             || (k.notifications[n].signals == 0 && Dispatch(k, tr) == (k, f'))
    ensures Accounted(k, tr, n, pending)
  {
    hide Dispatch;
    hide Asks;
    hide Signalled;
    OrAllEmpty();
    hide OrAll;
  }

  lemma OrAllEmpty()
    ensures OrAll([]) == 0
  {
  }

  /** One trap loses no bit and repeats none. */
  lemma StepAccounted(k: Kernel, tr: Trap, n: NotificationId, pending: seq<Word>)
    requires Inv(k) && n in k.notifications && k.notifications[n].signals == OrAll(pending)
    ensures Accounted(k, tr, n, pending)
  {
    hide Accounted;
    hide Handle;
    StepKeepsInv(k, tr);
    if tr.frame.syscall == SIGNAL {
      SignalAccounted(k, tr, n, pending);
    } else if Asks(k, tr, n) {
      AskAccounted(k, tr, n, pending);
    } else {
      if tr.frame.syscall == WAIT || tr.frame.syscall == POLL {
        AskMisses(k, tr, n);
      } else {
        OthersKeepSignals(k, k.current.value, tr);
      }
      UndisturbedIsAccounted(k, tr, n, pending);
    }
  }

  // ------------------------------------------------------------------- every run

  /** The badges signalled to `n` in the run since a word was last taken, or since the start if
      none was; `pending` were signalled before. */
  function Since(k: Kernel, trs: seq<Trap>, n: NotificationId, pending: seq<Word>): seq<Word>
    decreases |trs|
  {
    if trs == [] then pending else Since(Step(k, trs[0]), trs[1..], n, Pending(k, trs[0], n, pending))
  }

  lemma {:induction false} RunAccounts(k: Kernel, trs: seq<Trap>, n: NotificationId, pending: seq<Word>)
    requires Inv(k) && n in k.notifications && k.notifications[n].signals == OrAll(pending)
    ensures Inv(Run(k, trs)) && n in Run(k, trs).notifications
    ensures Run(k, trs).notifications[n].signals == OrAll(Since(k, trs, n, pending))
    decreases |trs|
  {
    hide Dispatch;
    hide Taken;
    if trs != [] {
      StepAccounted(k, trs[0], n, pending);
      StepKeepsInv(k, trs[0]);
      RunAccounts(Step(k, trs[0]), trs[1..], n, Pending(k, trs[0], n, pending));
    }
  }

  /** After any run from a kernel without pending signals, the next word that a thread takes has
      exactly the bits of the badges signalled since the word before it was taken, up to and
      including the signal that delivers it. */
  lemma TakenIsWhatWasSignalled(k: Kernel, trs: seq<Trap>, tr: Trap, n: NotificationId, i: nat)
    requires Inv(k) && n in k.notifications && k.notifications[n].signals == 0
    requires Taken(Run(k, trs), tr, n).Some?
    ensures Bit(Taken(Run(k, trs), tr, n).value, i) <==>
              exists b :: b in Since(k, trs, n, []) + Signalled(Run(k, trs), tr, n) && Bit(b, i)
  {
    hide Dispatch;
    hide Taken;
    hide Bit;
    RunAccounts(k, trs, n, []);
    hide Run;
    hide Since;
    StepAccounted(Run(k, trs), tr, n, Since(k, trs, n, []));
    OrAllBits(Since(k, trs, n, []) + Signalled(Run(k, trs), tr, n), i);
  }
}
