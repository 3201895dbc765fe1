/** Each wait is served exactly once: whenever a call that names a wait queue succeeds, the head of
    the queue leaves it, and nothing else makes a thread leave. */
module Service {
  import opened Words
  import opened Wrappers
  import opened Capabilities
  import opened Objects
  import opened State
  import opened Ipc
  import opened IpcEffects
  import opened Invariants
  import opened Effects
  import opened Syscalls
  import opened AdminEffects
  import opened Upkeep
  import opened Fifo

  /** The trap is a call that names `p` while somebody waits there, and it succeeds. */
  predicate ServesNow(k: Kernel, tr: Trap, p: Place) {
    && k.current.Some? && QueueAt(k, p) != []
    && ServedPlace(k, k.current.value, tr.frame) == Some(p)
    && Handle(k, k.current.value, tr).status.Ok?
  }

  // ----------------------------------------------------- a successful call serves the head

  lemma SendWakesHead(k: Kernel, f: Context, nonblocking: bool)
    requires Inv(k) && DecodeSend(k, k.current.value, f.Mr(0), f).Success?
    ensures var m := DecodeSend(k, k.current.value, f.Mr(0), f).value;
            var o := Send(k, k.current.value, f.Mr(0), f, nonblocking);
            var q := QueueAt(k, Receivers(m.endpoint));
            q != [] && o.status.Ok? ==>
              q[0] in k.tcbs
              && Wakes(Receivers(m.endpoint), q[0], k.tcbs[q[0]].context.Deliver(m.badge, m.payload, f.tag), k, o.k)
  {
    hide Placed;
    hide Linked;
    hide Calm;
    hide PoolsBounded;
    hide BumpsBounded;
    hide Wakes;
    hide SameQueuesBut;
    hide LeavesHead;
    hide DeliverToReceiver;
    var m := DecodeSend(k, k.current.value, f.Mr(0), f).value;
    var q := QueueAt(k, Receivers(m.endpoint));
    if q != [] {
      WaitingHead(k, Receivers(m.endpoint));
      DeliverToReceiverEffect(k, m, f.tag, q);
      var r := DeliverToReceiver(k, m, f.tag, q);
      if r.Success? {
        WakeEffect(k, r.value, Receivers(m.endpoint), q[0], k.tcbs[q[0]].context.Deliver(m.badge, m.payload, f.tag));
      }
    }
  }

  lemma CallRunsHead(k: Kernel, f: Context)
    requires Inv(k) && DecodeCall(k, k.current.value, f.Mr(0), f).Success?
    ensures var m := DecodeCall(k, k.current.value, f.Mr(0), f).value;
            var o := Call(k, k.current.value, f.Mr(0), f);
            var q := QueueAt(k, Receivers(m.endpoint));
            q != [] && o.status.Ok? ==>
              && q[0] in k.tcbs
              && HandsOver(m.endpoint, q[0], m.replyDestSlot,
                           k.tcbs[q[0]].context.Deliver(m.badge, m.payload, f.tag), k, f, o.k, o.frame)
  {
    hide Placed;
    hide Linked;
    hide Calm;
    hide PoolsBounded;
    hide BumpsBounded;
    hide HandsOver;
    hide HandOver;
    hide SameQueuesBut;
    hide LeavesHead;
    hide DeliverToReceiver;
    var m := DecodeCall(k, k.current.value, f.Mr(0), f).value;
    var q := QueueAt(k, Receivers(m.endpoint));
    if q != [] {
      WaitingHead(k, Receivers(m.endpoint));
      DeliverToReceiverEffect(k, m, f.tag, q);
      var r := DeliverToReceiver(k, m, f.tag, q);
      if r.Success? {
        HandOverEffect(k, r.value, f, m.endpoint, q[0], m.replyDestSlot,
                       k.tcbs[q[0]].context.Deliver(m.badge, m.payload, f.tag));
      }
    }
  }

  lemma RecvReleasesHead(k: Kernel, f: Context)
    requires Inv(k) && DecodeRecv(k, k.current.value, f.Mr(0), f).Success?
    ensures var Reception(id, dest) := DecodeRecv(k, k.current.value, f.Mr(0), f).value;
            var o := Recv(k, k.current.value, f.Mr(0), f);
            var q := QueueAt(k, Senders(id));
            q != [] && o.status.Ok? ==>
              && q[0] in k.tcbs && k.tcbs[q[0]].state.BlockedSend?
              && (if k.tcbs[q[0]].state.isCall then AcceptsCall(id, q[0], k.tcbs[q[0]].state.replyDestSlot, k, o.k)
                  else Wakes(Senders(id), q[0], k.tcbs[q[0]].context, k, o.k))
  {
    hide Placed;
    hide Linked;
    hide Calm;
    hide PoolsBounded;
    hide BumpsBounded;
    hide Wakes;
    hide AcceptsCall;
    hide SameQueuesBut;
    hide LeavesHead;
    var Reception(id, dest) := DecodeRecv(k, k.current.value, f.Mr(0), f).value;
    var q := QueueAt(k, Senders(id));
    if q != [] {
      WaitingHead(k, Senders(id));
      var st := k.tcbs[q[0]].state;
      TransferTouchesSlotsOnly(k, k.current.value, dest, st.extraCap);
      var r := Transfer(k, k.current.value, dest, st.extraCap);
      if r.Success? {
        ReleaseSenderEffect(k, r.value, id, st.isCall, st.replyDestSlot);
      }
    }
  }

  lemma SignalWakesHead(k: Kernel, f: Context)
    requires Inv(k) && ResolveNotification(k, k.current.value, f.Mr(0), {Write}).Success?
    ensures var n := ResolveNotification(k, k.current.value, f.Mr(0), {Write}).value;
            var o := Signal(k, k.current.value, f.Mr(0), f);
            var q := QueueAt(k, Waiters(n.notification));
            q != [] ==>
              && o.status.Ok? && q[0] in k.tcbs
              && Wakes(Waiters(n.notification), q[0],
                       k.tcbs[q[0]].context.SetMr(0, Or(k.notifications[n.notification].signals, n.badge)), k, o.k)
  {
    hide Placed;
    hide Linked;
    hide Calm;
    hide PoolsBounded;
    hide BumpsBounded;
    hide Wakes;
    hide WakeWaiter;
    var n := ResolveNotification(k, k.current.value, f.Mr(0), {Write}).value;
    if QueueAt(k, Waiters(n.notification)) != [] {
      WakeWaiterEffect(k, n.notification, n.badge);
    }
  }

  /** The head is gone, whichever of the calls served it. */
  lemma ServedHeadLeaves(k: Kernel, tr: Trap, p: Place)
    requires Inv(k) && ServesNow(k, tr, p)
    ensures Departure(k, Step(k, tr), p) == [QueueAt(k, p)[0]]
  {
    hide Send;
    hide Call;
    hide Recv;
    hide Signal;
    hide DecodeSend;
    hide DecodeCall;
    hide DecodeRecv;
    hide ResolveNotification;
    hide WellFormed;
    hide SameQueuesBut;
    hide LeavesHead;
    hide Delivery;
    var f := tr.frame;
    match p
    case Senders(_) => RecvReleasesHead(k, f);
    case Waiters(_) => SignalWakesHead(k, f);
    case Receivers(_) =>
      if f.syscall == CALL { CallRunsHead(k, f); } else { SendWakesHead(k, f, f.syscall == NB_SEND); }
  }

  /** A call that fails moves nobody. */
  lemma FailureServesNobody(k: Kernel, tr: Trap, p: Place)
    requires Inv(k) && !Handle(k, k.current.value, tr).status.Ok? && QueueAt(k, p) != []
    ensures Departure(k, Step(k, tr), p) == []
  {
    hide Handle;
    HandlerBehaves(k, tr);
    HeadOf(k, p);
  }

  /** Exactly the head leaves, and exactly when a call that names the queue succeeds. */
  lemma StepServes(k: Kernel, tr: Trap, p: Place)
    requires Inv(k) && p != ReadyQueue
    ensures Departure(k, Step(k, tr), p) == if ServesNow(k, tr, p) then [QueueAt(k, p)[0]] else []
    ensures ServesNow(k, tr, p) ==> IsServed(Step(k, tr), QueueAt(k, p)[0])
  {
    hide Handle;
    hide ServedPlace;
    hide Dispatch;
    hide IsServed;
    if ServesNow(k, tr, p) {
      ServedHeadLeaves(k, tr, p);
      LeaverIsServed(k, tr, p);
    } else if Departure(k, Step(k, tr), p) != [] {
      LeaverIsServed(k, tr, p);
      FailureServesNobody(k, tr, p);
    }
  }

  // ---------------------------------------------------------------------- over any run

  /** How many traps of a run serve `p`. */
  function Servings(k: Kernel, trs: seq<Trap>, p: Place): nat
    decreases |trs|
  {
    if trs == [] then 0
    else (if ServesNow(k, trs[0], p) then 1 else 0) + Servings(Step(k, trs[0]), trs[1..], p)
  }

  /** As many threads leave a wait queue as there are successful calls that serve it. */
  lemma {:induction false} RunServes(k: Kernel, trs: seq<Trap>, p: Place)
    requires Inv(k) && p != ReadyQueue
    ensures |Departures(k, trs, p)| == Servings(k, trs, p)
    decreases |trs|
  {
    hide Dispatch;
    hide ServesNow;
    hide Departure;
    if trs != [] {
      StepServes(k, trs[0], p);
      StepKeepsInv(k, trs[0]);
      RunServes(Step(k, trs[0]), trs[1..], p);
    }
  }

  /** The thread at position `i` of a wait queue moves up by one with each call that serves the queue. */
  lemma MovesUp(k: Kernel, trs: seq<Trap>, p: Place, i: nat)
    requires Inv(k) && p != ReadyQueue && i < |QueueAt(k, p)| && Servings(k, trs, p) <= i
    ensures var (q, n) := (QueueAt(Run(k, trs), p), Servings(k, trs, p));
            i - n < |q| && q[i - n] == QueueAt(k, p)[i]
  {
    hide Dispatch;
    hide ServesNow;
    hide Departure;
    RunServes(k, trs, p);
    ServedInOrder(k, trs, p, i);
  }

  /** The thread at position `i` of a wait queue is served by the successful call number `i + 1`: as
      long as there have been no more than `i`, the next one serves it exactly if there have been `i`. */
  lemma ServedByItsCall(k: Kernel, trs: seq<Trap>, tr: Trap, p: Place, i: nat)
    requires Inv(k) && p != ReadyQueue && i < |QueueAt(k, p)| && Servings(k, trs, p) <= i
    requires ServesNow(Run(k, trs), tr, p)
    ensures var (t, k1) := (QueueAt(k, p)[i], Run(k, trs));
            && (Departure(k1, Step(k1, tr), p) == [t] <==> Servings(k, trs, p) == i)
            && (Servings(k, trs, p) == i ==> IsServed(Step(k1, tr), t))
  {
    hide Dispatch;
    hide ServesNow;
    hide Departure;
    hide IsServed;
    hide QueueAt;
    MovesUp(k, trs, p, i);
    RunKeepsInv(k, trs);
    StepServes(Run(k, trs), tr, p);
    NoTwice(Run(k, trs), p);
  }

  lemma NoTwice(k: Kernel, p: Place)
    requires Inv(k)
    ensures NoDup(QueueAt(k, p))
  {
  }
}
