/** Bounded waiting: directed switches bypass the ready queue, yet no ready thread can be
    bypassed for long. A potential over the blocked threads pays for every directed switch. */
module Fairness {
  import opened Limits
  import opened Wrappers
  import opened Capabilities
  import opened Objects
  import opened State
  import opened Invariants
  import opened Effects
  import opened Syscalls
  import opened Placement
  import opened AdminEffects
  import opened Upkeep

  function Weight(s: ThreadState): nat {
    match s
    case BlockedSend(_, _, _, _, _) | BlockedRecv(_, _) => 2
    case BlockedReply(_) => 1
    case Inactive | Ready | Running | BlockedWait(_) => 0
  }

  function WeightAt(m: map<TcbId, Tcb>, t: TcbId): nat {
    if t in m then Weight(m[t].state) else 0
  }

  /** The weights of the threads below `n` together. */
  function WeightBelow(m: map<TcbId, Tcb>, n: nat): nat {
    if n == 0 then 0 else WeightBelow(m, n - 1) + WeightAt(m, n - 1)
  }

  function Potential(k: Kernel): nat {
    WeightBelow(k.tcbs, MAX_TCBS)
  }

  lemma {:induction false} WeightBelowFrame(m: map<TcbId, Tcb>, m': map<TcbId, Tcb>, n: nat)
    requires forall i: nat :: i < n ==> WeightAt(m, i) == WeightAt(m', i)
    ensures WeightBelow(m, n) == WeightBelow(m', n)
  {
    if n > 0 {
      WeightBelowFrame(m, m', n - 1);
      assert WeightAt(m, n - 1) == WeightAt(m', n - 1);
    }
  }

  /** Changing one thread changes the sum by the difference of its weights. */
  lemma {:induction false} WeightBelowUpdate(m: map<TcbId, Tcb>, t: TcbId, tcb: Tcb, n: nat)
    requires t < n
    ensures WeightBelow(m[t := tcb], n) + WeightAt(m, t) == WeightBelow(m, n) + Weight(tcb.state)
  {
    if t == n - 1 {
      WeightBelowFrame(m, m[t := tcb], n - 1);
    } else {
      WeightBelowUpdate(m, t, tcb, n - 1);
    }
  }

  /** Threads of weight zero leave room: each of the others weighs at most two. */
  lemma {:induction false} WeightBound(m: map<TcbId, Tcb>, idle: set<TcbId>, n: nat)
    requires forall t | t in m :: t < n
    requires forall t | t in idle :: t in m && WeightAt(m, t) == 0
    ensures WeightBelow(m, n) + 2 * |idle| <= 2 * |m|
    decreases n
  {
    if n == 0 {
      assert idle == {};
    } else if n - 1 !in m {
      WeightBound(m, idle, n - 1);
    } else {
      var t, rest := n - 1, m - {n - 1};
      WeightBelowFrame(m, rest, t);
      forall u | u in idle - {t} ensures u in rest && WeightAt(rest, u) == 0 {
        assert WeightAt(m, u) == 0;
      }
      WeightBound(rest, idle - {t}, t);
      MapSizeWithout(m, t);
      assert t in idle ==> WeightAt(m, t) == 0;
      SetSizeWithout(idle, t);
    }
  }

  lemma MapSizeWithout<T>(m: map<nat, T>, t: nat)
    requires t in m
    ensures |m - {t}| == |m| - 1
  {
    assert m == (m - {t})[t := m[t]];
  }

  lemma SetSizeWithout(s: set<nat>, t: nat)
    ensures |s - {t}| == if t in s then |s| - 1 else |s|
  {
    if t !in s { assert s - {t} == s; }
  }

  /** What a move does to the running thread, the ready queue and the potential. */
  datatype Switch = Stays | Pops | Hands

  ghost predicate Switches(s: Switch, k: Kernel, k': Kernel) {
    match s
    case Stays =>
      k'.current == k.current && k.ready <= k'.ready && Potential(k') <= Potential(k)
    case Pops =>
      && k.ready != [] && k'.current == Some(k.ready[0]) && k.ready[1..] <= k'.ready
      && Potential(k') <= Potential(k) + 2
    case Hands =>
      k.ready <= k'.ready && Potential(k') < Potential(k)
  }

  /** Only a pop of the ready queue raises the potential, by at most two; a directed switch
      lowers it. */
  lemma MoveIsSwitch(x: Effect, k: Kernel, f: Context, k': Kernel, f': Context)
    requires ThreadsOk(k) && PoolsBounded(k) && Does(x, k, f, k', f') && k.ready != []
    ensures exists s :: Switches(s, k, k')
  {
    hide Placed;
    hide Linked;
    hide Parks;
    hide HandsOver;
    hide Answers;
    match x
    case Quiet =>
      assert k'.ready == QueueAt(k', ReadyQueue);
      assert Switches(Stays, k, k');
    case Created(t) =>
      assert k'.ready == QueueAt(k', ReadyQueue);
      WeightBelowFrame(k.tcbs, k'.tcbs, MAX_TCBS);
      assert Switches(Stays, k, k');
    case Configured(t, tcb) =>
      assert k'.ready == QueueAt(k', ReadyQueue);
      WeightBelowUpdate(k.tcbs, t, tcb, MAX_TCBS);
      assert Switches(Stays, k, k');
    case Admitted(t, tcb) =>
      WeightBelowUpdate(k.tcbs, t, tcb, MAX_TCBS);
      assert Switches(Stays, k, k');
    case Woken(p, t, c) =>
      WeightBelowUpdate(k.tcbs, t, k.tcbs[t].(state := Ready, context := c), MAX_TCBS);
      assert Switches(Stays, k, k');
    case AcceptedCall(e, t, slot) =>
      HeadOf(k, Senders(e));
      assert k'.ready == QueueAt(k', ReadyQueue);
      var cur := k.current.value;
      var first := k.tcbs[cur := k.tcbs[cur].(replyTo := Some(t))];
      WeightBelowUpdate(k.tcbs, cur, k.tcbs[cur].(replyTo := Some(t)), MAX_TCBS);
      WeightBelowUpdate(first, t, k.tcbs[t].(state := BlockedReply(slot)), MAX_TCBS);
      assert Switches(Stays, k, k');
    case Parked(p, s) =>
      ParkedIsPop(k, k', p, s, f, f');
      assert Switches(Pops, k, k');
    case Called(e, t, slot, c) =>
      CalledIsHandOver(k, k', e, t, slot, c, f, f');
      assert Switches(Hands, k, k');
    case Replied(t, c) =>
      RepliedIsHandOver(k, k', t, c, f, f');
      assert Switches(Hands, k, k');
  }

  lemma CalledIsHandOver(k: Kernel, k': Kernel, e: EndpointId, t: TcbId, slot: Option<CPtr>, c: Context,
                         f: Context, f': Context)
    requires ThreadsOk(k) && PoolsBounded(k) && HandsOver(e, t, slot, c, k, f, k', f')
    ensures Switches(Hands, k, k')
  {
    HeadOf(k, Receivers(e));
    assert k'.ready == QueueAt(k', ReadyQueue);
    var cur := k.current.value;
    var first := k.tcbs[cur := k.tcbs[cur].(state := BlockedReply(slot), context := f)];
    WeightBelowUpdate(k.tcbs, cur, first[cur], MAX_TCBS);
    WeightBelowUpdate(first, t, k'.tcbs[t], MAX_TCBS);
  }

  lemma RepliedIsHandOver(k: Kernel, k': Kernel, t: TcbId, c: Context, f: Context, f': Context)
    requires ThreadsOk(k) && PoolsBounded(k) && Answers(t, c, k, f, k', f')
    ensures Switches(Hands, k, k')
  {
    var cur := k.current.value;
    assert Owes(k, cur, t);
    var first := k.tcbs[cur := k.tcbs[cur].(state := Ready, context := f, replyTo := None)];
    WeightBelowUpdate(k.tcbs, cur, first[cur], MAX_TCBS);
    WeightBelowUpdate(first, t, k'.tcbs[t], MAX_TCBS);
  }

  lemma ParkedIsPop(k: Kernel, k': Kernel, p: Place, s: ThreadState, f: Context, f': Context)
    requires ThreadsOk(k) && PoolsBounded(k) && Parks(p, s, k, f, k', f') && k.ready != []
    ensures Switches(Pops, k, k')
  {
    var cur := k.current.value;
    var q := ReadyBeforePop(k, cur, p);
    HeadOf(k, ReadyQueue);
    assert q[0] == k.ready[0];
    var parked := k.tcbs[cur := k.tcbs[cur].(state := s, context := f)];
    WeightBelowUpdate(k.tcbs, cur, parked[cur], MAX_TCBS);
    WeightBelowUpdate(parked, q[0], parked[q[0]].(state := Running), MAX_TCBS);
  }

  /** The number of context switches of a run. */
  function SwitchCount(k: Kernel, trs: seq<Trap>): nat
    decreases |trs|
  {
    if trs == [] then 0
    else
      (if Step(k, trs[0]).current != k.current then 1 else 0) + SwitchCount(Step(k, trs[0]), trs[1..])
  }

  /** `t` runs after some trap of the run. */
  ghost predicate RunsDuring(k: Kernel, trs: seq<Trap>, t: TcbId)
    decreases |trs|
  {
    trs != [] && (Step(k, trs[0]).current == Some(t) || RunsDuring(Step(k, trs[0]), trs[1..], t))
  }

  lemma StepSwitches(k: Kernel, tr: Trap)
    requires Inv(k) && k.ready != []
    ensures exists s :: Switches(s, k, Step(k, tr))
  {
    DispatchMoves(k, tr);
    var (k', f') := Dispatch(k, tr);
    var x :| Does(x, k, tr.frame, k', f');
    MoveIsSwitch(x, k, tr.frame, k', f');
    var s :| Switches(s, k, k');
    assert Switches(s, k, Step(k, tr));
  }

  /** The ready thread at position `i` is now at position `j`, and what the potential and the
      position have lost pays for a context switch. */
  predicate Advances(k: Kernel, k': Kernel, i: nat, j: nat) {
    && i < |k.ready| && j < |k'.ready| && k'.ready[j] == k.ready[i]
    && i - 1 <= j <= i
    && Potential(k') + 3 * j + (if k'.current != k.current then 1 else 0) <= Potential(k) + 3 * i
  }

  /** A ready thread is never dropped, and never loses its turn to a later one: it runs, or it
      keeps its place or moves up by one. */
  lemma StepAdvances(k: Kernel, tr: Trap, i: nat)
    requires Inv(k) && i < |k.ready|
    ensures (i == 0 && Step(k, tr).current == Some(k.ready[0])) || exists j: nat :: Advances(k, Step(k, tr), i, j)
  {
    StepSwitches(k, tr);
    var k' := Step(k, tr);
    var s :| Switches(s, k, k');
    if s != Pops {
      assert k'.ready[i] == k.ready[i];
      assert Advances(k, k', i, i);
    } else if i > 0 {
      assert k'.ready[i - 1] == k.ready[i];
      assert Advances(k, k', i, i - 1);
    }
  }

  lemma {:induction false} WaitingIsPaidFor(k: Kernel, trs: seq<Trap>, t: TcbId, i: nat)
    requires Inv(k) && i < |k.ready| && k.ready[i] == t
    requires SwitchCount(k, trs) > Potential(k) + 3 * i
    ensures RunsDuring(k, trs, t)
    decreases |trs|
  {
    var k' := Step(k, trs[0]);
    StepAdvances(k, trs[0], i);
    if k'.current != Some(t) {
      var j: nat :| Advances(k, k', i, j);
      StepKeepsInv(k, trs[0]);
      WaitingIsPaidFor(k', trs[1..], t, j);
    }
  }

  /** A thread at position `i` of the ready queue runs within `2(N-2) + 3i + 1` context
      switches, where `N` is the number of threads: whatever the other threads do. */
  lemma BoundedWaiting(k: Kernel, trs: seq<Trap>, t: TcbId, i: nat)
    requires Inv(k) && i < |k.ready| && k.ready[i] == t
    requires SwitchCount(k, trs) >= 2 * (|k.tcbs| - 2) + 3 * i + 1
    ensures RunsDuring(k, trs, t)
  {
    assert t in QueueAt(k, ReadyQueue);
    assert |{t, k.current.value}| == 2;
    WeightBound(k.tcbs, {t, k.current.value}, MAX_TCBS);
    WaitingIsPaidFor(k, trs, t, i);
  }
}
