/** Every move keeps each thread in exactly one place, `current` the one running thread, and
    the reply links one-shot. */
module Placement {
  import opened Wrappers
  import opened Capabilities
  import opened Objects
  import opened State
  import opened Invariants
  import opened Effects

  /** The part of well-formedness that speaks of threads. */
  ghost predicate ThreadsOk(k: Kernel) {
    Placed(k) && OneRunning(k) && Linked(k)
  }

  lemma QuietKeeps(k: Kernel, k': Kernel)
    requires ThreadsOk(k) && DoesNothing(k, k')
    ensures ThreadsOk(k')
  {
    forall h, t | Owes(k', h, t) ensures Owes(k, h, t) {
    }
  }

  lemma CreatedKeeps(k: Kernel, k': Kernel, t: TcbId)
    requires ThreadsOk(k) && Creates(t, k, k')
    ensures ThreadsOk(k')
  {
    forall h, u | Owes(k', h, u) ensures Owes(k, h, u) {
    }
  }

  lemma ConfiguredKeeps(k: Kernel, k': Kernel, t: TcbId, tcb: Tcb)
    requires ThreadsOk(k) && Reconfigures(t, tcb, k, k')
    ensures ThreadsOk(k')
  {
    forall h, u | Owes(k', h, u) ensures Owes(k, h, u) {
    }
  }

  lemma AdmittedKeeps(k: Kernel, k': Kernel, t: TcbId, tcb: Tcb)
    requires ThreadsOk(k) && Admits(t, tcb, k, k')
    ensures ThreadsOk(k')
  {
    NotIn(k, ReadyQueue, t);
    NoDupPush(k.ready, t);
    assert k'.ready == QueueAt(k', ReadyQueue);
    forall h, u | Owes(k', h, u) ensures Owes(k, h, u) {
    }
  }

  lemma WokenKeepsPlaced(k: Kernel, k': Kernel, p: Place, t: TcbId, c: Context)
    requires Placed(k) && Wakes(p, t, c, k, k')
    ensures Placed(k')
  {
    HeadOf(k, p);
    NoDupPop(QueueAt(k, p));
    NotIn(k, ReadyQueue, t);
    NoDupPush(k.ready, t);
    assert k'.ready == QueueAt(k', ReadyQueue);
  }

  lemma WokenKeeps(k: Kernel, k': Kernel, p: Place, t: TcbId, c: Context)
    requires ThreadsOk(k) && Wakes(p, t, c, k, k')
    ensures ThreadsOk(k')
  {
    hide Placed;
    hide Delivery;
    hide SameQueuesBut;
    HeadOf(k, p);
    WokenKeepsPlaced(k, k', p, t, c);
    forall h, u | Owes(k', h, u) ensures Owes(k, h, u) && u != t {
      assert Owes(k, h, u);
    }
  }

  lemma AcceptedCallKeeps(k: Kernel, k': Kernel, e: EndpointId, t: TcbId, slot: Option<CPtr>)
    requires ThreadsOk(k) && AcceptsCall(e, t, slot, k, k')
    ensures ThreadsOk(k')
  {
    HeadOf(k, Senders(e));
    NoDupPop(QueueAt(k, Senders(e)));
    forall h, u | Owes(k', h, u) ensures if h == k.current.value then u == t else Owes(k, h, u) && u != t {
      if h != k.current.value { assert Owes(k, h, u); }
    }
  }

  lemma ParkedKeeps(k: Kernel, k': Kernel, p: Place, s: ThreadState, f: Context, f': Context)
    requires ThreadsOk(k) && Parks(p, s, k, f, k', f')
    ensures ThreadsOk(k')
  {
    ParkedKeepsPlaces(k, k', p, s, f, f');
    ParkedKeepsLinks(k, k', p, s, f, f');
  }

  lemma ParkedKeepsPlaces(k: Kernel, k': Kernel, p: Place, s: ThreadState, f: Context, f': Context)
    requires Placed(k) && OneRunning(k) && Parks(p, s, k, f, k', f')
    ensures Placed(k') && OneRunning(k')
  {
    var cur := k.current.value;
    var q := ReadyBeforePop(k, cur, p);
    NotIn(k, p, cur);
    NotIn(k, ReadyQueue, cur);
    NoDupPush(QueueAt(k, p), cur);
    assert k.ready == QueueAt(k, ReadyQueue);
    NoDupPop(q);
    assert k'.ready == QueueAt(k', ReadyQueue);
    assert q[0] in q;
  }

  lemma ParkedKeepsLinks(k: Kernel, k': Kernel, p: Place, s: ThreadState, f: Context, f': Context)
    requires ThreadsOk(k) && Parks(p, s, k, f, k', f')
    ensures Linked(k')
  {
    var q := ReadyBeforePop(k, k.current.value, p);
    assert q[0] == k.current.value || q[0] in QueueAt(k, ReadyQueue);
    forall h, u | Owes(k', h, u) ensures Owes(k, h, u) {
    }
  }

  lemma CalledKeeps(k: Kernel, k': Kernel, e: EndpointId, t: TcbId, slot: Option<CPtr>, c: Context,
                    f: Context, f': Context)
    requires ThreadsOk(k) && HandsOver(e, t, slot, c, k, f, k', f')
    ensures ThreadsOk(k')
  {
    var cur := k.current.value;
    HeadOf(k, Receivers(e));
    NoDupPop(QueueAt(k, Receivers(e)));
    NotIn(k, ReadyQueue, cur);
    forall h, u | Owes(k', h, u) ensures if h == t then u == cur else Owes(k, h, u) && u != cur {
      if h != t { assert Owes(k, h, u); }
    }
  }

  lemma RepliedKeeps(k: Kernel, k': Kernel, t: TcbId, c: Context, f: Context, f': Context)
    requires ThreadsOk(k) && Answers(t, c, k, f, k', f')
    ensures ThreadsOk(k')
  {
    var cur := k.current.value;
    assert Owes(k, cur, t);
    NotIn(k, ReadyQueue, cur);
    NoDupPush(k.ready, cur);
    assert k'.ready == QueueAt(k', ReadyQueue);
    forall h, u | Owes(k', h, u) ensures Owes(k, h, u) && h != cur && u != t {
      assert h != cur;
      assert Owes(k, h, u);
    }
  }

  /** Whatever move a trap makes, the threads stay in order, and a running thread is never lost. */
  lemma MoveKeepsThreads(x: Effect, k: Kernel, f: Context, k': Kernel, f': Context)
    requires ThreadsOk(k) && Does(x, k, f, k', f')
    ensures ThreadsOk(k')
    ensures k.current.Some? ==> k'.current.Some?
  {
    match x
    case Quiet => QuietKeeps(k, k');
    case Created(t) => CreatedKeeps(k, k', t);
    case Configured(t, tcb) => ConfiguredKeeps(k, k', t, tcb);
    case Admitted(t, tcb) => AdmittedKeeps(k, k', t, tcb);
    case Woken(p, t, c) => WokenKeeps(k, k', p, t, c);
    case AcceptedCall(e, t, slot) => AcceptedCallKeeps(k, k', e, t, slot);
    case Parked(p, s) => ParkedKeeps(k, k', p, s, f, f');
    case Called(e, t, slot, c) => CalledKeeps(k, k', e, t, slot, c, f, f');
    case Replied(t, c) => RepliedKeeps(k, k', t, c, f, f');
  }
}
