/** The effect a system call has on the threads: one of nine moves, whichever of the thirteen
    calls it was. Each move describes the final state outright; `...Effects` modules prove
    that the step functions make them. */
module Effects {
  import opened Words
  import opened Wrappers
  import opened Capabilities
  import opened Objects
  import opened State
  import opened Invariants

  datatype Effect =
    | Quiet
    | Created(t: TcbId)
    | Configured(t: TcbId, tcb: Tcb)
    | Admitted(t: TcbId, tcb: Tcb)
    | Woken(p: Place, t: TcbId, c: Context)
    | AcceptedCall(e: EndpointId, t: TcbId, slot: Option<CPtr>)
    | Parked(p: Place, state: ThreadState)
    | Called(e: EndpointId, t: TcbId, slot: Option<CPtr>, c: Context)
    | Replied(t: TcbId, c: Context)

  ghost predicate SameQueuesBut(k: Kernel, k': Kernel, ps: set<Place>) {
    forall p: Place :: p !in ps ==> QueueAt(k', p) == QueueAt(k, p)
  }

  /** `t` is at the head of queue `p`, and leaves it. */
  ghost predicate LeavesHead(k: Kernel, k': Kernel, p: Place, t: TcbId) {
    && QueueAt(k, p) != [] && QueueAt(k, p)[0] == t
    && QueueAt(k', p) == QueueAt(k, p)[1..]
  }

  /** Registers that no delivery touches. */
  predicate SameHiddenRegisters(c: Context, d: Context) {
    c.raw == d.raw && c.syscall == d.syscall
  }

  /** What a delivery may change in the saved registers of a thread woken from `p`. */
  predicate Delivery(p: Place, c: Context, d: Context) {
    match p
    case Senders(_) => d == c
    case Receivers(_) => SameHiddenRegisters(c, d)
    case Waiters(_) => d == c.SetMr(0, d.Mr(0))
    case ReadyQueue => false
  }

  /** The ready queue when the running thread parks at `p`: it is pushed first if `p` is the
      ready queue itself. */
  function ReadyBeforePop(k: Kernel, cur: TcbId, p: Place): seq<TcbId> {
    if p == ReadyQueue then k.ready + [cur] else k.ready
  }

  // In the following, `f` is the frame the running thread trapped with and `f'` the frame the
  // trap returns to.

  ghost predicate DoesNothing(k: Kernel, k': Kernel) {
    k'.tcbs == k.tcbs && k'.current == k.current && SameQueuesBut(k, k', {})
  }

  /** A new thread that is not configured yet. */
  ghost predicate Creates(t: TcbId, k: Kernel, k': Kernel) {
    && t !in k.tcbs
    && k'.tcbs == k.tcbs[t := NewTcb()]
    && k'.current == k.current && SameQueuesBut(k, k', {})
  }

  predicate SameThread(a: Tcb, b: Tcb) {
    a.context == b.context && a.replyTo == b.replyTo
  }

  /** A configured thread gets other roots. */
  ghost predicate Reconfigures(t: TcbId, tcb: Tcb, k: Kernel, k': Kernel) {
    && t in k.tcbs && k.tcbs[t].state != Inactive
    && tcb.state == k.tcbs[t].state && SameThread(k.tcbs[t], tcb)
    && k'.tcbs == k.tcbs[t := tcb]
    && k'.current == k.current && SameQueuesBut(k, k', {})
  }

  /** An inactive thread enters the ready queue. */
  ghost predicate Admits(t: TcbId, tcb: Tcb, k: Kernel, k': Kernel) {
    && t in k.tcbs && k.tcbs[t].state == Inactive
    && tcb.state == Ready && SameThread(k.tcbs[t], tcb)
    && k'.tcbs == k.tcbs[t := tcb]
    && k'.ready == k.ready + [t]
    && k'.current == k.current && SameQueuesBut(k, k', {ReadyQueue})
  }

  /** The thread blocked in `Send`, or in `Call` with the slot it registered for the reply. */
  predicate Sends(tcb: Tcb, isCall: bool, slot: Option<CPtr>) {
    tcb.state.BlockedSend? && tcb.state.isCall == isCall && (isCall ==> tcb.state.replyDestSlot == slot)
  }

  /** The head of queue `p` becomes ready, with registers `c`. */
  ghost predicate Wakes(p: Place, t: TcbId, c: Context, k: Kernel, k': Kernel) {
    && p != ReadyQueue && LeavesHead(k, k', p, t)
    && t in k.tcbs && Delivery(p, k.tcbs[t].context, c)
    && (p.Senders? ==> Sends(k.tcbs[t], false, None))
    && k'.tcbs == k.tcbs[t := k.tcbs[t].(state := Ready, context := c)]
    && k'.ready == k.ready + [t]
    && k'.current == k.current && SameQueuesBut(k, k', {p, ReadyQueue})
  }

  /** The running thread takes over the call of the head sender. */
  ghost predicate AcceptsCall(e: EndpointId, t: TcbId, slot: Option<CPtr>, k: Kernel, k': Kernel) {
    && k.current.Some? && k.current.value in k.tcbs && k.current.value != t
    && LeavesHead(k, k', Senders(e), t)
    && t in k.tcbs && Sends(k.tcbs[t], true, slot)
    && k'.tcbs == k.tcbs[k.current.value := k.tcbs[k.current.value].(replyTo := Some(t))]
                        [t := k.tcbs[t].(state := BlockedReply(slot))]
    && k'.current == k.current && SameQueuesBut(k, k', {Senders(e)})
  }

  /** The running thread joins the queue of its new state, and the first ready thread runs. */
  ghost predicate Parks(p: Place, state: ThreadState, k: Kernel, f: Context, k': Kernel, f': Context) {
    && k.current.Some? && k.current.value in k.tcbs
    && PlaceOf(state) == Some(p)
    && var cur := k.current.value;
       var q := ReadyBeforePop(k, cur, p);
       var parked := k.tcbs[cur := k.tcbs[cur].(state := state, context := f)];
       && q != [] && q[0] in parked
       && k'.tcbs == parked[q[0] := parked[q[0]].(state := Running)]
       && k'.ready == q[1..]
       && (p != ReadyQueue ==> QueueAt(k', p) == QueueAt(k, p) + [cur])
       && SameQueuesBut(k, k', {p, ReadyQueue})
       && k'.current == Some(q[0])
       && f' == if p == ReadyQueue then ReplySuccess(parked[q[0]].context) else parked[q[0]].context
  }

  /** The running thread waits for the reply of the head receiver, which runs. */
  ghost predicate HandsOver(e: EndpointId, t: TcbId, slot: Option<CPtr>, c: Context,
                            k: Kernel, f: Context, k': Kernel, f': Context)
  {
    && k.current.Some? && k.current.value in k.tcbs && k.current.value != t
    && LeavesHead(k, k', Receivers(e), t)
    && t in k.tcbs && Delivery(Receivers(e), k.tcbs[t].context, c)
    && k'.tcbs == k.tcbs[k.current.value := k.tcbs[k.current.value].(state := BlockedReply(slot), context := f)]
                        [t := k.tcbs[t].(state := Running, context := c, replyTo := Some(k.current.value))]
    && SameQueuesBut(k, k', {Receivers(e)})
    && k'.current == Some(t) && f' == c
  }

  /** The thread the running one owes a reply to runs; the running one becomes ready. */
  ghost predicate Answers(t: TcbId, c: Context, k: Kernel, f: Context, k': Kernel, f': Context) {
    && k.current.Some? && k.current.value in k.tcbs && k.current.value != t
    && t in k.tcbs && k.tcbs[k.current.value].replyTo == Some(t)
    && SameHiddenRegisters(k.tcbs[t].context, c)
    && k'.tcbs == k.tcbs[k.current.value := k.tcbs[k.current.value].(state := Ready, context := f, replyTo := None)]
                        [t := k.tcbs[t].(state := Running, context := c)]
    && k'.ready == k.ready + [k.current.value]
    && SameQueuesBut(k, k', {ReadyQueue})
    && k'.current == Some(t) && f' == c
  }

  ghost predicate Does(x: Effect, k: Kernel, f: Context, k': Kernel, f': Context) {
    match x
    case Quiet => DoesNothing(k, k')
    case Created(t) => Creates(t, k, k')
    case Configured(t, tcb) => Reconfigures(t, tcb, k, k')
    case Admitted(t, tcb) => Admits(t, tcb, k, k')
    case Woken(p, t, c) => Wakes(p, t, c, k, k')
    case AcceptedCall(e, t, slot) => AcceptsCall(e, t, slot, k, k')
    case Parked(p, state) => Parks(p, state, k, f, k', f')
    case Called(e, t, slot, c) => HandsOver(e, t, slot, c, k, f, k', f')
    case Replied(t, c) => Answers(t, c, k, f, k', f')
  }

  /** The calls that can have each effect; every call may be quiet. */
  predicate Causes(n: Word, x: Effect) {
    match x
    case Quiet => true
    case Created(_) => n == UNTYPED_RETYPE
    case Configured(_, _) | Admitted(_, _) => n == TCB_CONFIGURE
    case Woken(p, _, _) =>
      (match p
       case Senders(_) => n == RECV
       case Receivers(_) => n == SEND || n == NB_SEND
       case Waiters(_) => n == SIGNAL
       case ReadyQueue => false)
    case AcceptedCall(_, _, _) => n == RECV
    case Parked(p, s) =>
      (match p
       case Senders(_) => s.BlockedSend? && n == (if s.isCall then CALL else SEND)
       case Receivers(_) => n == RECV
       case Waiters(_) => n == WAIT
       case ReadyQueue => n == YIELD)
    case Called(_, _, _, _) => n == CALL
    case Replied(_, _) => n == REPLY
  }

  /** The effect call `n` has had is some move it can cause. */
  ghost predicate Moves(n: Word, k: Kernel, f: Context, k': Kernel, f': Context) {
    exists x :: Does(x, k, f, k', f') && Causes(n, x)
  }

  /** What the handler of call `n` promises: it never panics, it fails without moving a thread
      or touching the frame, and it succeeds with one move. */
  ghost predicate Behaves(n: Word, k: Kernel, f: Context, o: Outcome) {
    match o.status
    case Panic => false
    case Err(_) => Does(Quiet, k, f, o.k, o.frame) && o.frame == f
    case Ok => Moves(n, k, f, o.k, o.frame)
  }

  // ----------------------------------------------------- which queues a write moves

  lemma QueuesFrame(k: Kernel, k': Kernel)
    requires k'.endpoints == k.endpoints && k'.notifications == k.notifications
    ensures SameQueuesBut(k, k', {ReadyQueue})
    ensures k'.ready == k.ready ==> SameQueuesBut(k, k', {})
  {
  }

  lemma EndpointFrame(k: Kernel, k': Kernel, e: EndpointId)
    requires k'.notifications == k.notifications
    requires e in k'.endpoints && k'.endpoints == k.endpoints[e := k'.endpoints[e]]
    ensures SameQueuesBut(k, k', {Senders(e), Receivers(e), ReadyQueue})
  {
  }

  lemma NotificationFrame(k: Kernel, k': Kernel, n: NotificationId)
    requires k'.endpoints == k.endpoints
    requires n in k'.notifications && k'.notifications == k.notifications[n := k'.notifications[n]]
    ensures SameQueuesBut(k, k', {Waiters(n), ReadyQueue})
  {
  }

  lemma FreshEndpointFrame(k: Kernel, k': Kernel, e: EndpointId)
    requires k'.notifications == k.notifications && k'.ready == k.ready
    requires e !in k.endpoints && k'.endpoints == k.endpoints[e := Endpoint(Empty)]
    ensures SameQueuesBut(k, k', {})
  {
  }

  lemma FreshNotificationFrame(k: Kernel, k': Kernel, n: NotificationId)
    requires k'.endpoints == k.endpoints && k'.ready == k.ready
    requires n !in k.notifications && k'.notifications == k.notifications[n := Notification(0, [])]
    ensures SameQueuesBut(k, k', {})
  {
  }

  /** A queue that does not move needs no exception. */
  lemma NarrowFrame(k: Kernel, k': Kernel, ps: set<Place>, p: Place)
    requires SameQueuesBut(k, k', ps) && QueueAt(k', p) == QueueAt(k, p)
    ensures SameQueuesBut(k, k', ps - {p})
  {
  }
}
