/** The system-wide well-formedness invariant that the comments of the source rely on:
    every thread is in exactly one place, and the reply links are one-shot. */
module Invariants {
  import opened Limits
  import opened Words
  import opened Wrappers
  import opened Capabilities
  import opened Objects
  import opened State
  import Pool

  /** The queues a thread can sit in. */
  datatype Place =
    | ReadyQueue
    | Senders(endpoint: EndpointId)
    | Receivers(endpoint: EndpointId)
    | Waiters(notification: NotificationId)

  function QueueAt(k: Kernel, p: Place): seq<TcbId> {
    match p
    case ReadyQueue => k.ready
    case Senders(e) =>
      if e in k.endpoints && k.endpoints[e].queue.SendQueue? then k.endpoints[e].queue.senders else []
    case Receivers(e) =>
      if e in k.endpoints && k.endpoints[e].queue.RecvQueue? then k.endpoints[e].queue.receivers else []
    case Waiters(n) =>
      if n in k.notifications then k.notifications[n].waiters else []
  }

  /** The queue a thread in state `s` belongs in; `Running`, `Inactive` and `BlockedReply`
      threads belong in none. */
  function PlaceOf(s: ThreadState): Option<Place> {
    match s
    case Ready => Some(ReadyQueue)
    case BlockedSend(e, _, _, _, _) => Some(Senders(e))
    case BlockedRecv(e, _) => Some(Receivers(e))
    case BlockedWait(n) => Some(Waiters(n))
    case Inactive | Running | BlockedReply(_) => None
  }

  ghost predicate NoDup(q: seq<TcbId>) {
    forall i, j :: 0 <= i < j < |q| ==> q[i] != q[j]
  }

  /** Every queue holds exactly the threads whose state says so, each once. */
  ghost predicate Placed(k: Kernel) {
    && (forall p: Place {:trigger QueueAt(k, p)} :: NoDup(QueueAt(k, p)))
    && (forall p: Place, t: TcbId {:trigger t in QueueAt(k, p)} ::
          t in QueueAt(k, p) <==> t in k.tcbs && PlaceOf(k.tcbs[t].state) == Some(p))
  }

  /** A `SendQueue` or `RecvQueue` is never empty. */
  ghost predicate Normalized(k: Kernel) {
    forall e | e in k.endpoints ::
      (k.endpoints[e].queue.SendQueue? ==> k.endpoints[e].queue.senders != []) &&
      (k.endpoints[e].queue.RecvQueue? ==> k.endpoints[e].queue.receivers != [])
  }

  /** `current` is the one running thread. */
  ghost predicate OneRunning(k: Kernel) {
    && (k.current.Some? ==> k.current.value in k.tcbs)
    && (forall t | t in k.tcbs :: k.tcbs[t].state == Running <==> k.current == Some(t))
  }

  /** `h` owes a reply to `t`. */
  predicate Owes(k: Kernel, h: TcbId, t: TcbId) {
    h in k.tcbs && k.tcbs[h].replyTo == Some(t)
  }

  /** A reply link leads to a thread that waits for a reply, and no two links to the same one. */
  ghost predicate Linked(k: Kernel) {
    && (forall h, t | Owes(k, h, t) :: t in k.tcbs && k.tcbs[t].state.BlockedReply?)
    && (forall h1, h2, t | Owes(k, h1, t) && Owes(k, h2, t) :: h1 == h2)
  }

  /** While a thread waits on a notification, no signal is pending there. */
  ghost predicate Calm(k: Kernel) {
    forall n | n in k.notifications :: k.notifications[n].waiters != [] ==> k.notifications[n].signals == 0
  }

  ghost predicate PoolsBounded(k: Kernel) {
    && Pool.Bounded(k.cnodes, MAX_CNODES)
    && Pool.Bounded(k.tcbs, MAX_TCBS)
    && Pool.Bounded(k.endpoints, MAX_ENDPOINTS)
    && Pool.Bounded(k.notifications, MAX_NOTIFICATIONS)
    && Pool.Bounded(k.untypeds, MAX_UNTYPEDS)
    && Pool.Bounded(k.schedContexts, MAX_SCHED_CONTEXTS)
    && Pool.Bounded(k.vspaces, MAX_VSPACES)
    && Pool.Bounded(k.frames, MAX_FRAMES)
  }

  /** No address computation of a bump allocator overflows. */
  ghost predicate BumpsBounded(k: Kernel) {
    forall u | u in k.untypeds :: UntypedBounded(k.untypeds[u])
  }

  /** Mapped ranges end at least one megapage below the top of the address space. */
  predicate UntypedBounded(u: Untyped) {
    u.memory.Some? ==> u.memory.value.next <= u.memory.value.end && u.memory.value.end + MEGAPAGE_SIZE < WORD_LIMIT
  }

  /** Well-formed kernels, with or without a running thread. */
  ghost predicate WellFormed(k: Kernel) {
    Placed(k) && Normalized(k) && OneRunning(k) && Linked(k) && Calm(k) && PoolsBounded(k) && BumpsBounded(k)
  }

  /** What holds whenever a thread runs. */
  ghost predicate Inv(k: Kernel) {
    WellFormed(k) && k.current.Some?
  }

  // ---------------------------------------------------------- facts about queues

  /** The head of a queue is allocated, and its state names that queue. */
  lemma HeadOf(k: Kernel, p: Place)
    requires Placed(k) && QueueAt(k, p) != []
    ensures var t := QueueAt(k, p)[0]; t in k.tcbs && PlaceOf(k.tcbs[t].state) == Some(p)
  {
    assert QueueAt(k, p)[0] in QueueAt(k, p);
  }

  /** A thread whose state names another place, or none, is not in `p`. */
  lemma NotIn(k: Kernel, p: Place, t: TcbId)
    requires Placed(k) && t in k.tcbs && PlaceOf(k.tcbs[t].state) != Some(p)
    ensures t !in QueueAt(k, p)
  {
  }

  lemma NoDupPush(q: seq<TcbId>, t: TcbId)
    requires NoDup(q) && t !in q
    ensures NoDup(q + [t])
    ensures forall x :: x in q + [t] <==> x in q || x == t
  {
  }

  lemma NoDupPop(q: seq<TcbId>)
    requires NoDup(q) && q != []
    ensures NoDup(q[1..])
    ensures forall x :: x in q[1..] <==> x in q && x != q[0]
  {
    assert q == [q[0]] + q[1..];
  }

  lemma {:induction false} NoDupLength(q: seq<TcbId>, s: set<TcbId>)
    requires NoDup(q) && forall x | x in q :: x in s
    ensures |q| <= |s|
    decreases |q|
  {
    if q != [] {
      NoDupPop(q);
      NoDupLength(q[1..], s - {q[0]});
    }
  }

  /** The pigeonhole argument behind every `push_back` of the kernel: a queue that lacks some
      thread has room for it. */
  lemma QueueHasRoom(k: Kernel, p: Place, t: TcbId)
    requires Placed(k) && PoolsBounded(k)
    requires t in k.tcbs && PlaceOf(k.tcbs[t].state) != Some(p)
    ensures t !in QueueAt(k, p)
    ensures HasRoom(QueueAt(k, p))
  {
    var q := QueueAt(k, p);
    forall x | x in q ensures x in k.tcbs.Keys - {t} {
    }
    NoDupLength(q, k.tcbs.Keys - {t});
  }
}
