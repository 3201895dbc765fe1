/** The kernel state as a value and the context-switch machine on it (src/state.rs,
    src/scheduler.rs). Each pool is the finite map `Pool` refines, each queue the sequence
    `ArrayQueue` refines. The step functions of this and the following modules specify the
    imperative methods of the `...Machine` modules. */
module State {
  import opened Limits
  import opened Words
  import opened Wrappers
  import opened Capabilities
  import opened Objects
  import opened Queue

  datatype Kernel = Kernel(
    cnodes: map<CNodeId, CNode>,
    tcbs: map<TcbId, Tcb>,
    endpoints: map<EndpointId, Endpoint>,
    notifications: map<NotificationId, Notification>,
    untypeds: map<UntypedId, Untyped>,
    schedContexts: map<SchedContextId, SchedulingContext>,
    vspaces: map<VSpaceId, VSpace>,
    frames: map<FrameId, Frame>,
    pageTables: PageTables,
    ready: seq<TcbId>,
    current: Option<TcbId>)

  /** How a handler ends. `Panic` stands for a failed `expect`, an `unreachable!`, a failed
      `debug_assert!` or an arithmetic overflow. */
  datatype Status = Ok | Err(error: SyscallError) | Panic

  datatype Outcome = Outcome(k: Kernel, frame: Context, status: Status)

  // ------------------------------------------------------------------- queues

  predicate HasRoom(q: seq<TcbId>) {
    |q| < MAX_TCBS
  }

  /** `push_back`: a full queue stays as it is. */
  function PushBack(q: seq<TcbId>, t: TcbId): seq<TcbId> {
    if HasRoom(q) then q + [t] else q
  }

  // ------------------------------------------------------------- thread writes

  /** Nothing but threads and the scheduler differs, and the threads are the same ones. */
  predicate OnlyThreads(k: Kernel, k': Kernel) {
    && k' == k.(tcbs := k'.tcbs, ready := k'.ready, current := k'.current)
    && k'.tcbs.Keys == k.tcbs.Keys
  }

  function SetState(k: Kernel, t: TcbId, s: ThreadState): (k': Kernel)
    ensures OnlyThreads(k, k')
  {
    if t in k.tcbs then k.(tcbs := k.tcbs[t := k.tcbs[t].(state := s)]) else k
  }

  function SetContext(k: Kernel, t: TcbId, c: Context): (k': Kernel)
    ensures OnlyThreads(k, k')
  {
    if t in k.tcbs then k.(tcbs := k.tcbs[t := k.tcbs[t].(context := c)]) else k
  }

  function SetReplyTo(k: Kernel, t: TcbId, r: Option<TcbId>): (k': Kernel)
    ensures OnlyThreads(k, k')
  {
    if t in k.tcbs then k.(tcbs := k.tcbs[t := k.tcbs[t].(replyTo := r)]) else k
  }

  // ---------------------------------------------------------- context switches

  function SaveCurrent(k: Kernel, f: Context): (k': Kernel)
    ensures OnlyThreads(k, k')
  {
    if k.current.Some? then SetContext(k, k.current.value, f) else k
  }

  /** Loads `next` into the trap frame and makes it the running thread. */
  function Resume(k: Kernel, f: Context, next: TcbId): (r: (Kernel, Context))
    ensures OnlyThreads(k, r.0)
  {
    (SetState(k, next, Running).(current := Some(next)),
     if next in k.tcbs then k.tcbs[next].context else f)
  }

  function SwitchTo(k: Kernel, f: Context, next: TcbId): (r: (Kernel, Context))
    ensures OnlyThreads(k, r.0)
  {
    Resume(SaveCurrent(k, f), f, next)
  }

  /** The last component tells whether a switch happened. */
  function BlockCurrent(k: Kernel, f: Context): (r: (Kernel, Context, bool))
    ensures OnlyThreads(k, r.0)
  {
    if k.ready == [] then (k, f, false)
    else
      var k1 := SaveCurrent(k, f).(current := None);
      var (k2, f2) := Resume(k1.(ready := k1.ready[1..]), f, k1.ready[0]);
      (k2, f2, true)
  }

  function MakeReady(k: Kernel, t: TcbId): (k': Kernel)
    ensures OnlyThreads(k, k')
  {
    if t in k.tcbs && k.tcbs[t].state == Ready then k
    else
      var k1 := SetState(k, t, Ready);
      k1.(ready := PushBack(k1.ready, t))
  }

  /** The bookkeeping of `enter_first_thread` (src/lib.rs): the thread leaves the ready queue
      if it is there, and becomes current. */
  function EnterFirstThread(k: Kernel, t: TcbId): (Kernel, Context) {
    Resume(k.(ready := RemoveFirst(k.ready, t)), ZeroContext(), t)
  }

  // ------------------------------------------------------------------- lookup

  function LookupCap(k: Kernel, thread: TcbId, cptr: CPtr): Result<Capability, SyscallError> {
    if thread !in k.tcbs || k.tcbs[thread].cspace.None? || k.tcbs[thread].cspace.value !in k.cnodes
    then Failure(FailedLookup)
    else
      var slots := k.cnodes[k.tcbs[thread].cspace.value];
      if cptr >= |slots| || slots[cptr] == Null then Failure(InvalidCapability)
      else Success(slots[cptr])
  }

  function SetSlot(k: Kernel, n: CNodeId, s: Word, c: Capability): Kernel
    requires n in k.cnodes && s < CNODE_SLOTS
  {
    k.(cnodes := k.cnodes[n := k.cnodes[n][s := c]])
  }
}
