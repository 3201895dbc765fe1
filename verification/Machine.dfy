/** The kernel state as the kernel keeps it: pools, the scheduler and the page-table arena, all
    changed in place (src/state.rs, src/scheduler.rs, src/object.rs). `Model` is the kernel value
    these objects stand for; each method is proved to do to it what its step function says. */
module Machine {
  import opened Limits
  import opened Words
  import opened Wrappers
  import opened Capabilities
  import opened Objects
  import opened Queue
  import opened TrapFrames
  import opened State
  import Pool
  import Frames

  // ----------------------------------------------------------------- the scheduler

  class Scheduler {
    const ready: ArrayQueue<TcbId>
    var current: Option<TcbId>

    ghost function Repr(): set<object> {
      {this, ready, ready.items}
    }

    ghost predicate Valid()
      reads ready, ready.items
    {
      ready.Valid() && ready.items.Length == MAX_TCBS
    }

    constructor ()
      ensures Valid() && fresh(Repr()) && ready.Contents() == [] && current == None
    {
      ready := new ArrayQueue<TcbId>(MAX_TCBS);
      current := None;
    }

    method HasReady() returns (some: bool)
      requires Valid()
      ensures some == (ready.Contents() != [])
    {
      var empty := ready.IsEmpty();
      some := !empty;
    }

    /** Takes a thread out of the ready queue if it is there. */
    method RemoveReady(t: TcbId)
      requires Valid()
      modifies ready, ready.items
      ensures Valid() && ready.Contents() == RemoveFirst(old(ready.Contents()), t)
    {
      var _ := ready.Remove(t);
    }
  }

  // ---------------------------------------------------------- the page-table arena

  class KernelPageTables {
    const base: Address
    var next: nat
    /** The pages the page-table walk has linked in: the contents of the arena. */
    ghost var branches: seq<Address>

    ghost function View(): PageTables
      reads this
    {
      PageTables(base, next, branches)
    }

    constructor (base: Address)
      ensures View() == PageTables(base, 0, [])
    {
      this.base := base;
      next := 0;
      branches := [];
    }

    method Alloc() returns (page: Option<Address>)
      modifies this
      ensures var a := AllocTable(old(View()));
              if a.None? then page == None && View() == old(View())
              else page == Some(a.value.1) && View() == a.value.0
    {
      if next + PAGE_SIZE > MAX_KERNEL_PAGE_TABLES * PAGE_SIZE {
        return None;
      }
      page := Some(base + next);
      next := next + PAGE_SIZE;
    }

    /** Gives back the most recent pages; no more than have been taken. */
    method ReleaseLast(count: nat)
      requires count * PAGE_SIZE <= next
      modifies this
      ensures View() == Frames.ReleaseLast(old(View()), count)
    {
      next := next - count * PAGE_SIZE;
    }

    /** The walk has linked `pages`. */
    ghost method Link(pages: seq<Address>)
      modifies this
      ensures View() == old(View()).(branches := old(View()).branches + pages)
    {
      branches := branches + pages;
    }
  }

  // -------------------------------------------------------------- the kernel state

  /** A pool that holds nothing. */
  ghost predicate EmptyPool<T>(pool: Pool.Pool<T>, capacity: nat)
    reads pool.Repr()
  {
    pool.Valid() && pool.slots.Length == capacity && pool.View() == map[]
  }

  /** Empty pools for the objects of IPC. */
  method NewIpcPools()
    returns (cnodes: Pool.Pool<CNode>, tcbs: Pool.Pool<Tcb>,
             endpoints: Pool.Pool<Endpoint>, notifications: Pool.Pool<Notification>, ghost objects: set<object>)
    ensures EmptyPool(cnodes, MAX_CNODES) && EmptyPool(tcbs, MAX_TCBS)
    ensures EmptyPool(endpoints, MAX_ENDPOINTS) && EmptyPool(notifications, MAX_NOTIFICATIONS)
    ensures objects == cnodes.Repr() + tcbs.Repr() + endpoints.Repr() + notifications.Repr() && fresh(objects)
  {
    hide Pool.Pool.View;
    hide Pool.Pool.Valid;
    cnodes := new Pool.Pool<CNode>(MAX_CNODES);
    tcbs := new Pool.Pool<Tcb>(MAX_TCBS);
    endpoints := new Pool.Pool<Endpoint>(MAX_ENDPOINTS);
    notifications := new Pool.Pool<Notification>(MAX_NOTIFICATIONS);
    objects := cnodes.Repr() + tcbs.Repr() + endpoints.Repr() + notifications.Repr();
  }

  /** Empty pools for budgets and memory. */
  method NewMemoryPools()
    returns (untypeds: Pool.Pool<Untyped>, schedContexts: Pool.Pool<SchedulingContext>,
             vspaces: Pool.Pool<VSpace>, frames: Pool.Pool<Frame>, ghost objects: set<object>)
    ensures EmptyPool(untypeds, MAX_UNTYPEDS) && EmptyPool(schedContexts, MAX_SCHED_CONTEXTS)
    ensures EmptyPool(vspaces, MAX_VSPACES) && EmptyPool(frames, MAX_FRAMES)
    ensures objects == untypeds.Repr() + schedContexts.Repr() + vspaces.Repr() + frames.Repr() && fresh(objects)
  {
    hide Pool.Pool.View;
    hide Pool.Pool.Valid;
    untypeds := new Pool.Pool<Untyped>(MAX_UNTYPEDS);
    schedContexts := new Pool.Pool<SchedulingContext>(MAX_SCHED_CONTEXTS);
    vspaces := new Pool.Pool<VSpace>(MAX_VSPACES);
    frames := new Pool.Pool<Frame>(MAX_FRAMES);
    objects := untypeds.Repr() + schedContexts.Repr() + vspaces.Repr() + frames.Repr();
  }

  /** An unused arena and an empty scheduler. */
  method NewControl(arena: Address)
    returns (tables: KernelPageTables, scheduler: Scheduler, ghost objects: set<object>)
    ensures tables.View() == PageTables(arena, 0, [])
    ensures scheduler.Valid() && scheduler.ready.Contents() == [] && scheduler.current == None
    ensures objects == {tables} + scheduler.Repr() && fresh(objects)
  {
    tables := new KernelPageTables(arena);
    scheduler := new Scheduler();
    objects := {tables} + scheduler.Repr();
  }

  class KernelState {
    const cnodes: Pool.Pool<CNode>
    const tcbs: Pool.Pool<Tcb>
    const endpoints: Pool.Pool<Endpoint>
    const notifications: Pool.Pool<Notification>
    const untypeds: Pool.Pool<Untyped>
    const schedContexts: Pool.Pool<SchedulingContext>
    const vspaces: Pool.Pool<VSpace>
    const frames: Pool.Pool<Frame>
    const tables: KernelPageTables
    const scheduler: Scheduler

    ghost const Repr: set<object>

    ghost predicate Valid()
      reads Repr
    {
      && Repr == cnodes.Repr() + tcbs.Repr() + endpoints.Repr() + notifications.Repr()
                 + (untypeds.Repr() + schedContexts.Repr() + vspaces.Repr() + frames.Repr())
                 + ({tables} + scheduler.Repr())
      && cnodes.Valid() && cnodes.slots.Length == MAX_CNODES
      && tcbs.Valid() && tcbs.slots.Length == MAX_TCBS
      && endpoints.Valid() && endpoints.slots.Length == MAX_ENDPOINTS
      && notifications.Valid() && notifications.slots.Length == MAX_NOTIFICATIONS
      && untypeds.Valid() && untypeds.slots.Length == MAX_UNTYPEDS
      && schedContexts.Valid() && schedContexts.slots.Length == MAX_SCHED_CONTEXTS
      && vspaces.Valid() && vspaces.slots.Length == MAX_VSPACES
      && frames.Valid() && frames.slots.Length == MAX_FRAMES
      && scheduler.Valid()
    }

    /** The kernel value the objects stand for. */
    ghost function Model(): Kernel
      requires Valid()
      reads Repr
    {
      Kernel(cnodes.View(), tcbs.View(), endpoints.View(), notifications.View(), untypeds.View(),
             schedContexts.View(), vspaces.View(), frames.View(), tables.View(),
             scheduler.ready.Contents(), scheduler.current)
    }

    constructor (arena: Address)
      ensures Valid() && fresh(Repr)
      ensures Model() == Kernel(map[], map[], map[], map[], map[], map[], map[], map[],
                                PageTables(arena, 0, []), [], None)
    {
      hide KernelState.Valid;
      hide KernelState.Model;
      hide EmptyPool;
      hide Scheduler.Valid;
      hide Pool.Pool.Repr;
      hide Scheduler.Repr;
      var nodes, threads, eps, notifs, ipcObjects := NewIpcPools();
      var ranges, budgets, spaces, pages, memoryObjects := NewMemoryPools();
      var pageTables, sched, controlObjects := NewControl(arena);
      cnodes, tcbs, endpoints, notifications := nodes, threads, eps, notifs;
      untypeds, schedContexts, vspaces, frames := ranges, budgets, spaces, pages;
      tables, scheduler := pageTables, sched;
      Repr := ipcObjects + memoryObjects + controlObjects;
      new;
      StartsEmpty(arena);
    }

    lemma StartsEmpty(arena: Address)
      requires EmptyPool(cnodes, MAX_CNODES) && EmptyPool(tcbs, MAX_TCBS)
      requires EmptyPool(endpoints, MAX_ENDPOINTS) && EmptyPool(notifications, MAX_NOTIFICATIONS)
      requires EmptyPool(untypeds, MAX_UNTYPEDS) && EmptyPool(schedContexts, MAX_SCHED_CONTEXTS)
      requires EmptyPool(vspaces, MAX_VSPACES) && EmptyPool(frames, MAX_FRAMES)
      requires tables.View() == PageTables(arena, 0, [])
      requires scheduler.Valid() && scheduler.ready.Contents() == [] && scheduler.current == None
      requires Repr == cnodes.Repr() + tcbs.Repr() + endpoints.Repr() + notifications.Repr()
                       + (untypeds.Repr() + schedContexts.Repr() + vspaces.Repr() + frames.Repr())
                       + ({tables} + scheduler.Repr())
      ensures Valid()
      ensures Model() == Kernel(map[], map[], map[], map[], map[], map[], map[], map[],
                                PageTables(arena, 0, []), [], None)
    {
      hide Pool.Pool.View;
      hide Pool.Pool.Valid;
      hide ArrayQueue.Valid;
      hide ArrayQueue.Contents;
    }

    // ------------------------------------------------------------- access to the pools

    method GetCNode(i: CNodeId) returns (r: Option<CNode>)
      requires Valid()
      ensures r == if i in Model().cnodes then Some(Model().cnodes[i]) else None
    {
      hide Pool.Pool.View;
      hide Pool.Pool.Valid;
      r := cnodes.Get(i);
    }

    method PutCNode(i: CNodeId, v: CNode)
      requires Valid()
      modifies Repr
      ensures Valid()
      ensures Model() == if i in old(Model()).cnodes then old(Model()).(cnodes := old(Model()).cnodes[i := v])
                         else old(Model())
    {
      hide Pool.Pool.View;
      hide Pool.Pool.Valid;
      hide ArrayQueue.Valid;
      hide ArrayQueue.Contents;
      var _ := cnodes.Put(i, v);
    }

    method AllocCNode(v: CNode) returns (i: Option<CNodeId>)
      requires Valid()
      modifies Repr
      ensures Valid() && i == Pool.AllocIndex(old(Model()).cnodes, MAX_CNODES)
      ensures Model() == if i.Some? then old(Model()).(cnodes := old(Model()).cnodes[i.value := v])
                         else old(Model())
    {
      hide Pool.Pool.View;
      hide Pool.Pool.Valid;
      hide Pool.AllocIndex;
      hide ArrayQueue.Valid;
      hide ArrayQueue.Contents;
      i := cnodes.Alloc(v);
    }

    method GetTcb(i: TcbId) returns (r: Option<Tcb>)
      requires Valid()
      ensures r == if i in Model().tcbs then Some(Model().tcbs[i]) else None
    {
      hide Pool.Pool.View;
      hide Pool.Pool.Valid;
      r := tcbs.Get(i);
    }

    method PutTcb(i: TcbId, v: Tcb)
      requires Valid()
      modifies Repr
      ensures Valid()
      ensures Model() == if i in old(Model()).tcbs then old(Model()).(tcbs := old(Model()).tcbs[i := v])
                         else old(Model())
    {
      hide Pool.Pool.View;
      hide Pool.Pool.Valid;
      hide ArrayQueue.Valid;
      hide ArrayQueue.Contents;
      var _ := tcbs.Put(i, v);
    }

    method AllocTcb(v: Tcb) returns (i: Option<TcbId>)
      requires Valid()
      modifies Repr
      ensures Valid() && i == Pool.AllocIndex(old(Model()).tcbs, MAX_TCBS)
      ensures Model() == if i.Some? then old(Model()).(tcbs := old(Model()).tcbs[i.value := v])
                         else old(Model())
    {
      hide Pool.Pool.View;
      hide Pool.Pool.Valid;
      hide Pool.AllocIndex;
      hide ArrayQueue.Valid;
      hide ArrayQueue.Contents;
      i := tcbs.Alloc(v);
    }

    method GetEndpoint(i: EndpointId) returns (r: Option<Endpoint>)
      requires Valid()
      ensures r == if i in Model().endpoints then Some(Model().endpoints[i]) else None
    {
      hide Pool.Pool.View;
      hide Pool.Pool.Valid;
      r := endpoints.Get(i);
    }

    method PutEndpoint(i: EndpointId, v: Endpoint)
      requires Valid()
      modifies Repr
      ensures Valid()
      ensures Model() == if i in old(Model()).endpoints then old(Model()).(endpoints := old(Model()).endpoints[i := v])
                         else old(Model())
    {
      hide Pool.Pool.View;
      hide Pool.Pool.Valid;
      hide ArrayQueue.Valid;
      hide ArrayQueue.Contents;
      var _ := endpoints.Put(i, v);
    }

    method AllocEndpoint(v: Endpoint) returns (i: Option<EndpointId>)
      requires Valid()
      modifies Repr
      ensures Valid() && i == Pool.AllocIndex(old(Model()).endpoints, MAX_ENDPOINTS)
      ensures Model() == if i.Some? then old(Model()).(endpoints := old(Model()).endpoints[i.value := v])
                         else old(Model())
    {
      hide Pool.Pool.View;
      hide Pool.Pool.Valid;
      hide Pool.AllocIndex;
      hide ArrayQueue.Valid;
      hide ArrayQueue.Contents;
      i := endpoints.Alloc(v);
    }

    method GetNotification(i: NotificationId) returns (r: Option<Notification>)
      requires Valid()
      ensures r == if i in Model().notifications then Some(Model().notifications[i]) else None
    {
      hide Pool.Pool.View;
      hide Pool.Pool.Valid;
      r := notifications.Get(i);
    }

    method PutNotification(i: NotificationId, v: Notification)
      requires Valid()
      modifies Repr
      ensures Valid()
      ensures Model() == if i in old(Model()).notifications
                         then old(Model()).(notifications := old(Model()).notifications[i := v])
                         else old(Model())
    {
      hide Pool.Pool.View;
      hide Pool.Pool.Valid;
      hide ArrayQueue.Valid;
      hide ArrayQueue.Contents;
      var _ := notifications.Put(i, v);
    }

    method AllocNotification(v: Notification) returns (i: Option<NotificationId>)
      requires Valid()
      modifies Repr
      ensures Valid() && i == Pool.AllocIndex(old(Model()).notifications, MAX_NOTIFICATIONS)
      ensures Model() == if i.Some? then old(Model()).(notifications := old(Model()).notifications[i.value := v])
                         else old(Model())
    {
      hide Pool.Pool.View;
      hide Pool.Pool.Valid;
      hide Pool.AllocIndex;
      hide ArrayQueue.Valid;
      hide ArrayQueue.Contents;
      i := notifications.Alloc(v);
    }

    method GetUntyped(i: UntypedId) returns (r: Option<Untyped>)
      requires Valid()
      ensures r == if i in Model().untypeds then Some(Model().untypeds[i]) else None
    {
      hide Pool.Pool.View;
      hide Pool.Pool.Valid;
      r := untypeds.Get(i);
    }

    method PutUntyped(i: UntypedId, v: Untyped)
      requires Valid()
      modifies Repr
      ensures Valid()
      ensures Model() == if i in old(Model()).untypeds then old(Model()).(untypeds := old(Model()).untypeds[i := v])
                         else old(Model())
    {
      hide Pool.Pool.View;
      hide Pool.Pool.Valid;
      hide ArrayQueue.Valid;
      hide ArrayQueue.Contents;
      var _ := untypeds.Put(i, v);
    }

    method AllocSchedContext(v: SchedulingContext) returns (i: Option<SchedContextId>)
      requires Valid()
      modifies Repr
      ensures Valid() && i == Pool.AllocIndex(old(Model()).schedContexts, MAX_SCHED_CONTEXTS)
      ensures Model() == if i.Some? then old(Model()).(schedContexts := old(Model()).schedContexts[i.value := v])
                         else old(Model())
    {
      hide Pool.Pool.View;
      hide Pool.Pool.Valid;
      hide Pool.AllocIndex;
      hide ArrayQueue.Valid;
      hide ArrayQueue.Contents;
      i := schedContexts.Alloc(v);
    }

    method GetVSpace(i: VSpaceId) returns (r: Option<VSpace>)
      requires Valid()
      ensures r == if i in Model().vspaces then Some(Model().vspaces[i]) else None
    {
      hide Pool.Pool.View;
      hide Pool.Pool.Valid;
      r := vspaces.Get(i);
    }

    method AllocVSpace(v: VSpace) returns (i: Option<VSpaceId>)
      requires Valid()
      modifies Repr
      ensures Valid() && i == Pool.AllocIndex(old(Model()).vspaces, MAX_VSPACES)
      ensures Model() == if i.Some? then old(Model()).(vspaces := old(Model()).vspaces[i.value := v])
                         else old(Model())
    {
      hide Pool.Pool.View;
      hide Pool.Pool.Valid;
      hide Pool.AllocIndex;
      hide ArrayQueue.Valid;
      hide ArrayQueue.Contents;
      i := vspaces.Alloc(v);
    }

    method GetFrame(i: FrameId) returns (r: Option<Frame>)
      requires Valid()
      ensures r == if i in Model().frames then Some(Model().frames[i]) else None
    {
      hide Pool.Pool.View;
      hide Pool.Pool.Valid;
      r := frames.Get(i);
    }

    method PutFrame(i: FrameId, v: Frame)
      requires Valid()
      modifies Repr
      ensures Valid()
      ensures Model() == if i in old(Model()).frames then old(Model()).(frames := old(Model()).frames[i := v])
                         else old(Model())
    {
      hide Pool.Pool.View;
      hide Pool.Pool.Valid;
      hide ArrayQueue.Valid;
      hide ArrayQueue.Contents;
      var _ := frames.Put(i, v);
    }

    method AllocFrame(v: Frame) returns (i: Option<FrameId>)
      requires Valid()
      modifies Repr
      ensures Valid() && i == Pool.AllocIndex(old(Model()).frames, MAX_FRAMES)
      ensures Model() == if i.Some? then old(Model()).(frames := old(Model()).frames[i.value := v])
                         else old(Model())
    {
      hide Pool.Pool.View;
      hide Pool.Pool.Valid;
      hide Pool.AllocIndex;
      hide ArrayQueue.Valid;
      hide ArrayQueue.Contents;
      i := frames.Alloc(v);
    }

    method SetCurrent(t: Option<TcbId>)
      requires Valid()
      modifies Repr
      ensures Valid() && Model() == old(Model()).(current := t)
    {
      hide Pool.Pool.View;
      hide Pool.Pool.Valid;
      hide ArrayQueue.Valid;
      hide ArrayQueue.Contents;
      scheduler.current := t;
    }

    method HasReady() returns (some: bool)
      requires Valid()
      ensures some == (Model().ready != [])
    {
      hide Pool.Pool.View;
      hide Pool.Pool.Valid;
      some := scheduler.HasReady();
    }

    method PushReady(t: TcbId)
      requires Valid()
      modifies Repr
      ensures Valid() && Model() == old(Model()).(ready := PushBack(old(Model()).ready, t))
    {
      hide Pool.Pool.View;
      hide Pool.Pool.Valid;
      hide ArrayQueue.Contents;
      hide ArrayQueue.Valid;
      var _ := scheduler.ready.PushBack(t);
    }

    method PopReady() returns (t: Option<TcbId>)
      requires Valid()
      modifies Repr
      ensures Valid()
      ensures var q := old(Model()).ready;
              && t == (if q == [] then None else Some(q[0]))
              && Model() == old(Model()).(ready := if q == [] then [] else q[1..])
    {
      hide Pool.Pool.View;
      hide Pool.Pool.Valid;
      hide ArrayQueue.Contents;
      hide ArrayQueue.Valid;
      t := scheduler.ready.PopFront();
    }

    method RemoveReady(t: TcbId)
      requires Valid()
      modifies Repr
      ensures Valid() && Model() == old(Model()).(ready := RemoveFirst(old(Model()).ready, t))
    {
      hide Pool.Pool.View;
      hide Pool.Pool.Valid;
      hide ArrayQueue.Contents;
      hide ArrayQueue.Valid;
      scheduler.RemoveReady(t);
    }

    /** A page from the arena. */
    method AllocPage() returns (page: Option<Address>)
      requires Valid()
      modifies Repr
      ensures Valid()
      ensures var a := AllocTable(old(Model()).pageTables);
              if a.None? then page == None && Model() == old(Model())
              else page == Some(a.value.1) && Model() == old(Model()).(pageTables := a.value.0)
    {
      hide Pool.Pool.View;
      hide Pool.Pool.Valid;
      hide ArrayQueue.Contents;
      hide ArrayQueue.Valid;
      page := tables.Alloc();
    }

    /** The walk links the first `taken` of the spare pages, and the others go back. */
    method SettleSpares(spares: seq<Address>, taken: nat)
      requires Valid() && taken <= |spares| && |spares| * PAGE_SIZE <= Model().pageTables.next
      modifies Repr
      ensures Valid()
      ensures var t := old(Model()).pageTables;
              Model() == old(Model()).(pageTables :=
                Frames.ReleaseLast(t.(branches := t.branches + spares[..taken]), |spares| - taken))
    {
      hide Pool.Pool.View;
      hide Pool.Pool.Valid;
      hide ArrayQueue.Contents;
      hide ArrayQueue.Valid;
      tables.Link(spares[..taken]);
      tables.ReleaseLast(|spares| - taken);
    }

    // ---------------------------------------------------------------- thread writes

    method SetState(t: TcbId, s: ThreadState)
      requires Valid()
      modifies Repr
      ensures Valid() && Model() == State.SetState(old(Model()), t, s)
    {
      hide KernelState.Model;
      hide KernelState.Valid;
      var tcb := GetTcb(t);
      if tcb.Some? {
        PutTcb(t, tcb.value.(state := s));
      }
    }

    method SetContext(t: TcbId, c: Context)
      requires Valid()
      modifies Repr
      ensures Valid() && Model() == State.SetContext(old(Model()), t, c)
    {
      hide KernelState.Model;
      hide KernelState.Valid;
      var tcb := GetTcb(t);
      if tcb.Some? {
        PutTcb(t, tcb.value.(context := c));
      }
    }

    method SetReplyTo(t: TcbId, r: Option<TcbId>)
      requires Valid()
      modifies Repr
      ensures Valid() && Model() == State.SetReplyTo(old(Model()), t, r)
    {
      hide KernelState.Model;
      hide KernelState.Valid;
      var tcb := GetTcb(t);
      if tcb.Some? {
        PutTcb(t, tcb.value.(replyTo := r));
      }
    }

    // ------------------------------------------------------------- context switches

    method GetCurrent() returns (t: Option<TcbId>)
      requires Valid()
      ensures t == Model().current
    {
      t := scheduler.current;
    }

    method SaveCurrent(frame: TrapFrame)
      requires Valid() && frame.Valid() && frame.Repr !! Repr
      modifies Repr
      ensures Valid() && Model() == State.SaveCurrent(old(Model()), frame.View())
      ensures frame.View() == old(frame.View())
    {
      hide KernelState.Model;
      hide KernelState.Valid;
      var current := GetCurrent();
      if current.Some? {
        var c := frame.Save();
        SetContext(current.value, c);
      }
    }

    /** Loads `next` into the frame and makes it the running thread. */
    method Resume(frame: TrapFrame, next: TcbId)
      requires Valid() && frame.Valid() && frame.Repr !! Repr
      modifies Repr, frame.Repr
      ensures Valid()
      ensures (Model(), frame.View()) == State.Resume(old(Model()), old(frame.View()), next)
    {
      hide KernelState.Model;
      hide KernelState.Valid;
      var tcb := GetTcb(next);
      if tcb.Some? {
        frame.Restore(tcb.value.context);
        SetState(next, Running);
      }
      SetCurrent(Some(next));
    }

    /** Directed handoff to a thread that is not in the ready queue. */
    method SwitchTo(frame: TrapFrame, next: TcbId)
      requires Valid() && frame.Valid() && frame.Repr !! Repr
      modifies Repr, frame.Repr
      ensures Valid()
      ensures (Model(), frame.View()) == State.SwitchTo(old(Model()), old(frame.View()), next)
    {
      hide KernelState.Model;
      hide KernelState.Valid;
      SaveCurrent(frame);
      Resume(frame, next);
    }

    /** Switches to the next ready thread, if there is one. */
    method BlockCurrent(frame: TrapFrame) returns (switched: bool)
      requires Valid() && frame.Valid() && frame.Repr !! Repr
      modifies Repr, frame.Repr
      ensures Valid()
      ensures (Model(), frame.View(), switched) == State.BlockCurrent(old(Model()), old(frame.View()))
      ensures switched == (old(Model()).ready != [])
    {
      hide KernelState.Model;
      hide KernelState.Valid;
      var some := HasReady();
      if !some {
        return false;
      }
      assert State.SaveCurrent(Model(), frame.View()).ready == Model().ready;
      SaveCurrent(frame);
      SetCurrent(None);
      var next := PopReady();
      Resume(frame, next.value);
      switched := true;
    }

    /** A thread that is ready already is not queued again. */
    method MakeReady(t: TcbId)
      requires Valid()
      modifies Repr
      ensures Valid() && Model() == State.MakeReady(old(Model()), t)
    {
      hide KernelState.Model;
      hide KernelState.Valid;
      var tcb := GetTcb(t);
      if tcb.Some? {
        if tcb.value.state == Ready {
          return;
        }
        SetState(t, Ready);
      }
      PushReady(t);
    }

    /** The bookkeeping of `enter_first_thread`, into a fresh frame. */
    method EnterFirstThread(t: TcbId) returns (frame: TrapFrame)
      requires Valid()
      modifies Repr
      ensures Valid() && frame.Valid() && fresh(frame.Repr)
      ensures (Model(), frame.View()) == State.EnterFirstThread(old(Model()), t)
    {
      hide KernelState.Model;
      hide KernelState.Valid;
      RemoveReady(t);
      SetCurrent(Some(t));
      frame := new TrapFrame.Zeroed();
      var tcb := GetTcb(t);
      if tcb.Some? {
        SetState(t, Running);
        frame.Restore(tcb.value.context);
      }
    }

    // ----------------------------------------------------------------------- lookup

    method LookupCap(thread: TcbId, cptr: CPtr) returns (r: Result<Capability, SyscallError>)
      requires Valid()
      ensures r == State.LookupCap(Model(), thread, cptr)
    {
      hide KernelState.Model;
      hide KernelState.Valid;
      var tcb := GetTcb(thread);
      if tcb.None? || tcb.value.cspace.None? {
        return Failure(FailedLookup);
      }
      var cnode := GetCNode(tcb.value.cspace.value);
      if cnode.None? {
        return Failure(FailedLookup);
      }
      if cptr >= CNODE_SLOTS || cnode.value[cptr] == Null {
        return Failure(InvalidCapability);
      }
      r := Success(cnode.value[cptr]);
    }

    /** Writes one slot of an existing node. */
    method SetSlot(n: CNodeId, s: Word, c: Capability)
      requires Valid() && n in Model().cnodes && s < CNODE_SLOTS
      modifies Repr
      ensures Valid() && Model() == State.SetSlot(old(Model()), n, s, c)
    {
      hide KernelState.Model;
      hide KernelState.Valid;
      var cnode := GetCNode(n);
      PutCNode(n, cnode.value[s := c]);
    }
  }
}
