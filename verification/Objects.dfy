/** Register snapshots, the message ABI and the kernel objects a capability can designate
    (src/object.rs, src/abi.rs, src/error.rs), as values. */
module Objects {
  import opened Limits
  import opened Words
  import opened Wrappers
  import opened Capabilities

  /** A physical address. */
  type Address = nat

  datatype SyscallError =
    | InvalidCapability | InvalidArgument | IllegalOperation | RangeError | AlignmentError
    | FailedLookup | TruncatedMessage | NotEnoughMemory | Timeout
  {
    function Code(): Word {
      match this
      case InvalidCapability => 1
      case InvalidArgument => 2
      case IllegalOperation => 3
      case RangeError => 4
      case AlignmentError => 5
      case FailedLookup => 6
      case TruncatedMessage => 7
      case NotEnoughMemory => 8
      case Timeout => 9
    }
  }

  // ------------------------------------------------------------ syscall numbers

  const SEND: Word := 1
  const NB_SEND: Word := 2
  const RECV: Word := 3
  const CALL: Word := 4
  const REPLY: Word := 5
  const SIGNAL: Word := 6
  const WAIT: Word := 7
  const POLL: Word := 8
  const CNODE_INVOKE: Word := 9
  const UNTYPED_RETYPE: Word := 10
  const TCB_CONFIGURE: Word := 11
  const YIELD: Word := 12
  const FRAME_INVOKE: Word := 13

  // ---------------------------------------------------------------- registers

  const MR_COUNT: nat := 4
  const RAW_WORDS: nat := 32

  /** The flags byte is split into the error flag and the remaining bits. */
  datatype MessageTag = MessageTag(labelId: nat, length: nat, extraCaps: nat, error: bool, flags: nat)

  type MessageRegisters = s: seq<Word> | |s| == MR_COUNT witness [0, 0, 0, 0]
  type RawRegisters = s: seq<Word> | |s| == RAW_WORDS witness seq(RAW_WORDS, i => 0)

  /** Everything a trap frame carries; also the saved state of a thread that is not running. */
  datatype Context = Context(syscall: Word, tag: MessageTag, mrs: MessageRegisters, raw: RawRegisters) {
    function Mr(i: nat): Word
      requires i < MR_COUNT
    {
      mrs[i]
    }

    function SetMr(i: nat, w: Word): Context
      requires i < MR_COUNT
    {
      this.(mrs := mrs[i := w])
    }

    /** A delivered message: four message registers and the tag. */
    function Deliver(mr0: Word, payload: Payload, newTag: MessageTag): Context {
      this.(mrs := [mr0, payload.mr1, payload.mr2, payload.mr3], tag := newTag)
    }
  }

  datatype Payload = Payload(mr1: Word, mr2: Word, mr3: Word)

  const NO_TAG := MessageTag(0, 0, 0, false, 0)

  function ZeroContext(): Context {
    Context(0, NO_TAG, [0, 0, 0, 0], seq(RAW_WORDS, i => 0))
  }

  function ReplySuccess(f: Context): Context {
    f.(tag := f.tag.(error := false))
  }

  function ReplyError(f: Context, e: SyscallError): Context {
    f.SetMr(0, e.Code()).(tag := f.tag.(error := true))
  }

  /** `Send`, `Recv` and `Reply` carry registers and at most one capability. */
  predicate FastPathOnly(tag: MessageTag) {
    tag.length == 0 && tag.extraCaps <= 1
  }

  /** `Call` additionally understands `extraCaps == 2`. */
  predicate CallTag(tag: MessageTag) {
    tag.length == 0 && tag.extraCaps <= 2
  }

  // ------------------------------------------------------------------ objects

  datatype ThreadState =
    | Inactive
    | Ready
    | Running
    | BlockedSend(sendEndpoint: EndpointId, badge: Word, isCall: bool,
                  extraCap: Option<Capability>, replyDestSlot: Option<CPtr>)
    | BlockedRecv(recvEndpoint: EndpointId, recvDestSlot: Option<CPtr>)
    | BlockedReply(destSlot: Option<CPtr>)
    | BlockedWait(notification: NotificationId)

  datatype Tcb = Tcb(
    state: ThreadState,
    cspace: Option<CNodeId>,
    schedContext: Option<SchedContextId>,
    context: Context,
    replyTo: Option<TcbId>,
    addressSpace: Option<Address>)

  /** A thread that has not been configured yet. */
  function NewTcb(): Tcb {
    Tcb(Inactive, None, None, ZeroContext(), None, None)
  }

  datatype EndpointQueue =
    | Empty
    | SendQueue(senders: seq<TcbId>)
    | RecvQueue(receivers: seq<TcbId>)

  datatype Endpoint = Endpoint(queue: EndpointQueue)

  datatype Notification = Notification(signals: Word, waiters: seq<TcbId>)

  datatype SchedulingContext = SchedulingContext(budget: Word, period: Word)

  datatype VSpace = VSpace(root: Address)

  datatype FrameSize = Small | Mega {
    function Bytes(): nat {
      match this
      case Small => PAGE_SIZE
      case Mega => MEGAPAGE_SIZE
    }
  }

  type Mappings = s: seq<Option<(VSpaceId, Word)>> | |s| == MAX_FRAME_MAPPINGS witness [None, None]

  datatype Frame = Frame(paddr: Address, size: FrameSize, mappedAt: Mappings)

  /** The physical bump range `[next, end)` of an Untyped. */
  datatype Range = Range(next: Address, end: Address)

  datatype Untyped = Untyped(remaining: nat, memory: Option<Range>)

  /** What a bump allocation does: the new Untyped and the address, an exhausted range, or an
      address computation that overflows a word. */
  datatype Bump = Bumped(untyped: Untyped, paddr: Address) | Exhausted | Overflow

  function BumpUntyped(u: Untyped, size: nat, align: nat): Bump
    requires align > 0
  {
    if u.memory.None? then Exhausted
    else
      var Range(next, end) := u.memory.value;
      if next + align >= WORD_LIMIT then Overflow
      else
        var aligned := AlignUp(next, align);
        if aligned + size >= WORD_LIMIT || aligned + size > end then Exhausted
        else Bumped(u.(memory := Some(Range(aligned + size, end))), aligned)
  }

  /** The kernel's page-table arena, `MAX_KERNEL_PAGE_TABLES` pages from `base`. `next` is the
      bump offset. `branches` stands for the contents of the arena: the pages the page-table
      walk has linked in as branch tables. */
  datatype PageTables = PageTables(base: Address, next: nat, branches: seq<Address>)

  function AllocTable(t: PageTables): Option<(PageTables, Address)> {
    if t.next + PAGE_SIZE > MAX_KERNEL_PAGE_TABLES * PAGE_SIZE then None
    else Some((t.(next := t.next + PAGE_SIZE), t.base + t.next))
  }
}
