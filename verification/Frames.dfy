/** `FrameInvoke` as step functions (src/frame.rs). The Sv39 page-table walk itself belongs to
    the HAL; a `Walk` says how it came out. */
module Frames {
  import opened Limits
  import opened Words
  import opened Wrappers
  import opened Capabilities
  import opened Objects
  import opened State
  import opened Admin

  const LABEL_MAP: nat := 1
  const LABEL_UNMAP: nat := 2

  /** The outcome of the HAL's walk: whether the address is translated already, and how many
      of the offered pages become branch tables. */
  datatype Walk = Walk(translated: bool, tables: nat)

  function MaxNewTables(size: FrameSize): nat {
    match size
    case Small => 2
    case Mega => 1
  }

  /** How many of `max` offered pages the walk takes. */
  function TablesTaken(w: Walk, max: nat): nat {
    if w.tables < max then w.tables else max
  }

  function FreeMapping(m: Mappings): Option<nat> {
    if m[0].None? then Some(0) else if m[1].None? then Some(1) else None
  }

  /** The first mapping into `v`. */
  function FindMapping(m: Mappings, v: VSpaceId): Option<nat> {
    if m[0].Some? && m[0].value.0 == v then Some(0)
    else if m[1].Some? && m[1].value.0 == v then Some(1)
    else None
  }

  /** Takes `count` pages one after the other; the arena keeps the pages taken before a failure. */
  function AllocSpares(t: PageTables, count: nat): (PageTables, Option<seq<Address>>)
    decreases count
  {
    if count == 0 then (t, Some([]))
    else
      var page := AllocTable(t);
      if page.None? then (t, None)
      else
        var (t', rest) := AllocSpares(page.value.0, count - 1);
        (t', if rest.None? then None else Some([page.value.1] + rest.value))
  }

  function ReleaseLast(t: PageTables, count: nat): PageTables {
    t.(next := if t.next >= count * PAGE_SIZE then t.next - count * PAGE_SIZE else 0)
  }

  /** Nothing but mappings of existing frames and the page-table arena differs. */
  predicate OnlyMappings(k: Kernel, k': Kernel) {
    k' == k.(frames := k'.frames, pageTables := k'.pageTables) && k'.frames.Keys == k.frames.Keys
  }

  function SetMapping(k: Kernel, id: FrameId, slot: nat, m: Option<(VSpaceId, Word)>): (k': Kernel)
    requires id in k.frames && slot < MAX_FRAME_MAPPINGS
    ensures OnlyMappings(k, k')
  {
    k.(frames := k.frames[id := k.frames[id].(mappedAt := k.frames[id].mappedAt[slot := m])])
  }

  function ResolveFrame(k: Kernel, cur: TcbId, cptr: CPtr): Result<FrameId, SyscallError> {
    var cap :- LookupCap(k, cur, cptr);
    match cap
    case FrameCap(id, rights) => if Write in rights then Success(id) else Failure(IllegalOperation)
    case _ => Failure(InvalidCapability)
  }

  datatype Mapping = Mapping(vspace: VSpaceId, slot: nat)

  function DecodeMap(k: Kernel, cur: TcbId, id: FrameId, f: Context, w: Walk): (r: Result<Mapping, SyscallError>)
    ensures r.Success? ==> id in k.frames && r.value.slot < MAX_FRAME_MAPPINGS
  {
    var v :- ResolveVSpace(k, cur, f.Mr(1));
    if id !in k.frames then Failure(InvalidCapability)
    else
      var slot := FreeMapping(k.frames[id].mappedAt);
      if slot.None? then Failure(IllegalOperation)
      else if f.Mr(2) % k.frames[id].size.Bytes() != 0 then Failure(AlignmentError)
      else if v !in k.vspaces then Failure(InvalidCapability)
      else if w.translated then Failure(IllegalOperation)
      else Success(Mapping(v, slot.value))
  }

  function Map(k: Kernel, cur: TcbId, id: FrameId, f: Context, w: Walk): (o: Outcome)
    ensures OnlyMappings(k, o.k)
  {
    match DecodeMap(k, cur, id, f, w)
    case Failure(e) => Outcome(k, f, Err(e))
    case Success(m) =>
      var max := MaxNewTables(k.frames[id].size);
      var (t, spares) := AllocSpares(k.pageTables, max);
      if spares.None? then Outcome(k.(pageTables := t), f, Err(NotEnoughMemory))
      else
        var taken := TablesTaken(w, max);
        var linked := if taken <= |spares.value| then spares.value[..taken] else [];
        var t1 := ReleaseLast(t.(branches := t.branches + linked), max - taken);
        Outcome(SetMapping(k.(pageTables := t1), id, m.slot, Some((m.vspace, f.Mr(2)))), ReplySuccess(f), Ok)
  }

  function Unmap(k: Kernel, cur: TcbId, id: FrameId, f: Context): (o: Outcome)
    ensures OnlyMappings(k, o.k)
  {
    match ResolveVSpace(k, cur, f.Mr(1))
    case Failure(e) => Outcome(k, f, Err(e))
    case Success(v) =>
      if id !in k.frames then Outcome(k, f, Err(InvalidCapability))
      else
        var slot := FindMapping(k.frames[id].mappedAt, v);
        if slot.None? then Outcome(k, ReplySuccess(f), Ok)
        else if v !in k.vspaces then Outcome(k, f, Err(InvalidCapability))
        else Outcome(SetMapping(k, id, slot.value, None), ReplySuccess(f), Ok)
  }

  function Invoke(k: Kernel, cur: TcbId, cptr: CPtr, f: Context, w: Walk): (o: Outcome)
    ensures OnlyMappings(k, o.k)
  {
    match ResolveFrame(k, cur, cptr)
    case Failure(e) => Outcome(k, f, Err(e))
    case Success(id) =>
      if f.tag.labelId == LABEL_MAP then Map(k, cur, id, f, w)
      else if f.tag.labelId == LABEL_UNMAP then Unmap(k, cur, id, f)
      else Outcome(k, f, Err(InvalidArgument))
  }
}
