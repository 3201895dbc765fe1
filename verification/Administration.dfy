/** What the administrative calls achieve when they succeed. */
module Administration {
  import opened Limits
  import opened Words
  import opened Wrappers
  import opened Capabilities
  import opened Objects
  import opened State
  import opened Invariants
  import opened SlotEffects
  import CNodes
  import Admin
  import Pool

  // --------------------------------------------------------------- capability slots

  /** The badge a capability shows to a receiver, if its kind has one. */
  function BadgeOf(c: Capability): Option<Word> {
    match c
    case EndpointCap(_, badge, _) => Some(badge)
    case NotificationCap(_, badge, _) => Some(badge)
    case _ => None
  }

  /** A minted capability designates the source's object with exactly the requested rights, all of
      which the source has, and with the requested badge if its kind has one. */
  lemma MintIsExact(k: Kernel, n: CNodeId, src: Word, dest: Word, packed: Word)
    ensures var r := CNodes.Mint(k, n, src, dest, packed);
            r.Success? ==>
              && InSlot(k, n, src, k.cnodes[n][src]) && dest < CNODE_SLOTS && k.cnodes[n][dest] == Null
              && var source, minted := k.cnodes[n][src], r.value.cnodes[n][dest];
                 && r.value == SetSlot(k, n, dest, minted)
                 && Names(minted) == Names(source)
                 && minted.Rights() == RightsOfWord(packed) <= source.Rights()
                 && (BadgeOf(minted).Some? ==> BadgeOf(minted) == Some(packed / 256))
                 && (BadgeOf(minted).Some? <==> BadgeOf(source).Some?)
  {
    hide RightsOfWord;
  }

  lemma MoveResult(k: Kernel, n: CNodeId, src: Word, dest: Word)
    ensures var r := CNodes.MoveCap(k, n, src, dest);
            && (r.Success? <==>
                  && n in k.cnodes && src < CNODE_SLOTS && dest < CNODE_SLOTS
                  && k.cnodes[n][src] != Null && k.cnodes[n][dest] == Null)
            && (r.Success? ==>
                  r.value == k.(cnodes := k.cnodes[n := k.cnodes[n][dest := k.cnodes[n][src]][src := Null]]))
  {
    var r := CNodes.MoveCap(k, n, src, dest);
    if r.Success? {
      var m := SetSlot(k, n, dest, k.cnodes[n][src]);
      assert r.value == SetSlot(m, n, src, Null);
      assert m.cnodes[n := m.cnodes[n][src := Null]]
          == k.cnodes[n := k.cnodes[n][dest := k.cnodes[n][src]][src := Null]];
    }
  }

  lemma SwapSlots(s: CNode, i: nat, j: nat)
    requires i < CNODE_SLOTS && j < CNODE_SLOTS && s[i] != Null && s[j] == Null
    ensures multiset(s[j := s[i]][i := Null]) == multiset(s)
  {
    var t := s[j := s[i]];
    assert multiset(t) == multiset(s) - multiset{s[j]} + multiset{s[i]};
    assert multiset(t[i := Null]) == multiset(t) - multiset{t[i]} + multiset{Null};
  }

  /** A move neither copies nor destroys: the node holds the same capabilities as before. */
  lemma MoveConserves(k: Kernel, n: CNodeId, src: Word, dest: Word)
    ensures var r := CNodes.MoveCap(k, n, src, dest);
            r.Success? ==>
              && n in k.cnodes && n in r.value.cnodes
              && multiset(r.value.cnodes[n]) == multiset(k.cnodes[n])
              && forall m | m in k.cnodes && m != n :: m in r.value.cnodes && r.value.cnodes[m] == k.cnodes[m]
  {
    MoveResult(k, n, src, dest);
    hide CNodes.MoveCap;
    if CNodes.MoveCap(k, n, src, dest).Success? {
      SwapSlots(k.cnodes[n], src, dest);
    }
  }

  /** Moving a capability there and back changes nothing. */
  lemma MoveBackRestores(k: Kernel, n: CNodeId, src: Word, dest: Word)
    ensures var r := CNodes.MoveCap(k, n, src, dest);
            r.Success? ==> CNodes.MoveCap(r.value, n, dest, src) == Success(k)
  {
    MoveResult(k, n, src, dest);
    var r := CNodes.MoveCap(k, n, src, dest);
    if r.Success? {
      MoveResult(r.value, n, dest, src);
      hide CNodes.MoveCap;
      var s, t := k.cnodes[n], r.value.cnodes[n];
      assert t[src := t[dest]][dest := Null] == s;
      assert r.value.cnodes[n := s] == k.cnodes;
    }
  }

  /** Deleting a copy changes nothing either; the original stays. */
  lemma DeleteUndoesCopy(k: Kernel, n: CNodeId, src: Word, dest: Word)
    ensures var r := CNodes.Copy(k, n, src, dest);
            r.Success? ==> CNodes.Delete(r.value, n, dest) == Success(k)
  {
    var r := CNodes.Copy(k, n, src, dest);
    if r.Success? {
      var s := k.cnodes[n];
      assert r.value.cnodes[n] == s[dest := s[src]];
      assert s[dest := s[src]][dest := Null] == s;
      assert r.value.cnodes[n := s] == k.cnodes;
    }
  }

  // ------------------------------------------------------------------------ retype

  predicate OfType(c: Capability, t: ObjectType) {
    match t
    case CNodeType => c.CNodeCap?
    case UntypedType => c.UntypedCap?
    case EndpointType => c.EndpointCap? && c.badge == 0
    case NotificationType => c.NotificationCap? && c.badge == 0
    case TcbType => c.TcbCap?
    case SchedContextType => c.SchedContextCap?
    case VSpaceType => c.VSpaceCap?
    case FrameSmallType | FrameMegaType => c.FrameCap?
  }

  /** A new object comes with a capability of its type and with all rights. */
  lemma NewObjectIsWhole(k: Kernel, u: UntypedId, t: ObjectType)
    requires u in k.untypeds
    ensures var c := Admin.NewObject(k, u, t);
            c.Made? ==> OfType(c.cap, t) && (c.cap.CNodeCap? || c.cap.Rights() == ALL_RIGHTS)
  {
    hide BumpUntyped;
    hide Pool.AllocIndex;
    hide AllocTable;
  }

  /** A successful retype puts a full capability to a new object of the requested type in the
      empty slot the caller named, and takes one from the budget of the Untyped it named. */
  lemma RetypeEndows(k: Kernel, cur: TcbId, cptr: CPtr, f: Context, r: Admin.Retyping)
    requires Admin.DecodeRetype(k, cur, cptr, f) == Success(r)
    requires Admin.UntypedRetype(k, cur, cptr, f).status.Ok?
    ensures var k' := Admin.UntypedRetype(k, cur, cptr, f).k;
            && CSpaceIs(k, cur, r.cnode) && r.dest == f.Mr(2) && k.cnodes[r.cnode][r.dest] == Null
            && ObjectTypeFromWord(f.Mr(1)) == Some(r.objectType)
            && r.cnode in k'.cnodes
            && var cap := k'.cnodes[r.cnode][r.dest];
               && OfType(cap, r.objectType) && (cap.CNodeCap? || cap.Rights() == ALL_RIGHTS)
               && NamesNew(k, k', cap)
               && r.untyped in k.untypeds && r.untyped in k'.untypeds
               && k'.untypeds[r.untyped].remaining + 1 == k.untypeds[r.untyped].remaining
  {
    hide LookupCap;
    NewObjectIsWhole(k, r.untyped, r.objectType);
    NewObjectIsNamed(k, r.untyped, r.objectType);
    var c := Admin.NewObject(k, r.untyped, r.objectType);
    hide Admin.NewObject;
    SpendKeepsNames(k, c.k, r, c.cap);
    hide Allocated;
  }

  // --------------------------------------------------------------------- configure

  /** The thread after its configuration: with the roots that the caller's capabilities name, ready
      if it was inactive, otherwise in the state it was in. */
  predicate IsConfigured(before: Tcb, after: Tcb, c: Admin.Configuration) {
    && after.cspace == Some(c.cspace) && after.schedContext == Some(c.sched)
    && after.addressSpace == c.addressSpace
    && after.context == before.context && after.replyTo == before.replyTo
    && after.state == (if before.state == Inactive then Ready else before.state)
  }

  /** Configuration touches one thread; the first one admits it at the back of the ready queue. */
  lemma ConfigureSetsRoots(k: Kernel, c: Admin.Configuration)
    requires Placed(k) && PoolsBounded(k) && c.target in k.tcbs
    ensures var k' := Admin.ApplyConfiguration(k, c);
            && c.target in k'.tcbs && IsConfigured(k.tcbs[c.target], k'.tcbs[c.target], c)
            && k' == k.(tcbs := k.tcbs[c.target := k'.tcbs[c.target]], ready := k'.ready)
            && k'.ready == if k.tcbs[c.target].state == Inactive then k.ready + [c.target] else k.ready
  {
    if k.tcbs[c.target].state == Inactive {
      QueueHasRoom(k, ReadyQueue, c.target);
    }
    hide Placed;
    hide PoolsBounded;
  }
}
