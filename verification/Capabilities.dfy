/** The capability and rights model (src/cap.rs). */
module Capabilities {
  import opened Limits
  import opened Words
  import opened Wrappers

  /** An index into the invoking thread's CSpace. */
  type CPtr = Word

  // Stable pool indices.
  type CNodeId = nat
  type TcbId = nat
  type EndpointId = nat
  type NotificationId = nat
  type UntypedId = nat
  type SchedContextId = nat
  type VSpaceId = nat
  type FrameId = nat

  datatype Right = Read | Write | Grant

  /** A rights value never has a bit outside ALL, so it is the set of the rights it grants.
      `RightsAreSets` relates the sets to the bit operations of the source. */
  type Rights = set<Right>

  const NO_RIGHTS: Rights := {}
  const ALL_RIGHTS: Rights := {Read, Write, Grant}

  /** The set that the bits of a rights byte denote. */
  function RightsOfByte(bits: bv8): Rights {
    (if bits & 1 != 0 then {Read} else {})
    + (if bits & 2 != 0 then {Write} else {})
    + (if bits & 4 != 0 then {Grant} else {})
  }

  /** Decoding with `from_bits_truncate`, union, containment and the subset test on bytes
      agree with the set operations. */
  lemma RightsAreSets(a: bv8, b: bv8)
    ensures RightsOfByte(a & 7) == RightsOfByte(a)
    ensures RightsOfByte(a | b) == RightsOfByte(a) + RightsOfByte(b)
    ensures b & 7 == b ==> (a & b == b <==> RightsOfByte(b) <= RightsOfByte(a))
    ensures a & 7 == a ==> (a & !b == 0 <==> RightsOfByte(a) <= RightsOfByte(b))
  {
    RightBitByBit(a, b);
    forall r: Right
      ensures r in RightsOfByte(a & 7) <==> r in RightsOfByte(a)
      ensures r in RightsOfByte(a | b) <==> r in RightsOfByte(a) || r in RightsOfByte(b)
    {
      match r case Read => case Write => case Grant =>
    }
    SubsetRightByRight(RightsOfByte(a), RightsOfByte(b));
    SubsetRightByRight(RightsOfByte(b), RightsOfByte(a));
  }

  lemma RightBitByBit(a: bv8, b: bv8)
    ensures (a & 7) & 1 == a & 1 && (a & 7) & 2 == a & 2 && (a & 7) & 4 == a & 4
    ensures (a | b) & 1 != 0 <==> a & 1 != 0 || b & 1 != 0
    ensures (a | b) & 2 != 0 <==> a & 2 != 0 || b & 2 != 0
    ensures (a | b) & 4 != 0 <==> a & 4 != 0 || b & 4 != 0
    ensures b & 7 == b ==> (a & b == b <==>
        (b & 1 != 0 ==> a & 1 != 0) && (b & 2 != 0 ==> a & 2 != 0) && (b & 4 != 0 ==> a & 4 != 0))
    ensures a & 7 == a ==> (a & !b == 0 <==>
        (a & 1 != 0 ==> b & 1 != 0) && (a & 2 != 0 ==> b & 2 != 0) && (a & 4 != 0 ==> b & 4 != 0))
  {
  }

  lemma SubsetRightByRight(x: Rights, y: Rights)
    ensures x <= y <==> (Read in x ==> Read in y) && (Write in x ==> Write in y) && (Grant in x ==> Grant in y)
  {
    if (Read in x ==> Read in y) && (Write in x ==> Write in y) && (Grant in x ==> Grant in y) {
      forall r | r in x ensures r in y {
        match r case Read => case Write => case Grant =>
      }
    }
  }

  /** The rights in the low byte of a packed `Mint` argument, one bit each. */
  function RightsOfWord(packed: Word): Rights {
    (if packed % 2 == 1 then {Read} else {})
    + (if packed / 2 % 2 == 1 then {Write} else {})
    + (if packed / 4 % 2 == 1 then {Grant} else {})
  }

  lemma ReadBit(b: bv8)
    ensures b & 1 != 0 <==> b as int % 2 == 1
  {
  }

  lemma WriteBit(b: bv8)
    ensures b & 2 != 0 <==> b as int / 2 % 2 == 1
  {
  }

  lemma GrantBit(b: bv8)
    ensures b & 4 != 0 <==> b as int / 4 % 2 == 1
  {
  }

  lemma Halve(a: nat, r: nat)
    ensures (2 * a + r) % 2 == r % 2 && (2 * a + r) / 2 == a + r / 2
  {
  }

  lemma QuarterIsHalfOfHalf(x: nat)
    ensures x / 4 == x / 2 / 2
  {
  }

  lemma LowByteRights(packed: Word)
    ensures RightsOfWord(packed % 256) == RightsOfWord(packed)
  {
    var q, r := packed / 256, packed % 256;
    assert packed == 2 * (128 * q) + r;
    Halve(128 * q, r);
    Halve(64 * q, r / 2);
    Halve(32 * q, r / 2 / 2);
    QuarterIsHalfOfHalf(packed);
    QuarterIsHalfOfHalf(r);
  }

  /** The rights of a packed word are those of its low byte. */
  lemma PackedRights(packed: Word, b: bv8)
    requires packed % 256 == b as int
    ensures RightsOfWord(packed) == RightsOfByte(b)
  {
    LowByteRights(packed);
    ReadBit(b);
    WriteBit(b);
    GrantBit(b);
  }

  datatype ObjectType =
    | CNodeType | UntypedType | EndpointType | NotificationType | TcbType
    | SchedContextType | VSpaceType | FrameSmallType | FrameMegaType

  datatype Capability =
    | Null
    | CNodeCap(cnode: CNodeId)
    | UntypedCap(untyped: UntypedId, untypedRights: Rights)
    | EndpointCap(endpoint: EndpointId, badge: Word, endpointRights: Rights)
    | NotificationCap(notification: NotificationId, badge: Word, notificationRights: Rights)
    | TcbCap(tcb: TcbId, tcbRights: Rights)
    | SchedContextCap(sched: SchedContextId, schedRights: Rights)
    | ReplyCap(caller: TcbId)
    | VSpaceCap(vspace: VSpaceId, vspaceRights: Rights)
    | FrameCap(frame: FrameId, frameRights: Rights)
  {
    function Rights(): Rights {
      match this
      case Null | CNodeCap(_) | ReplyCap(_) => NO_RIGHTS
      case UntypedCap(_, r) => r
      case EndpointCap(_, _, r) => r
      case NotificationCap(_, _, r) => r
      case TcbCap(_, r) => r
      case SchedContextCap(_, r) => r
      case VSpaceCap(_, r) => r
      case FrameCap(_, r) => r
    }
  }

  /** A capability node is a flat table of slots. */
  type CNode = s: seq<Capability> | |s| == CNODE_SLOTS witness seq(CNODE_SLOTS, i => Null)

  function EmptyCNode(): CNode {
    seq(CNODE_SLOTS, i => Null)
  }

  function ObjectTypeFromWord(n: Word): Option<ObjectType> {
    match n
    case 0 => Some(CNodeType)
    case 1 => Some(UntypedType)
    case 2 => Some(EndpointType)
    case 3 => Some(NotificationType)
    case 4 => Some(TcbType)
    case 5 => Some(SchedContextType)
    case 6 => Some(VSpaceType)
    case 7 => Some(FrameSmallType)
    case 8 => Some(FrameMegaType)
    case _ => None
  }
}
