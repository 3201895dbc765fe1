/** What the running thread's capability pointers designate, read off the slots of its CSpace. */
module Designation {
  import opened Limits
  import opened Wrappers
  import opened Capabilities
  import opened Objects
  import opened State

  /** The thread has a CSpace, and its root node is allocated. */
  predicate HasCSpace(k: Kernel, t: TcbId) {
    t in k.tcbs && k.tcbs[t].cspace.Some? && k.tcbs[t].cspace.value in k.cnodes
  }

  /** The content of slot `p` of the thread's CSpace; there is nothing in a slot that does not exist. */
  function Designated(k: Kernel, t: TcbId, p: CPtr): Capability {
    if HasCSpace(k, t) && p < CNODE_SLOTS then k.cnodes[k.tcbs[t].cspace.value][p] else Null
  }

  /** A lookup yields what the CPtr designates, and fails exactly if that is nothing. */
  lemma LookupFindsDesignated(k: Kernel, t: TcbId, p: CPtr)
    ensures LookupCap(k, t, p)
         == if !HasCSpace(k, t) then Failure(FailedLookup)
            else if Designated(k, t, p) == Null then Failure(InvalidCapability)
            else Success(Designated(k, t, p))
  {
  }
}
