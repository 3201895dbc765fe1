/** Capability slots are written once: no call replaces one capability by another. */
module Slots {
  import opened Limits
  import opened Words
  import opened Capabilities
  import opened Objects
  import opened State
  import opened Invariants
  import opened Syscalls
  import opened IpcEffects
  import opened SlotEffects
  import opened Upkeep
  import CNodes

  predicate IsSlot(k: Kernel, n: CNodeId, s: Word) {
    n in k.cnodes && s < CNODE_SLOTS
  }

  /** The trap names slot `s` of node `n` as the one to delete or to move away, through a capability
      to the node that the running thread holds. */
  predicate AsksToClear(k: Kernel, tr: Trap, n: CNodeId, s: Word) {
    && k.current.Some? && tr.frame.syscall == CNODE_INVOKE
    && (tr.frame.tag.labelId == CNodes.LABEL_DELETE || tr.frame.tag.labelId == CNodes.LABEL_MOVE)
    && Controls(k, k.current.value, tr.frame.Mr(0), n) && tr.frame.Mr(1) == s
  }

  /** The running thread may put a capability in the slot: it is a slot of its own CSpace that it
      names, a slot of a node it holds a capability to, or the slot that its partner, the head of
      the queue it invokes or the caller it answers, registered in the partner's own CSpace. */
  ghost predicate MayFill(k: Kernel, tr: Trap, n: CNodeId, s: Word) {
    && k.current.Some?
    && var cur, f := k.current.value, tr.frame;
       if f.syscall == RECV then CSpaceIs(k, cur, n) && f.tag.extraCaps == 1 && f.Mr(1) == s
       else if f.syscall == UNTYPED_RETYPE then CSpaceIs(k, cur, n) && f.Mr(2) == s
       else if f.syscall == CNODE_INVOKE then Controls(k, cur, f.Mr(0), n)
       else exists to :: Partner(k, cur, f, to) && CSpaceIs(k, to, n) && Registered(k, to, s)
  }

  /** Between two kernels a slot stays as it is, or is filled, or is cleared. */
  ghost predicate SlotLaw(k: Kernel, tr: Trap, k': Kernel, n: CNodeId, s: Word)
    requires IsSlot(k, n, s)
  {
    && IsSlot(k', n, s)
    && var before, after := k.cnodes[n][s], k'.cnodes[n][s];
       && (before == Null && after != Null ==> MayFill(k, tr, n, s))
       && (before != Null && after != before ==> after == Null && AsksToClear(k, tr, n, s))
  }

  lemma EndowedKeepsLaw(w: SlotWrite, k: Kernel, tr: Trap, k': Kernel, n: CNodeId, s: Word)
    requires k.current.Some? && tr.frame.syscall == UNTYPED_RETYPE && IsSlot(k, n, s)
    requires Endows(k.current.value, tr.frame, w, k, k')
    ensures SlotLaw(k, tr, k', n, s)
  {
    var m := k'.cnodes[w.node := k.cnodes[w.node]];
    assert n in k.cnodes.Keys && n in m;
  }

  lemma WriteKeepsLaw(x: SlotEffect, k: Kernel, tr: Trap, k': Kernel, n: CNodeId, s: Word)
    requires k.current.Some? && IsSlot(k, n, s)
    requires Writes(x, k.current.value, tr.frame, k, k') && WrittenBy(tr.frame.syscall, x)
    ensures SlotLaw(k, tr, k', n, s)
  {
    match x
    case Granted(to, w) =>
      hide Partner;
      assert Partner(k, k.current.value, tr.frame, to) && CSpaceIs(k, to, w.node) && Registered(k, to, w.slot);
    case Endowed(w) => EndowedKeepsLaw(w, k, tr, k', n, s);
    case _ =>
  }

  /** One trap: a live capability is never replaced, only cleared on request; an empty slot is
      filled only where the running thread may. */
  lemma StepKeepsLaw(k: Kernel, tr: Trap, n: CNodeId, s: Word)
    requires k.current.Some? && IsSlot(k, n, s)
    ensures SlotLaw(k, tr, Step(k, tr), n, s)
  {
    hide Handle;
    HandlerSlots(k, k.current.value, tr);
    var k' := Handle(k, k.current.value, tr).k;
    var x :| Writes(x, k.current.value, tr.frame, k, k') && WrittenBy(tr.frame.syscall, x);
    WriteKeepsLaw(x, k, tr, k', n, s);
  }

  /** Nobody asks to clear the slot at any trap of the run. */
  ghost predicate NeverAsked(k: Kernel, trs: seq<Trap>, n: CNodeId, s: Word)
    decreases |trs|
  {
    trs != [] ==> !AsksToClear(k, trs[0], n, s) && NeverAsked(Step(k, trs[0]), trs[1..], n, s)
  }

  /** A capability stays in its slot through any run in which nobody deletes it or moves it away
      through a capability to its node. */
  lemma {:induction false} RunKeepsCapability(k: Kernel, trs: seq<Trap>, n: CNodeId, s: Word, c: Capability)
    requires Inv(k) && InSlot(k, n, s, c) && NeverAsked(k, trs, n, s)
    ensures InSlot(Run(k, trs), n, s, c)
    decreases |trs|
  {
    hide Dispatch;
    if trs != [] {
      StepKeepsInv(k, trs[0]);
      StepKeepsLaw(k, trs[0], n, s);
      RunKeepsCapability(Step(k, trs[0]), trs[1..], n, s, c);
    }
  }
}
