/** The retype budget is conserved: what the Untypeds can still make and what has been made add up
    to the same number in every run. */
module Budget {
  import opened Limits
  import opened Capabilities
  import opened Objects
  import opened State
  import opened Invariants
  import opened Syscalls
  import opened Upkeep
  import Admin
  import CNodes
  import Frames

  function RemainingAt(m: map<UntypedId, Untyped>, u: UntypedId): nat {
    if u in m then m[u].remaining else 0
  }

  /** The budgets of the Untypeds below `n` together. */
  function RemainingBelow(m: map<UntypedId, Untyped>, n: nat): nat {
    if n == 0 then 0 else RemainingBelow(m, n - 1) + RemainingAt(m, n - 1)
  }

  function Remaining(k: Kernel): nat {
    RemainingBelow(k.untypeds, MAX_UNTYPEDS)
  }

  lemma {:induction false} RemainingFrame(m: map<UntypedId, Untyped>, m': map<UntypedId, Untyped>, n: nat)
    requires forall u: UntypedId :: u < n ==> RemainingAt(m, u) == RemainingAt(m', u)
    ensures RemainingBelow(m, n) == RemainingBelow(m', n)
  {
    if n > 0 {
      RemainingFrame(m, m', n - 1);
      assert RemainingAt(m, n - 1) == RemainingAt(m', n - 1);
    }
  }

  lemma {:induction false} RemainingUpdate(m: map<UntypedId, Untyped>, u: UntypedId, v: Untyped, n: nat)
    requires u < n
    ensures RemainingBelow(m[u := v], n) + RemainingAt(m, u) == RemainingBelow(m, n) + v.remaining
  {
    if u == n - 1 {
      RemainingFrame(m, m[u := v], n - 1);
    } else {
      RemainingUpdate(m, u, v, n - 1);
    }
  }

  /** Everything that has been or can still be made. */
  function Worth(k: Kernel): nat {
    Remaining(k) + LiveObjects(k)
  }

  lemma IpcKeepsWorth(k: Kernel, k': Kernel)
    requires SameObjects(k, k')
    ensures Worth(k') == Worth(k)
  {
    SameKeysSameSize(k.cnodes, k'.cnodes);
    SameKeysSameSize(k.tcbs, k'.tcbs);
    SameKeysSameSize(k.endpoints, k'.endpoints);
    SameKeysSameSize(k.notifications, k'.notifications);
  }

  lemma RetypeKeepsWorth(k: Kernel, cur: TcbId, f: Context)
    requires Tidy(k)
    ensures Worth(Admin.UntypedRetype(k, cur, f.Mr(0), f).k) == Worth(k)
  {
    hide LookupCap;
    hide Tidy;
    var d := Admin.DecodeRetype(k, cur, f.Mr(0), f);
    if d.Success? {
      var r := d.value;
      NewObjectTidy(k, r.untyped, r.objectType);
      var c := Admin.NewObject(k, r.untyped, r.objectType);
      hide Admin.NewObject;
      SameBudgetsSameRemaining(k, c.k);
      if c.Made? {
        SpendTakesOne(c.k, r, c.cap, k);
      }
    }
  }

  lemma SameBudgetsSameRemaining(k: Kernel, k': Kernel)
    requires SameBudgets(k, k')
    ensures Remaining(k') == Remaining(k)
  {
    RemainingFrame(k.untypeds, k'.untypeds, MAX_UNTYPEDS);
  }

  lemma SpendTakesOne(k1: Kernel, r: Admin.Retyping, cap: Capability, k: Kernel)
    requires Tidy(k1) && r.cnode in k1.cnodes && r.dest < CNODE_SLOTS
    requires r.untyped in k1.untypeds && k1.untypeds[r.untyped].remaining > 0
    ensures var k' := Admin.SpendBudget(SetSlot(k1, r.cnode, r.dest, cap), r.untyped);
            LiveObjects(k') == LiveObjects(k1) && Remaining(k') + 1 == Remaining(k1)
  {
    var k' := Admin.SpendBudget(SetSlot(k1, r.cnode, r.dest, cap), r.untyped);
    SameKeysSameSize(k1.cnodes, k'.cnodes);
    RemainingUpdate(k1.untypeds, r.untyped, k'.untypeds[r.untyped], MAX_UNTYPEDS);
  }

  lemma CNodeInvokeKeepsWorth(k: Kernel, cur: TcbId, f: Context)
    ensures Worth(CNodes.Invoke(k, cur, f.Mr(0), f).k) == Worth(k)
  {
    hide LookupCap;
    hide CNodes.Operate;
    hide RemainingBelow;
    var k' := CNodes.Invoke(k, cur, f.Mr(0), f).k;
    assert k' == k.(cnodes := k'.cnodes);
    SameKeysSameSize(k.cnodes, k'.cnodes);
  }

  lemma ConfigureKeepsWorth(k: Kernel, cur: TcbId, f: Context)
    ensures Worth(Admin.Configure(k, cur, f.Mr(0), f).k) == Worth(k)
  {
    hide Admin.DecodeConfigure;
    hide RemainingBelow;
    var d := Admin.DecodeConfigure(k, cur, f.Mr(0), f);
    if d.Success? && d.value.target in k.tcbs {
      SameKeysSameSize(k.tcbs, Admin.ApplyConfiguration(k, d.value).tcbs);
    }
    TargetIsThere(k, cur, f);
    hide Admin.ApplyConfiguration;
  }

  lemma TargetIsThere(k: Kernel, cur: TcbId, f: Context)
    ensures var d := Admin.DecodeConfigure(k, cur, f.Mr(0), f); d.Success? ==> d.value.target in k.tcbs
  {
  }

  lemma FrameInvokeKeepsWorth(k: Kernel, cur: TcbId, f: Context, w: Frames.Walk)
    ensures Worth(Frames.Invoke(k, cur, f.Mr(0), f, w).k) == Worth(k)
  {
    hide RemainingBelow;
    var k' := Frames.Invoke(k, cur, f.Mr(0), f, w).k;
    hide Frames.Invoke;
    SameKeysSameSize(k.frames, k'.frames);
  }

  lemma HandlerKeepsWorth(k: Kernel, cur: TcbId, tr: Trap)
    requires Tidy(k)
    ensures Worth(Handle(k, cur, tr).k) == Worth(k)
  {
    hide Tidy;
    hide Worth;
    if IsIpc(tr.frame.syscall) {
      IpcHandlerKeepsWorth(k, cur, tr);
    } else {
      hide Admin.UntypedRetype;
      hide CNodes.Invoke;
      hide Admin.Configure;
      hide Frames.Invoke;
      RetypeKeepsWorth(k, cur, tr.frame);
      CNodeInvokeKeepsWorth(k, cur, tr.frame);
      ConfigureKeepsWorth(k, cur, tr.frame);
      FrameInvokeKeepsWorth(k, cur, tr.frame, tr.walk);
    }
  }

  lemma IpcHandlerKeepsWorth(k: Kernel, cur: TcbId, tr: Trap)
    requires Tidy(k) && IsIpc(tr.frame.syscall)
    ensures Worth(Handle(k, cur, tr).k) == Worth(k)
  {
    IpcHandlerTidy(k, cur, tr);
    hide Handle;
    hide Worth;
    IpcKeepsWorth(k, Handle(k, cur, tr).k);
  }

  /** Over any run, budget turns into objects one for one: none is lost, and no object is made
      without paying for it. */
  lemma {:induction false} RunConservesBudget(k: Kernel, trs: seq<Trap>)
    requires Inv(k)
    ensures Remaining(Run(k, trs)) + LiveObjects(Run(k, trs)) == Remaining(k) + LiveObjects(k)
    decreases |trs|
  {
    hide Handle;
    hide Worth;
    assert Worth(k) == Remaining(k) + LiveObjects(k) by { WorthIs(k); }
    WorthIs(Run(k, trs));
    if trs != [] {
      HandlerKeepsWorth(k, k.current.value, trs[0]);
      StepKeepsInv(k, trs[0]);
      RunConservesBudget(Step(k, trs[0]), trs[1..]);
      WorthIs(Step(k, trs[0]));
    }
  }

  lemma WorthIs(k: Kernel)
    ensures Worth(k) == Remaining(k) + LiveObjects(k)
  {
  }
}
