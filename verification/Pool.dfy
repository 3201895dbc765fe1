/** Fixed-capacity object pools with stable indices (src/pool.rs). The specification is a
    finite map from index to value; the class keeps the slots in an array. */
module Pool {
  import opened Wrappers

  /** The first index at or after `from` and below `max` that holds nothing, else `max`. */
  function FirstFree<T>(m: map<nat, T>, from: nat, max: nat): (i: nat)
    requires from <= max
    ensures from <= i <= max
    ensures i < max ==> i !in m
    ensures forall j :: from <= j < i ==> j in m
    decreases max - from
  {
    if from == max || from !in m then from else FirstFree(m, from + 1, max)
  }

  /** The index `alloc` picks, if the pool is not full. */
  function AllocIndex<T>(m: map<nat, T>, max: nat): (i: Option<nat>)
    ensures i.Some? ==> i.value < max && i.value !in m
  {
    if |m| >= max then None
    else
      var i := FirstFree(m, 0, max);
      if i < max then Some(i) else None
  }

  /** Every index is below the capacity, and so the pool never holds more than it may. */
  ghost predicate Bounded<T>(m: map<nat, T>, max: nat) {
    |m| <= max && forall i | i in m :: i < max
  }

  lemma {:induction false} FullRange(s: set<nat>, n: nat)
    requires forall i: nat :: i < n ==> i in s
    ensures |s| >= n
    decreases n
  {
    if n > 0 {
      FullRange(s - {n - 1}, n - 1);
    }
  }

  /** `alloc` succeeds exactly when some slot is free, and a fresh slot keeps the pool bounded. */
  lemma AllocFindsFreeSlot<T>(m: map<nat, T>, max: nat, v: T)
    requires Bounded(m, max)
    ensures AllocIndex(m, max).Some? <==> exists i: nat :: i < max && i !in m
    ensures AllocIndex(m, max).Some? ==>
              var i := AllocIndex(m, max).value;
              i !in m && Bounded(m[i := v], max) && |m[i := v]| == |m| + 1
  {
    if |m| >= max {
      if i: nat :| i < max && i !in m {
        Pigeonhole(m.Keys, max, i);
      }
    } else if FirstFree(m, 0, max) == max {
      FullRange(m.Keys, max);
    }
  }

  /** Distinct numbers below `n` that leave one out are fewer than `n`. */
  lemma {:induction false} Pigeonhole(s: set<nat>, n: nat, gap: nat)
    requires forall i | i in s :: i < n
    requires gap < n && gap !in s
    ensures |s| < n
    decreases n
  {
    if gap == n - 1 {
      SetBelow(s, n - 1);
    } else if n - 1 in s {
      Pigeonhole(s - {n - 1}, n - 1, gap);
    } else {
      SetBelow(s, n - 1);
    }
  }

  lemma {:induction false} SetBelow(s: set<nat>, n: nat)
    requires forall i | i in s :: i < n
    ensures |s| <= n
    decreases n
  {
    if n == 0 {
      if i :| i in s { assert false; }
    } else {
      SetBelow(s - {n - 1}, n - 1);
    }
  }

  class Pool<T> {
    const slots: array<Option<T>>
    var len: nat

    ghost function Repr(): set<object> {
      {this, slots}
    }

    /** The finite map the slots hold. */
    ghost function View(): map<nat, T>
      reads slots
    {
      map i: nat | i < slots.Length && slots[i].Some? :: slots[i].value
    }

    ghost predicate Valid()
      reads this, slots
    {
      len == |View()| && Bounded(View(), slots.Length)
    }

    constructor (capacity: nat)
      ensures Valid() && fresh(Repr())
      ensures slots.Length == capacity && View() == map[]
    {
      slots := new Option<T>[capacity](i => None);
      len := 0;
      new;
      assert View() == map[];
    }

    predicate IsFull()
      reads this
    {
      len >= slots.Length
    }

    /** Takes the first free slot. */
    method Alloc(value: T) returns (index: Option<nat>)
      requires Valid()
      modifies this, slots
      ensures Valid()
      ensures index == AllocIndex(old(View()), slots.Length)
      ensures View() == if index.Some? then old(View())[index.value := value] else old(View())
    {
      if IsFull() {
        return None;
      }
      var i := 0;
      while i < slots.Length && slots[i].Some?
        invariant i <= slots.Length
        invariant FirstFree(View(), 0, slots.Length) == FirstFree(View(), i, slots.Length)
      {
        i := i + 1;
      }
      AllocFindsFreeSlot(View(), slots.Length, value);
      if i == slots.Length {
        return None;
      }
      ghost var before := View();
      slots[i] := Some(value);
      len := len + 1;
      assert View() == before[i := value];
      index := Some(i);
    }

    method Get(index: nat) returns (value: Option<T>)
      requires Valid()
      ensures value == if index in View() then Some(View()[index]) else None
    {
      value := if index < slots.Length then slots[index] else None;
    }

    /** The write a `get_mut` borrow performs: only an occupied slot can be written. */
    method Put(index: nat, value: T) returns (found: bool)
      requires Valid()
      modifies slots
      ensures Valid()
      ensures found == (index in old(View()))
      ensures View() == if found then old(View())[index := value] else old(View())
    {
      found := index < slots.Length && slots[index].Some?;
      if found {
        ghost var before := View();
        slots[index] := Some(value);
        assert View() == before[index := value];
      }
    }

    /** Frees a slot and returns what it held. */
    method Free(index: nat) returns (value: Option<T>)
      requires Valid()
      modifies this, slots
      ensures Valid()
      ensures value == if index in old(View()) then Some(old(View()[index])) else None
      ensures View() == old(View()) - {index}
    {
      if index >= slots.Length {
        assert View() - {index} == View();
        return None;
      }
      ghost var before := View();
      value := slots[index];
      slots[index] := None;
      assert View() == before - {index};
      if value.Some? {
        ghost var after := View();
        assert before == after[index := before[index]];
        len := len - 1;
        assert View() == after;
      } else {
        assert View() == before;
      }
    }
  }

  /** A freed index is handed out again, before any higher one, and gives back the same pool. */
  lemma FreeThenAlloc<T>(m: map<nat, T>, i: nat, max: nat)
    requires Bounded(m, max) && i in m
    requires forall j: nat :: j < i ==> j in m
    ensures AllocIndex(m - {i}, max) == Some(i)
    ensures (m - {i})[i := m[i]] == m
  {
    var m' := m - {i};
    assert m'[i := m[i]] == m;
    AllocFindsFreeSlot(m', max, m[i]);
  }
}
