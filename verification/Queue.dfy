/** The fixed-capacity FIFO behind the ready queue and the wait queues (src/queue.rs): a ring
    buffer that refines a sequence at any head position and any fill. */
module Queue {
  import opened Wrappers

  /** The queue without the first occurrence of `t`. */
  function RemoveFirst<T(==)>(q: seq<T>, t: T): seq<T> {
    if q == [] then []
    else if q[0] == t then q[1..]
    else [q[0]] + RemoveFirst(q[1..], t)
  }

  /** `RemoveFirst` takes out one element, the first that equals `t`, and keeps the order. */
  lemma {:induction false} RemoveFirstSplits<T>(q: seq<T>, t: T, i: nat)
    requires i < |q| && q[i] == t && t !in q[..i]
    ensures RemoveFirst(q, t) == q[..i] + q[i + 1..]
  {
    if i > 0 {
      assert q[..i][0] == q[0];
      assert q[1..][..i - 1] == q[..i][1..];
      RemoveFirstSplits(q[1..], t, i - 1);
      assert q[..i] + q[i + 1..] == [q[0]] + (q[1..][..i - 1] + q[1..][i..]);
    }
  }

  lemma {:induction false} RemoveFirstAbsent<T>(q: seq<T>, t: T)
    requires t !in q
    ensures RemoveFirst(q, t) == q
  {
    if q != [] {
      RemoveFirstAbsent(q[1..], t);
    }
  }

  /** One more element at the back. */
  lemma {:induction false} RemoveFirstPush<T>(q: seq<T>, x: T, t: T)
    ensures RemoveFirst(q + [x], t)
         == if t in q then RemoveFirst(q, t) + [x] else if x == t then q else q + [x]
  {
    if q == [] {
      assert q + [x] == [x];
    } else if q[0] == t {
      assert (q + [x])[1..] == q[1..] + [x];
    } else {
      assert (q + [x])[1..] == q[1..] + [x];
      RemoveFirstPush(q[1..], x, t);
      assert t in q <==> t in q[1..];
    }
  }

  /** A cell number, counted around a ring of `n` cells. */
  function Around(i: nat, n: nat): nat
    requires n > 0
  {
    i % n
  }

  /** Position `i` after `head` in a ring of `n` cells. */
  function Wrap(head: nat, i: nat, n: nat): (c: nat)
    requires head < n && i <= n
    ensures c < n
  {
    if head + i < n then head + i else head + i - n
  }

  lemma WrapIsMod(head: nat, i: nat, n: nat)
    requires head < n && i <= n
    ensures Around(head + i, n) == Wrap(head, i, n)
  {
    if head + i >= n {
      ModOfSum(head + i - n, n);
    }
  }

  lemma ModOfSum(x: nat, n: nat)
    requires x < n
    ensures (x + n) % n == x
  {
    assert (x + n) / n == 1 by { DivOfSum(x, n); }
  }

  lemma DivOfSum(x: nat, n: nat)
    requires x < n
    ensures (x + n) / n == 1
  {
  }

  class ArrayQueue<T(==)> {
    const items: array<Option<T>>
    var head: nat
    var len: nat

    /** Exactly the cells of the live window hold something. */
    ghost predicate Valid()
      reads this, items
    {
      && head < items.Length && len <= items.Length
      && (forall i: nat {:trigger Wrap(head, i, items.Length)} :: i < items.Length ==>
            (items[Wrap(head, i, items.Length)].Some? <==> i < len))
    }

    ghost function Contents(): (s: seq<T>)
      reads this, items
      requires Valid()
    {
      seq(len, i requires 0 <= i < len && Valid() reads this, items =>
        items[Wrap(head, i, items.Length)].value)
    }

    constructor (capacity: nat)
      requires capacity > 0
      ensures Valid() && fresh(items) && items.Length == capacity && Contents() == []
    {
      items := new Option<T>[capacity](i => None);
      head, len := 0, 0;
    }

    method IsEmpty() returns (empty: bool)
      requires Valid()
      ensures empty == (Contents() == [])
    {
      empty := len == 0;
    }

    method Front() returns (t: Option<T>)
      requires Valid()
      ensures t == if Contents() == [] then None else Some(Contents()[0])
    {
      if len == 0 {
        t := None;
      } else {
        assert Wrap(head, 0, items.Length) == head;
        t := items[head];
      }
    }

    method PushBack(value: T) returns (pushed: bool)
      requires Valid()
      modifies this, items
      ensures Valid()
      ensures pushed == (|old(Contents())| < items.Length)
      ensures Contents() == if pushed then old(Contents()) + [value] else old(Contents())
    {
      if len >= items.Length {
        return false;
      }
      ghost var was := Contents();
      WrapIsMod(head, len, items.Length);
      items[Around(head + len, items.Length)] := Some(value);
      len := len + 1;
      assert Contents() == was + [value];
      pushed := true;
    }

    method PopFront() returns (t: Option<T>)
      requires Valid()
      modifies this, items
      ensures Valid()
      ensures t == if old(Contents()) == [] then None else Some(old(Contents())[0])
      ensures Contents() == if old(Contents()) == [] then [] else old(Contents())[1..]
    {
      if len == 0 {
        return None;
      }
      ghost var was, n, h := Contents(), items.Length, head;
      assert Wrap(h, 0, n) == h;
      t := items[head];
      items[head] := None;
      WrapIsMod(h, 1, n);
      head := Around(head + 1, items.Length);
      len := len - 1;
      assert forall i: nat :: i < n - 1 ==> Wrap(head, i, n) == Wrap(h, i + 1, n);
      assert Wrap(head, n - 1, n) == h;
      assert Contents() == was[1..];
    }

    ghost function Cells(): (cells: seq<Option<T>>)
      reads items
      ensures |cells| == items.Length
    {
      items[..]
    }

    method SetCell(cell: nat, v: Option<T>)
      requires cell < items.Length
      modifies items
      ensures Cells() == old(Cells())[cell := v]
    {
      items[cell] := v;
    }

    method TakeCell(cell: nat) returns (v: Option<T>)
      requires cell < items.Length
      modifies items
      ensures v == old(Cells())[cell] && Cells() == old(Cells())[cell := None]
    {
      v := items[cell];
      items[cell] := None;
    }

    /** Removes the first occurrence of `value` in one pass that moves the others up. The write
        cursor never passes the read cursor. */
    method Remove(value: T) returns (found: bool)
      requires Valid()
      modifies this, items
      ensures Valid()
      ensures found == (value in old(Contents()))
      ensures Contents() == RemoveFirst(old(Contents()), value)
    {
      found := false;
      var write, newLen, i := head, 0, 0;
      ghost var s := Contents();
      ghost var kept: seq<T> := [];
      ValidIsCompacted(value);
      hide *;
      while i < len
        modifies items
        invariant i <= len && newLen == |kept|
        invariant Compacting(Cells(), head, write, s, i, value, found, kept)
      {
        var skipped: bool;
        skipped, write, kept := Compact(i, write, value, found, s, kept);
        if skipped {
          found := true;
        } else {
          newLen := newLen + 1;
        }
        i := i + 1;
      }
      len := newLen;
      CompactedIsValid(write, s, value, found, kept);
    }

    /** Reads element `i` and puts it behind those kept, unless it is the one to remove. */
    method Compact(i: nat, write: nat, value: T, found: bool, ghost s: seq<T>, ghost kept: seq<T>)
      returns (skipped: bool, write': nat, ghost kept': seq<T>)
      requires i < |s| && Compacting(Cells(), head, write, s, i, value, found, kept)
      modifies items
      ensures skipped == (!found && s[i] == value)
      ensures kept' == if skipped then kept else kept + [s[i]]
      ensures Compacting(Cells(), head, write', s, i + 1, value, found || skipped, kept')
    {
      ghost var before := Cells();
      hide *;
      NextRead(before, head, write, s, i, value, found, kept);
      var idx := Around(head + i, items.Length);
      var item := TakeCell(idx);
      skipped, write', kept' := !found && item == Some(value), write, kept;
      if skipped {
        SkipStep(before, head, write, s, i, value, kept);
      } else {
        KeepStep(before, head, write, s, i, value, found, kept);
        SetCell(write, item);
        kept' := kept + [s[i]];
        write' := Around(write + 1, items.Length);
      }
    }

    lemma ValidIsCompacted(value: T)
      requires Valid()
      ensures |Contents()| == len <= items.Length && head < items.Length
      ensures Compacting(Cells(), head, head, Contents(), 0, value, false, [])
    {
      assert Wrap(head, 0, items.Length) == head;
    }

    lemma CompactedIsValid(write: nat, s: seq<T>, value: T, found: bool, kept: seq<T>)
      requires len == |kept| && head < items.Length
      requires Compacting(Cells(), head, write, s, |s|, value, found, kept)
      ensures Valid() && Contents() == RemoveFirst(s, value) && found == (value in s)
    {
      assert s[..|s|] == s;
      CompactedWindow(Cells(), head, kept, s);
      assert forall i: nat {:trigger Wrap(head, i, items.Length)} :: i < items.Length ==>
        items[..][Wrap(head, i, items.Length)] == items[Wrap(head, i, items.Length)];
    }
  }

  // ------------------------------------------------------------------- compaction

  /** The cells of a ring in order from `head`. */
  ghost function Unrolled<T>(cells: seq<Option<T>>, head: nat): (u: seq<Option<T>>)
    requires head < |cells|
  {
    seq(|cells|, j requires 0 <= j < |cells| => cells[Wrap(head, j, |cells|)])
  }

  lemma UnrolledUpdate<T>(cells: seq<Option<T>>, head: nat, i: nat, v: Option<T>)
    requires head < |cells| && i < |cells|
    ensures Unrolled(cells[Wrap(head, i, |cells|) := v], head) == Unrolled(cells, head)[i := v]
  {
  }

  /** The compaction of `s` has read `i` elements and kept `kept` of them: the kept ones are in
      front, the ones not read are where they were, and all other cells are empty. */
  ghost predicate Compacted<T>(u: seq<Option<T>>, kept: seq<T>, s: seq<T>, i: nat) {
    && |kept| <= i <= |s| <= |u|
    && forall j :: 0 <= j < |u| ==>
         u[j] == if j < |kept| then Some(kept[j]) else if i <= j < |s| then Some(s[j]) else None
  }

  /** The state of the pass after `i` elements: `write` is the cell behind the kept ones, which is
      never past the cell that is read next. */
  ghost predicate Compacting<T>(cells: seq<Option<T>>, head: nat, write: nat, s: seq<T>, i: nat, value: T,
                                found: bool, kept: seq<T>)
  {
    && head < |cells| && Compacted(Unrolled(cells, head), kept, s, i)
    && write == Wrap(head, |kept|, |cells|)
    && found == (value in s[..i]) && kept == RemoveFirst(s[..i], value)
    && |kept| == (if found then i - 1 else i)
  }

  lemma NextRead<T>(cells: seq<Option<T>>, head: nat, write: nat, s: seq<T>, i: nat, value: T, found: bool, kept: seq<T>)
    requires i < |s| && Compacting(cells, head, write, s, i, value, found, kept)
    ensures head < |cells| && Around(head + i, |cells|) == Wrap(head, i, |cells|) < |cells|
    ensures cells[Around(head + i, |cells|)] == Some(s[i]) && write < |cells|
  {
    WrapIsMod(head, i, |cells|);
    assert Unrolled(cells, head)[i] == cells[Wrap(head, i, |cells|)];
  }

  lemma CompactedSkip<T>(u: seq<Option<T>>, kept: seq<T>, s: seq<T>, i: nat)
    requires Compacted(u, kept, s, i) && i < |s|
    ensures Compacted(u[i := None], kept, s, i + 1)
  {
  }

  lemma CompactedKeep<T>(u: seq<Option<T>>, kept: seq<T>, s: seq<T>, i: nat)
    requires Compacted(u, kept, s, i) && i < |s|
    ensures Compacted(u[i := None][|kept| := Some(s[i])], kept + [s[i]], s, i + 1)
  {
  }

  /** Reading the element to remove: it is taken out and not put back. */
  lemma SkipStep<T>(cells: seq<Option<T>>, head: nat, write: nat, s: seq<T>, i: nat, value: T, kept: seq<T>)
    requires i < |s| && Compacting(cells, head, write, s, i, value, false, kept) && s[i] == value
    requires head < |cells| && Around(head + i, |cells|) == Wrap(head, i, |cells|)
    ensures Compacting(cells[Around(head + i, |cells|) := None], head, write, s, i + 1, value, true, kept)
  {
    assert s[..i + 1] == s[..i] + [s[i]];
    RemoveFirstPush(s[..i], s[i], value);
    RemoveFirstAbsent(s[..i], value);
    UnrolledUpdate(cells, head, i, None);
    CompactedSkip(Unrolled(cells, head), kept, s, i);
  }

  /** Reading any other element: it moves to the end of those kept. */
  lemma KeepStep<T>(cells: seq<Option<T>>, head: nat, write: nat, s: seq<T>, i: nat, value: T, found: bool, kept: seq<T>)
    requires i < |s| && Compacting(cells, head, write, s, i, value, found, kept) && (found || s[i] != value)
    requires head < |cells| && Around(head + i, |cells|) == Wrap(head, i, |cells|) && write < |cells|
    ensures Compacting(cells[Around(head + i, |cells|) := None][write := Some(s[i])], head, Around(write + 1, |cells|),
                       s, i + 1, value, found, kept + [s[i]])
  {
    KeptPrefix(s, i, value, found, kept);
    UnrolledUpdate(cells, head, i, None);
    UnrolledUpdate(cells[Wrap(head, i, |cells|) := None], head, |kept|, Some(s[i]));
    CompactedKeep(Unrolled(cells, head), kept, s, i);
    NextCell(head, |kept| + 1, |cells|);
    hide Wrap;
    hide Around;
    hide Unrolled;
    hide Compacted;
    hide RemoveFirst;
  }

  lemma KeptPrefix<T>(s: seq<T>, i: nat, value: T, found: bool, kept: seq<T>)
    requires i < |s| && found == (value in s[..i]) && kept == RemoveFirst(s[..i], value) && (found || s[i] != value)
    ensures found == (value in s[..i + 1]) && kept + [s[i]] == RemoveFirst(s[..i + 1], value)
  {
    assert s[..i + 1] == s[..i] + [s[i]];
    RemoveFirstPush(s[..i], s[i], value);
    if !found { RemoveFirstAbsent(s[..i], value); }
  }

  /** When all of `s` has been read, exactly the kept elements remain. */
  lemma CompactedWindow<T>(cells: seq<Option<T>>, head: nat, kept: seq<T>, s: seq<T>)
    requires head < |cells| && Compacted(Unrolled(cells, head), kept, s, |s|)
    ensures forall i: nat {:trigger Wrap(head, i, |cells|)} :: i < |cells| ==>
              cells[Wrap(head, i, |cells|)] == if i < |kept| then Some(kept[i]) else None
  {
    forall i: nat | i < |cells|
      ensures cells[Wrap(head, i, |cells|)] == if i < |kept| then Some(kept[i]) else None
    {
      assert Unrolled(cells, head)[i] == cells[Wrap(head, i, |cells|)];
    }
  }

  lemma NextCell(head: nat, i: nat, n: nat)
    requires head < n && 0 < i <= n
    ensures Around(Wrap(head, i - 1, n) + 1, n) == Wrap(head, i, n)
  {
    WrapIsMod(Wrap(head, i - 1, n), 1, n);
  }
}
