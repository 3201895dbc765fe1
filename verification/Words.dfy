/** 64-bit machine words as bounded integers, with the two bitwise operations the kernel
    applies to them: OR on notification badges, AND-NOT on addresses. */
module Words {
  import opened Limits

  const WORD_LIMIT: nat := 0x1_0000_0000_0000_0000

  type Word = w: int | 0 <= w < WORD_LIMIT witness 0

  function Pow2(n: nat): (p: nat)
    ensures p > 0
  {
    if n == 0 then 1 else 2 * Pow2(n - 1)
  }

  /** Bit `i` of `a`. */
  predicate Bit(a: nat, i: nat) {
    if i == 0 then a % 2 == 1 else Bit(a / 2, i - 1)
  }

  /** The bitwise OR of two numbers of `width` bits. */
  function OrWidth(a: nat, b: nat, width: nat): (r: nat)
    requires a < Pow2(width) && b < Pow2(width)
    ensures r < Pow2(width)
  {
    if width == 0 then 0
    else
      (if a % 2 == 1 || b % 2 == 1 then 1 else 0) + 2 * OrWidth(a / 2, b / 2, width - 1)
  }

  function Or(a: Word, b: Word): Word {
    Pow2Of64();
    OrWidth(a, b, 64)
  }

  lemma Pow2Of64()
    ensures Pow2(64) == WORD_LIMIT
  {
    Pow2OfSmall();
    assert Pow2(32) == 65536 * Pow2(16) by { Pow2Add(16, 16); }
    assert Pow2(48) == 65536 * Pow2(32) by { Pow2Add(16, 32); }
    assert Pow2(64) == 65536 * Pow2(48) by { Pow2Add(16, 48); }
  }

  lemma Pow2OfSmall()
    ensures Pow2(5) == 32 && Pow2(12) == 4096 && Pow2(16) == 65536
  {
    assert Pow2(4) == 16;
    assert Pow2(8) == 256 by { Pow2Add(4, 4); }
    Pow2Add(4, 8);
    Pow2Add(8, 8);
  }

  lemma {:induction false} Pow2Add(m: nat, n: nat)
    ensures Pow2(m + n) == Pow2(m) * Pow2(n)
  {
    if m > 0 {
      Pow2Add(m - 1, n);
      assert Pow2(m + n) == 2 * Pow2(m - 1 + n);
    }
  }

  lemma {:induction false} OrWidthBit(a: nat, b: nat, width: nat, i: nat)
    requires a < Pow2(width) && b < Pow2(width)
    ensures Bit(OrWidth(a, b, width), i) <==> Bit(a, i) || Bit(b, i)
  {
    if width == 0 {
      ZeroHasNoBits(i);
    } else if i > 0 {
      OrWidthBit(a / 2, b / 2, width - 1, i - 1);
    }
  }

  lemma {:induction false} ZeroHasNoBits(i: nat)
    ensures !Bit(0, i)
  {
    if i > 0 {
      ZeroHasNoBits(i - 1);
    }
  }

  /** `Or` sets exactly the bits either argument has. */
  lemma OrBit(a: Word, b: Word, i: nat)
    ensures Bit(Or(a, b), i) <==> Bit(a, i) || Bit(b, i)
  {
    Pow2Of64();
    OrWidthBit(a, b, 64, i);
  }

  /** `a & !b`, bit by bit. */
  function AndNot(a: nat, b: nat): nat {
    if a == 0 then 0
    else (if a % 2 == 1 && b % 2 == 0 then 1 else 0) + 2 * AndNot(a / 2, b / 2)
  }

  /** `a` shifted right by `k` bits. */
  function Shr(a: nat, k: nat): nat {
    if k == 0 then a else Shr(a / 2, k - 1)
  }

  lemma {:induction false} ShrBounds(a: nat, k: nat)
    ensures Pow2(k) * Shr(a, k) <= a < Pow2(k) * Shr(a, k) + Pow2(k)
  {
    if k > 0 {
      ShrBounds(a / 2, k - 1);
      Double(Pow2(k - 1), Shr(a, k));
    }
  }

  lemma Double(p: nat, x: nat)
    ensures (2 * p) * x == 2 * (p * x)
  {
  }

  /** Masking off the low `k` bits. */
  lemma {:induction false} AndNotLowBits(a: nat, k: nat)
    ensures AndNot(a, Pow2(k) - 1) == Pow2(k) * Shr(a, k)
    decreases k
  {
    if k == 0 {
      AndNotNothing(a);
    } else {
      Double(Pow2(k - 1), Shr(a, k));
      if a == 0 {
        ShrBounds(0, k);
      } else {
        AndNotLowBits(a / 2, k - 1);
      }
    }
  }

  lemma {:induction false} AndNotNothing(a: nat)
    ensures AndNot(a, 0) == a
  {
    if a > 0 {
      AndNotNothing(a / 2);
    }
  }

  /** Rounding up with the mask `(x + align - 1) & !(align - 1)`. */
  function AlignUp(x: nat, align: nat): nat
    requires align > 0
  {
    AndNot(x + align - 1, align - 1)
  }

  /** The two page sizes are powers of two. */
  lemma PageSizesArePowers()
    ensures Pow2(12) == PAGE_SIZE && Pow2(21) == MEGAPAGE_SIZE
  {
    Pow2OfSmall();
    Pow2Add(5, 16);
  }

  /** `r` is the least multiple of `align` that is not below `x`. */
  ghost predicate IsRoundedUp(r: nat, x: nat, align: nat)
    requires align > 0
  {
    r % align == 0 && x <= r < x + align && forall y: nat :: x <= y && y % align == 0 ==> r <= y
  }

  lemma {:induction false} MultiplesApart(p: nat, a: nat, b: nat)
    ensures a < b ==> p * a + p <= p * b
    decreases b
  {
    if a + 1 < b {
      MultiplesApart(p, a, b - 1);
      assert p * b == p * (b - 1) + p;
    }
  }

  /** A number less than `p` above a multiple of `p` has that multiple's quotient. */
  lemma QuotientIs(y: nat, p: nat, q: nat)
    requires p > 0 && p * q <= y < p * q + p
    ensures y / p == q && y % p == y - p * q
  {
    var d := y / p;
    assert y == p * d + y % p;
    MultiplesApart(p, d, q);
    MultiplesApart(p, q, d);
  }

  /** The multiple of `p` that is at most `p - 1` above `x`. */
  lemma MultipleRoundsUp(p: nat, q: nat, x: nat)
    requires p > 0 && p * q <= x + (p - 1) < p * q + p
    ensures IsRoundedUp(p * q, x, p)
  {
    QuotientIs(p * q, p, q);
    forall y: nat | x <= y && y % p == 0 ensures p * q <= y {
      var d := y / p;
      assert y == p * d;
      MultiplesApart(p, d, q);
      MultiplesApart(p, q, d);
    }
  }

  /** For every power of two the mask rounds up. */
  lemma AlignUpRoundsUp(x: nat, k: nat)
    ensures IsRoundedUp(AlignUp(x, Pow2(k)), x, Pow2(k))
  {
    var m := x + Pow2(k) - 1;
    AndNotLowBits(m, k);
    ShrBounds(m, k);
    hide AndNot;
    hide Shr;
    hide IsRoundedUp;
    MultipleRoundsUp(Pow2(k), Shr(m, k), x);
  }
}
