/**
 Bit operations on page frame numbers, defined bit by bit on the natural numbers,
 and the facts about naturally aligned blocks that the buddy allocator uses.
 */
module Bits {

  /** `1 << k`. */
  function Pow2(k: nat): (r: nat)
    ensures r >= 1
  {
    if k == 0 then 1 else 2 * Pow2(k - 1)
  }

  /** `a ^ b`. */
  function Xor(a: nat, b: nat): nat
    decreases a + b
  {
    if a == 0 && b == 0 then 0
    else 2 * Xor(a / 2, b / 2) + (if a % 2 != b % 2 then 1 else 0)
  }

  /** `a & b`. */
  function And(a: nat, b: nat): nat
  {
    if a == 0 || b == 0 then 0
    else 2 * And(a / 2, b / 2) + (if a % 2 == 1 && b % 2 == 1 then 1 else 0)
  }

  /** The low `k` bits of `p` are clear. */
  predicate Aligned(p: nat, k: nat)
    decreases k
  {
    k == 0 || (p % 2 == 0 && Aligned(p / 2, k - 1))
  }

  predicate Times(p: nat, q: nat, n: nat) {
    p == q * n
  }

  /** Aligned numbers are exactly the multiples of `2^k`. */
  lemma {:induction false} AlignedMultiple(p: nat, k: nat)
    ensures Aligned(p, k) <==> exists q: nat :: Times(p, q, Pow2(k))
    decreases k
  {
    hide Aligned, Times, Pow2;
    Unfold(p, k);
    if k > 0 {
      AlignedMultiple(p / 2, k - 1);
      var n := Pow2(k - 1);
      if q: nat :| p % 2 == 0 && Times(p / 2, q, n) {
        Doubled(p, q, n);
        assert Times(p, q, Pow2(k));
      }
      if q: nat :| Times(p, q, Pow2(k)) {
        Doubled(p, q, n);
        assert Times(p / 2, q, n);
      }
    }
  }

  lemma Unfold(p: nat, k: nat)
    ensures k == 0 ==> Aligned(p, k) && Pow2(k) == 1 && Times(p, p, Pow2(k))
    ensures k > 0 ==> Pow2(k) == 2 * Pow2(k - 1) && (Aligned(p, k) <==> p % 2 == 0 && Aligned(p / 2, k - 1))
  {
  }

  lemma Doubled(p: nat, q: nat, n: nat)
    ensures Times(p, q, 2 * n) <==> p % 2 == 0 && Times(p / 2, q, n)
  {
    var m := q * n;
    assert q * (2 * n) == 2 * m;
  }

  lemma {:induction false} XorZero(a: nat)
    ensures Xor(a, 0) == a
  {
    if a > 0 { XorZero(a / 2); }
  }

  lemma {:induction false} AndSelf(a: nat)
    ensures And(a, a) == a
  {
    if a > 0 { AndSelf(a / 2); }
  }

  /** The exclusive-or partner of an aligned block is its sibling; the bitwise-and is the lower one. */
  lemma {:induction false} BuddyArithmetic(p: nat, k: nat)
    requires Aligned(p, k)
    ensures Aligned(p, k + 1) ==> Xor(p, Pow2(k)) == p + Pow2(k) && And(p + Pow2(k), p) == p
    ensures !Aligned(p, k + 1) ==> p >= Pow2(k) && Xor(p, Pow2(k)) == p - Pow2(k)
                                   && And(p - Pow2(k), p) == p - Pow2(k) && Aligned(p - Pow2(k), k + 1)
    decreases k
  {
    if Aligned(p, k + 1) {
      SiblingAbove(p, k);
    } else {
      SiblingBelow(p, k);
    }
  }

  lemma AlignedDouble(h: nat, k: nat)
    ensures Aligned(2 * h, k + 1) <==> Aligned(h, k)
  {
  }

  lemma LowBit(p: nat)
    ensures p % 2 == 0 ==> Xor(p, 1) == p + 1 && And(p + 1, p) == p
    ensures p % 2 == 1 ==> Xor(p, 1) == p - 1 && And(p - 1, p) == p - 1
  {
    var h := p / 2;
    XorZero(h);
    AndSelf(h);
    assert p % 2 == 0 ==> (p + 1) / 2 == h;
    assert p % 2 == 1 ==> (p - 1) / 2 == h;
  }

  lemma Pow2Next(k: nat)
    ensures Pow2(k + 1) == 2 * Pow2(k)
  {
  }

  lemma {:induction false} SiblingAbove(p: nat, k: nat)
    requires Aligned(p, k + 1)
    ensures Xor(p, Pow2(k)) == p + Pow2(k) && And(p + Pow2(k), p) == p
    decreases k
  {
    hide Aligned, Xor, And, Pow2;
    Unfold(p, k + 1);
    Unfold(p, k);
    var h := p / 2;
    if k == 0 {
      LowBit(p);
    } else {
      var n := Pow2(k - 1);
      SiblingAbove(h, k - 1);
      Shifted(h, n);
      Shifted(h + n, h);
    }
  }

  lemma {:induction false} SiblingBelow(p: nat, k: nat)
    requires Aligned(p, k) && !Aligned(p, k + 1)
    ensures p >= Pow2(k) && Xor(p, Pow2(k)) == p - Pow2(k)
    ensures And(p - Pow2(k), p) == p - Pow2(k) && Aligned(p - Pow2(k), k + 1)
    decreases k
  {
    hide Aligned, Xor, And, Pow2;
    Unfold(p, k + 1);
    Unfold(p, k);
    var h := p / 2;
    Unfold(h, 0);
    if k == 0 {
      LowBit(p);
      Unfold(p - 1, 1);
      assert (p - 1) / 2 == h;
    } else {
      var n := Pow2(k - 1);
      SiblingBelow(h, k - 1);
      AlignedDouble(h - n, k);
      Shifted(h, n);
      Shifted(h - n, h);
    }
  }

  /** Both operations commute with a shift by one. */
  lemma Shifted(a: nat, b: nat)
    ensures Xor(2 * a, 2 * b) == 2 * Xor(a, b) && And(2 * a, 2 * b) == 2 * And(a, b)
  {
  }

  lemma {:induction false} AlignedDown(p: nat, j: nat, k: nat)
    requires k <= j && Aligned(p, j)
    ensures Aligned(p, k)
    decreases k
  {
    if k > 0 { AlignedDown(p / 2, j - 1, k - 1); }
  }

  lemma {:induction false} AlignedShift(p: nat, k: nat)
    ensures Aligned(p + Pow2(k), k) <==> Aligned(p, k)
    decreases k
  {
    if k > 0 {
      AlignedShift(p / 2, k - 1);
      assert (p + Pow2(k)) / 2 == p / 2 + Pow2(k - 1);
    }
  }

  /** Distinct multiples of `2^k` are at least `2^k` apart. */
  lemma {:induction false} AlignedApart(p: nat, q: nat, k: nat)
    requires Aligned(p, k) && Aligned(q, k) && p < q
    ensures p + Pow2(k) <= q
    decreases k
  {
    if k > 0 { AlignedApart(p / 2, q / 2, k - 1); }
  }

  /** Two naturally aligned blocks are disjoint, or the smaller lies inside the larger. */
  lemma Laminar(p: nat, j: nat, q: nat, k: nat)
    requires j <= k && Aligned(p, j) && Aligned(q, k)
    ensures p + Pow2(j) <= q || q + Pow2(k) <= p || (q <= p && p + Pow2(j) <= q + Pow2(k))
  {
    hide Aligned, Pow2;
    AlignedShift(q, k);
    AlignedDown(q, k, j);
    AlignedDown(q + Pow2(k), k, j);
    if p < q { AlignedApart(p, q, j); }
    if p < q + Pow2(k) { AlignedApart(p, q + Pow2(k), j); }
  }
}
