/** Free blocks as a map from head page to order: placement, pages covered, buddies. */
module BuddyBlocks {
  import opened Bits
  import opened Buddy

  type Blocks = map<nat, nat>

  /** Pages `lo` up to but not including `hi`. */
  datatype Span = Span(lo: nat, hi: nat)

  predicate Fits(sp: Span, p: nat, o: nat) {
    o < MAX_ORDER && Aligned(p, o) && sp.lo <= p && p + Pow2(o) <= sp.hi
  }

  predicate Apart(p: nat, o: nat, q: nat, k: nat) {
    p + Pow2(o) <= q || q + Pow2(k) <= p
  }

  /** Every block is aligned to its order and inside the span, and no two overlap. */
  ghost predicate Placed(sp: Span, B: Blocks) {
    && (forall p: nat :: p in B ==> Fits(sp, p, B[p]))
    && (forall p: nat, q: nat :: p in B && q in B && p != q ==> Apart(p, B[p], q, B[q]))
  }

  /** A well-placed block none of whose pages lies in `B`. */
  ghost predicate Vacant(sp: Span, B: Blocks, p: nat, o: nat) {
    Fits(sp, p, o) && forall q: nat :: q in B ==> Apart(p, o, q, B[q])
  }

  predicate BuddyFree(B: Blocks, p: nat, o: nat) {
    var b := FindBuddyPfn(p, o);
    b in B && B[b] == o
  }

  /** No block below the top order and its buddy are both free at that order. */
  ghost predicate Coalesced(B: Blocks) {
    forall p: nat :: p in B && B[p] < MAX_ORDER - 1 ==> !BuddyFree(B, p, B[p])
  }

  predicate Between(lo: nat, x: nat, hi: nat) {
    lo <= x < hi
  }

  function Interval(lo: nat, hi: nat): set<nat> {
    set x: nat | lo <= x < hi && Between(lo, x, hi)
  }

  /** The pages of a block. */
  function Run(p: nat, o: nat): set<nat> {
    Interval(p, p + Pow2(o))
  }

  ghost predicate Holds(B: Blocks, p: nat, x: nat) {
    p in B && p <= x < p + Pow2(B[p])
  }

  ghost predicate Covered(B: Blocks, x: nat) {
    exists p: nat :: Holds(B, p, x)
  }

  /** All pages of the span covered by the blocks. */
  ghost function Pages(sp: Span, B: Blocks): set<nat> {
    set x: nat | sp.lo <= x < sp.hi && Covered(B, x)
  }

  lemma {:induction false} IntervalSize(lo: nat, hi: nat)
    requires lo <= hi
    ensures |Interval(lo, hi)| == hi - lo
    decreases hi
  {
    if lo < hi {
      IntervalSize(lo, hi - 1);
      assert Interval(lo, hi) == Interval(lo, hi - 1) + {hi - 1};
    } else {
      assert Interval(lo, hi) == {};
    }
  }

  lemma CoveredAdd(sp: Span, B: Blocks, p: nat, o: nat, x: nat)
    requires Vacant(sp, B, p, o)
    ensures Covered(B, x) ==> !(p <= x < p + Pow2(o))
    ensures Covered(B[p := o], x) <==> Covered(B, x) || p <= x < p + Pow2(o)
  {
    var C := B[p := o];
    if q: nat :| Holds(B, q, x) {
      assert Apart(p, o, q, B[q]);
      assert Holds(C, q, x);
    }
    if p <= x < p + Pow2(o) {
      assert Holds(C, p, x);
    }
    if q: nat :| Holds(C, q, x) {
      assert q == p || Holds(B, q, x);
    }
  }

  lemma RunUnion(S: set<nat>, T: set<nat>, p: nat, o: nat)
    requires forall x: nat :: x in S ==> !(p <= x < p + Pow2(o))
    requires forall x: nat :: x in T <==> x in S || p <= x < p + Pow2(o)
    ensures S !! Run(p, o) && T == S + Run(p, o)
    ensures |T| == |S| + Pow2(o)
  {
    var R := Run(p, o);
    assert S !! R && T == S + R;
    assert |R| == Pow2(o) by { IntervalSize(p, p + Pow2(o)); }
  }

  lemma PagesAdd(sp: Span, B: Blocks, p: nat, o: nat)
    requires Vacant(sp, B, p, o)
    ensures p !in B && Pages(sp, B) !! Run(p, o)
    ensures Pages(sp, B[p := o]) == Pages(sp, B) + Run(p, o)
    ensures |Pages(sp, B[p := o])| == |Pages(sp, B)| + Pow2(o)
  {
    var S, T := Pages(sp, B), Pages(sp, B[p := o]);
    forall x: nat
      ensures x in S ==> !(p <= x < p + Pow2(o))
      ensures x in T <==> x in S || p <= x < p + Pow2(o)
    {
      CoveredAdd(sp, B, p, o, x);
    }
    hide Pages, Pow2, Run;
    RunUnion(S, T, p, o);
  }

  lemma PagesDel(sp: Span, B: Blocks, p: nat)
    requires Placed(sp, B) && p in B
    ensures Vacant(sp, B - {p}, p, B[p]) && Placed(sp, B - {p})
    ensures Pages(sp, B - {p}) !! Run(p, B[p]) && Pages(sp, B) == Pages(sp, B - {p}) + Run(p, B[p])
    ensures |Pages(sp, B)| == |Pages(sp, B - {p})| + Pow2(B[p])
  {
    hide Pages, Pow2, Run, Aligned;
    assert Vacant(sp, B - {p}, p, B[p]);
    PagesAdd(sp, B - {p}, p, B[p]);
    assert (B - {p})[p := B[p]] == B;
  }

  ghost function PageCount(sp: Span, B: Blocks): nat {
    |Pages(sp, B)|
  }

  lemma PageCountAdd(sp: Span, B: Blocks, p: nat, o: nat)
    requires Vacant(sp, B, p, o)
    ensures PageCount(sp, B[p := o]) == PageCount(sp, B) + Pow2(o)
  {
    PagesAdd(sp, B, p, o);
  }

  lemma PageCountDel(sp: Span, B: Blocks, p: nat)
    requires Placed(sp, B) && p in B
    ensures PageCount(sp, B - {p}) == PageCount(sp, B) - Pow2(B[p])
  {
    PagesDel(sp, B, p);
  }

  lemma PlacedAdd(sp: Span, B: Blocks, p: nat, o: nat)
    requires Placed(sp, B) && Vacant(sp, B, p, o)
    ensures Placed(sp, B[p := o])
  {
  }

  lemma BuddySymmetric(p: nat, o: nat)
    requires Aligned(p, o)
    ensures Aligned(FindBuddyPfn(p, o), o) && FindBuddyPfn(FindBuddyPfn(p, o), o) == p
    ensures FindBuddyPfn(p, o) != p
  {
    BuddyArithmetic(p, o);
    var b := FindBuddyPfn(p, o);
    if Aligned(p, o + 1) {
      AlignedShift(p, o);
      if Aligned(b, o + 1) { AlignedApart(p, b, o + 1); }
    } else {
      AlignedDown(b, o + 1, o);
    }
    BuddyArithmetic(b, o);
  }

  lemma CoalescedAdd(sp: Span, B: Blocks, p: nat, o: nat)
    requires Placed(sp, B) && Coalesced(B) && Vacant(sp, B, p, o)
    requires o < MAX_ORDER - 1 ==> !BuddyFree(B, p, o)
    ensures Coalesced(B[p := o])
  {
    var C := B[p := o];
    BuddySymmetric(p, o);
    forall q: nat | q in C && C[q] < MAX_ORDER - 1
      ensures !BuddyFree(C, q, C[q])
    {
      BuddySymmetric(q, C[q]);
    }
  }

  lemma CoalescedDel(B: Blocks, p: nat)
    requires Coalesced(B)
    ensures Coalesced(B - {p})
  {
    forall q: nat | q in B - {p} && B[q] < MAX_ORDER - 1
      ensures !BuddyFree(B - {p}, q, B[q])
    {
      assert !BuddyFree(B, q, B[q]);
    }
  }

  /** A block and its free buddy, taken off the lists, leave the double-sized block vacant. */
  lemma MergeStep(sp: Span, B: Blocks, p: nat, o: nat)
    requires Placed(sp, B) && Vacant(sp, B, p, o) && o < MAX_ORDER - 1
    requires FindBuddyPfn(p, o) in B && B[FindBuddyPfn(p, o)] == o
    ensures var b := FindBuddyPfn(p, o); var c := And(b, p);
            && Vacant(sp, B - {b}, c, o + 1)
            && Run(c, o + 1) == Run(p, o) + Run(b, o)
  {
    var b := FindBuddyPfn(p, o);
    var c := And(b, p);
    hide Aligned, And, FindBuddyPfn, Run, Pow2;
    BuddyPlace(p, o);
    Pow2Next(o);
    assert Fits(sp, b, o);
    RunDouble(c, o);
    assert Fits(sp, c, o + 1);
    forall q: nat | q in B - {b}
      ensures Apart(c, o + 1, q, B[q])
    {
      assert Apart(p, o, q, B[q]) && Apart(b, o, q, B[q]);
    }
  }

  lemma BuddyPlace(p: nat, o: nat)
    requires Aligned(p, o)
    ensures var b := FindBuddyPfn(p, o); var c := And(b, p);
            && Aligned(c, o + 1)
            && ((c == p && b == c + Pow2(o)) || (c == b && p == c + Pow2(o)))
  {
    BuddyArithmetic(p, o);
  }

  lemma RunDouble(c: nat, o: nat)
    ensures Run(c, o + 1) == Run(c, o) + Run(c + Pow2(o), o)
  {
  }

  /** Splitting a vacant block: the upper half may be freed, its buddy, the lower half, is not free. */
  lemma SplitStep(sp: Span, B: Blocks, p: nat, o: nat)
    requires Placed(sp, B) && Vacant(sp, B, p, o + 1)
    ensures var u := p + Pow2(o);
            && Vacant(sp, B, u, o) && !BuddyFree(B, u, o)
            && FindBuddyPfn(p, o) == u && And(u, p) == p
            && Vacant(sp, B[u := o], p, o)
            && Run(p, o + 1) == Run(p, o) + Run(u, o)
  {
    hide Aligned, And, FindBuddyPfn, Run, Pow2;
    var u := p + Pow2(o);
    AlignedDown(p, o + 1, o);
    AlignedShift(p, o);
    SiblingPfn(p, o);
    BuddyPlace(p, o);
    BuddySymmetric(p, o);
    RunDouble(p, o);
    Pow2Next(o);
    forall q: nat | q in B
      ensures Apart(u, o, q, B[q]) && Apart(p, o, q, B[q])
    {
      assert Apart(p, o + 1, q, B[q]);
    }
  }

  lemma SiblingPfn(a: nat, k: nat)
    requires Aligned(a, k + 1)
    ensures FindBuddyPfn(a, k) == a + Pow2(k)
  {
    SiblingAbove(a, k);
  }

  /** When the lower half of an aligned run is a free block, no free block contains the upper half. */
  lemma UpperHalf(sp: Span, B: Blocks, a: nat, k: nat, q: nat)
    requires Placed(sp, B) && Coalesced(B) && 0 < k < MAX_ORDER && Aligned(a, k)
    requires a in B && B[a] == k - 1
    ensures !(q in B && B[q] >= k - 1 && q <= a + Pow2(k - 1) && a + Pow2(k) <= q + Pow2(B[q]))
  {
    hide Aligned, Pow2, FindBuddyPfn;
    var n := Pow2(k - 1);
    Pow2Next(k - 1);
    AlignedDown(a, k, k - 1);
    SiblingPfn(a, k - 1);
    assert !(a + n in B && B[a + n] == k - 1);
    hide Coalesced, BuddyFree;
    if q in B && B[q] >= k {
      assert Fits(sp, q, B[q]);
      Laminar(a, k, q, B[q]);
      var o, m := B[a], B[q];
      assert a != q ==> Apart(a, o, q, m);
    }
  }

  lemma Holder(B: Blocks, x: nat) returns (p: nat)
    requires Covered(B, x)
    ensures p in B && p <= x && x + Pow2(0) <= p + Pow2(B[p])
  {
    p :| Holds(B, p, x);
  }

  /** In a coalesced zone every naturally aligned free run lies inside one single free block. */
  lemma {:induction false} FreeRunInOneBlock(sp: Span, B: Blocks, a: nat, k: nat) returns (p: nat)
    requires Placed(sp, B) && Coalesced(B)
    requires k < MAX_ORDER && Aligned(a, k) && forall x: nat :: a <= x < a + Pow2(k) ==> Covered(B, x)
    ensures p in B && B[p] >= k && p <= a && a + Pow2(k) <= p + Pow2(B[p])
    decreases k
  {
    hide Aligned, Covered, Coalesced, Pow2;
    if k == 0 {
      p := Holder(B, a);
    } else {
      var n := Pow2(k - 1);
      Pow2Next(k - 1);
      AlignedDown(a, k, k - 1);
      AlignedShift(a, k - 1);
      p := FreeRunInOneBlock(sp, B, a, k - 1);
      assert Fits(sp, p, B[p]);
      if B[p] >= k {
        Laminar(a, k, p, B[p]);
      } else {
        var q := FreeRunInOneBlock(sp, B, a + n, k - 1);
        UpperHalf(sp, B, a, k, q);
        assert false;
      }
    }
  }
}
