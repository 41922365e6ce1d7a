/** move_freepages: the block-by-block walk agrees with a page-by-page one and only relabels blocks. */
module BuddyMove {
  import opened Common
  import opened Bits
  import opened Buddy
  import opened BuddyBlocks
  import opened BuddyInvariant
  import opened BuddyOps

  function Relabel(z: Zone, p: nat, m: nat): Zone {
    Add(Del(z, p, PageOrder(z, p)), p, PageOrder(z, p), m)
  }

  /** The page-by-page reference: visit every page of `p..hi` in turn. */
  function MoveEach(z: Zone, p: nat, hi: nat, m: nat): Moved
    decreases hi + 1 - p
  {
    if p > hi then Moved(z, 0)
    else if p !in z.buddy then MoveEach(z, p + 1, hi, m)
    else
      var rest := MoveEach(Relabel(z, p, m), p + 1, hi, m);
      Moved(rest.z, rest.count + Pow2(PageOrder(z, p)))
  }

  /** The heads of order `o` in `p..hi`, highest first. */
  function HeadsDown(B: Blocks, p: nat, hi: nat, o: nat): seq<nat>
    decreases hi + 1 - p
  {
    if p > hi then []
    else HeadsDown(B, p + 1, hi, o) + (if p in B && B[p] == o then [p] else [])
  }

  /** The total size of the blocks whose head lies in `p..hi`. */
  function TotalSize(B: Blocks, p: nat, hi: nat): nat
    decreases hi + 1 - p
  {
    if p > hi then 0 else (if p in B then Pow2(B[p]) else 0) + TotalSize(B, p + 1, hi)
  }

  /** What stays of a list when the pages of `p..hi` leave it. */
  function Kept(s: seq<nat>, p: nat, hi: nat): seq<nat> {
    if s == [] then []
    else (if p <= s[0] <= hi then [] else [s[0]]) + Kept(s[1..], p, hi)
  }

  /** No page of `p..hi` outside the zone has its flag set. The range itself may reach outside. */
  ghost predicate NoneForeign(z: Zone, p: nat, hi: nat) {
    forall x: nat :: p <= x <= hi && x in z.buddy ==> InZone(z, x)
  }

  /** Nothing but the lists differs. */
  ghost predicate OnlyLists(z: Zone, w: Zone) {
    && w.start == z.start && w.size == z.size && w.nrFree == z.nrFree && w.freePages == z.freePages
    && w.buddy == z.buddy && FreeBlocks(w) == FreeBlocks(z)
  }

  lemma HeadInBlocks(z: Zone, p: nat)
    requires p in z.buddy ==> InZone(z, p)
    ensures p in z.buddy <==> p in FreeBlocks(z)
    ensures p in FreeBlocks(z) ==> FreeBlocks(z)[p] == PageOrder(z, p)
  {
  }

  lemma RelabelGood(z: Zone, p: nat, m: nat)
    requires Good(z) && p in FreeBlocks(z) && m < MIGRATE_TYPES
    ensures Good(Relabel(z, p, m)) && OnlyLists(z, Relabel(z, p, m))
  {
    hide Inv, Coalesced, FreeBlocks, Vacant, Minus;
    BlockOrder(z, p);
    RelabelOrder(z, p);
    var o := FreeBlocks(z)[p];
    var d := Del(z, p, o);
    DelGood(z, p);
    BuddyGone(FreeBlocks(z), p);
    AddGood(d, p, o, m);
    assert (z.buddy - {p}) + {p} == z.buddy;
    assert FreeBlocks(Add(d, p, o, m)) == FreeBlocks(z);
  }

  lemma RelabelOrder(z: Zone, p: nat)
    requires p in FreeBlocks(z)
    ensures p in z.buddy && InZone(z, p) && PageOrder(z, p) == FreeBlocks(z)[p]
  {
  }

  lemma BuddyGone(B: Blocks, p: nat)
    requires Coalesced(B) && p in B
    ensures B[p] < MAX_ORDER - 1 ==> !BuddyFree(B - {p}, p, B[p])
  {
  }

  /** The effect of one relabelling on a list. */
  lemma RelabelList(z: Zone, p: nat, m: nat, o: nat, m': nat)
    requires Inv(z) && p in FreeBlocks(z) && m < MIGRATE_TYPES && o < MAX_ORDER && m' < MIGRATE_TYPES
    ensures List(Relabel(z, p, m), o, m') ==
            (if o == FreeBlocks(z)[p] && m' == m then [p] else []) + Without(List(z, o, m'), p)
  {
    hide FreeBlocks, CountersOk, Placed, ListsOk, Without, PageOrder, Pow2, NrFree;
    BlockOrder(z, p);
    RelabelOrder(z, p);
    var b := FreeBlocks(z)[p];
    var u := Unlink(z.lists, p);
    assert Relabel(z, p, m).lists == u[Slot(b, m) := [p] + u[Slot(b, m)]];
    assert u[Slot(o, m')] == Without(z.lists[Slot(o, m')], p);
  }

  lemma {:induction false} KeptWithout(s: seq<nat>, p: nat, hi: nat)
    requires NoDup(s) && p <= hi
    ensures Kept(Without(s, p), p + 1, hi) == Kept(s, p, hi)
  {
    if s != [] {
      if s[0] == p {
        KeptTail(s[1..], p, hi);
      } else {
        KeptWithout(s[1..], p, hi);
        assert ([s[0]] + Without(s[1..], p))[1..] == Without(s[1..], p);
      }
    }
  }

  lemma {:induction false} KeptTail(s: seq<nat>, p: nat, hi: nat)
    requires p !in s
    ensures Kept(s, p + 1, hi) == Kept(s, p, hi)
  {
    if s != [] { KeptTail(s[1..], p, hi); }
  }

  lemma ListNoDup(z: Zone, o: nat, m: nat, p: nat)
    requires Inv(z)
    ensures NoDup(List(z, o, m))
    ensures p !in FreeBlocks(z) ==> p !in List(z, o, m)
  {
    hide FreeBlocks, CountersOk, Placed;
    assert p in List(z, o, m) ==> On(z.lists, Slot(o, m), p);
  }

  /** The page-by-page walk: only lists change, and it returns the size of the blocks it passed. */
  lemma {:induction false} MoveEachGood(z: Zone, p: nat, hi: nat, m: nat)
    requires Good(z) && NoneForeign(z, p, hi) && m < MIGRATE_TYPES
    ensures var r := MoveEach(z, p, hi, m);
            Good(r.z) && OnlyLists(z, r.z) && r.count == TotalSize(FreeBlocks(z), p, hi)
    decreases hi + 1 - p
  {
    hide Good, FreeBlocks, Relabel, PageOrder;
    if p <= hi {
      HeadInBlocks(z, p);
      if p in z.buddy {
        RelabelGood(z, p, m);
        MoveEachGood(Relabel(z, p, m), p + 1, hi, m);
      } else {
        MoveEachGood(z, p + 1, hi, m);
      }
    }
  }

  /** The blocks in range, highest first, now stand in front on the target list; every list keeps the rest in order. */
  lemma {:induction false} MoveEachLists(z: Zone, p: nat, hi: nat, m: nat, o: nat, m': nat)
    requires Good(z) && NoneForeign(z, p, hi) && m < MIGRATE_TYPES && o < MAX_ORDER && m' < MIGRATE_TYPES
    ensures List(MoveEach(z, p, hi, m).z, o, m') ==
            (if m' == m then HeadsDown(FreeBlocks(z), p, hi, o) else []) + Kept(List(z, o, m'), p, hi)
    decreases hi + 1 - p
  {
    hide Inv, Coalesced, FreeBlocks, Relabel, PageOrder, List, NoDup;
    if p > hi {
      KeptAll(List(z, o, m'), p, hi);
    } else {
      HeadInBlocks(z, p);
      ListNoDup(z, o, m', p);
      if p !in z.buddy {
        KeptTail(List(z, o, m'), p, hi);
        MoveEachLists(z, p + 1, hi, m, o, m');
      } else {
        RelabelGood(z, p, m);
        RelabelList(z, p, m, o, m');
        MoveEachLists(Relabel(z, p, m), p + 1, hi, m, o, m');
        KeptWithout(List(z, o, m'), p, hi);
        KeptFront(p, Without(List(z, o, m'), p), hi);
        var L, K := Without(List(z, o, m'), p), Kept(List(z, o, m'), p, hi);
        var H := HeadsDown(FreeBlocks(z), p + 1, hi, o);
        assert [] + L == L && H + ([p] + K) == (H + [p]) + K && H + [] == H;
      }
    }
  }

  lemma KeptFront(p: nat, s: seq<nat>, hi: nat)
    ensures Kept([p] + s, p + 1, hi) == [p] + Kept(s, p + 1, hi)
  {
    assert ([p] + s)[1..] == s;
  }

  lemma {:induction false} KeptAll(s: seq<nat>, p: nat, hi: nat)
    requires p > hi
    ensures Kept(s, p, hi) == s
  {
    if s != [] { KeptAll(s[1..], p, hi); }
  }

  lemma {:induction false} SkipPages(z: Zone, p: nat, q: nat, hi: nat, m: nat)
    requires p <= q && forall x: nat :: p <= x < q ==> x !in z.buddy
    ensures MoveEach(z, p, hi, m) == MoveEach(z, q, hi, m)
    decreases q - p
  {
    if p < q { SkipPages(z, p + 1, q, hi, m); }
  }

  lemma NoHeadInside(z: Zone, p: nat)
    requires Inv(z) && p in FreeBlocks(z)
    ensures forall x: nat :: p < x < p + Pow2(FreeBlocks(z)[p]) ==> x !in z.buddy
  {
    hide ListsOk, CountersOk;
    var B := FreeBlocks(z);
    forall x: nat | p < x < p + Pow2(B[p])
      ensures x !in z.buddy
    {
      assert Fits(SpanOf(z), p, B[p]);
      assert x in B <==> x in z.buddy && InZone(z, x);
      assert x in B ==> Apart(p, B[p], x, B[x]);
    }
  }

  /** Jumping over each moved block misses nothing: the variable-stride loop is the page-by-page one. */
  lemma {:induction false} MoveRangeIsEach(z: Zone, p: nat, hi: nat, m: nat)
    requires Good(z) && NoneForeign(z, p, hi) && m < MIGRATE_TYPES
    ensures MoveRange(z, p, hi, m) == MoveEach(z, p, hi, m)
    decreases hi + 1 - p
  {
    hide Inv, Coalesced, FreeBlocks, PageOrder, Add, Del;
    if p <= hi {
      HeadInBlocks(z, p);
      if p in z.buddy {
        var o := PageOrder(z, p);
        var z1 := Relabel(z, p, m);
        RelabelGood(z, p, m);
        NoHeadInside(z, p);
        SkipPages(z1, p + 1, p + Pow2(o), hi, m);
        MoveRangeIsEach(z1, p + Pow2(o), hi, m);
      } else {
        MoveRangeIsEach(z, p + 1, hi, m);
      }
    }
  }

  /** The whole specification of move_freepages, on any range. */
  lemma MoveFreepagesExact(z: Zone, lo: nat, hi: nat, m: nat)
    requires Good(z) && NoneForeign(z, lo, hi) && m < MIGRATE_TYPES
    ensures var r := MoveRange(z, lo, hi, m);
            && Good(r.z) && OnlyLists(z, r.z) && r.count == TotalSize(FreeBlocks(z), lo, hi)
            && forall o: nat, k: nat :: o < MAX_ORDER && k < MIGRATE_TYPES ==>
                 List(r.z, o, k) ==
                 (if k == m then HeadsDown(FreeBlocks(z), lo, hi, o) else []) + Kept(List(z, o, k), lo, hi)
  {
    hide Good, FreeBlocks, List;
    MoveRangeIsEach(z, lo, hi, m);
    MoveEachGood(z, lo, hi, m);
    forall o: nat, k: nat | o < MAX_ORDER && k < MIGRATE_TYPES
      ensures List(MoveRange(z, lo, hi, m).z, o, k) ==
              (if k == m then HeadsDown(FreeBlocks(z), lo, hi, o) else []) + Kept(List(z, o, k), lo, hi)
    {
      MoveEachLists(z, lo, hi, m, o, k);
    }
  }

  /** move_freepages_block clamps to the zone, so it too only relabels. */
  lemma MoveBlockGood(z: Zone, p: nat, m: nat)
    requires Good(z) && m < MIGRATE_TYPES
    ensures Good(MoveBlock(z, p, m).z) && OnlyLists(z, MoveBlock(z, p, m).z)
  {
    hide Good, FreeBlocks, MoveRange;
    var first := p - p % Pow2(PAGEBLOCK_ORDER);
    var last := first + Pow2(PAGEBLOCK_ORDER) - 1;
    if last < z.start + z.size {
      MoveFreepagesExact(z, if first < z.start then z.start else first, last, m);
    }
  }
}
