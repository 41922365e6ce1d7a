/** Which block an allocation takes, and what it does to every single list. */
module BuddyFit {
  import opened Common
  import opened Bits
  import opened Buddy
  import opened BuddyBlocks
  import opened BuddyInvariant
  import opened BuddyOps
  import opened BuddyMove

  /** Adding a block puts it in front of its own list only. */
  lemma AddList(z: Zone, p: nat, o: nat, m: nat, h: nat, k: nat)
    ensures List(Add(z, p, o, m), h, k) == (if h == o && k == m then [p] else []) + List(z, h, k)
  {
  }

  /** Splitting from `high` to `low` puts one upper half in front of each list in between, and nothing else. */
  lemma {:induction false} ExpandLists(z: Zone, p: nat, low: nat, high: nat, m: nat, h: nat, k: nat)
    ensures List(Expand(z, p, low, high, m), h, k) ==
            (if low <= h < high && k == m then [p + Pow2(h)] else []) + List(z, h, k)
    decreases high
  {
    hide Pow2, Add, List;
    if low < high {
      AddList(z, p + Pow2(high - 1), high - 1, m, h, k);
      ExpandLists(Add(z, p + Pow2(high - 1), high - 1, m), p, low, high - 1, m, h, k);
    } else {
      assert [] + List(z, h, k) == List(z, h, k);
    }
  }

  /** Taking the first block off a list leaves every other list alone. */
  lemma DelFront(z: Zone, c: nat, f: nat, h: nat, k: nat)
    requires Inv(z) && List(z, c, f) != []
    ensures List(Del(z, List(z, c, f)[0], c), h, k) ==
            if h == c && k == f then List(z, h, k)[1..] else List(z, h, k)
  {
    hide FreeBlocks, CountersOk, Placed, Pow2;
    var p := List(z, c, f)[0];
    assert On(z.lists, Slot(c, f), p);
    if Slot(h, k) in z.lists && !(h == c && k == f) {
      assert !On(z.lists, Slot(h, k), p);
      WithoutMember(z.lists[Slot(h, k)], p);
    }
  }

  /**
   List by list: the first block of list `(c, f)` is gone, and the halves split off it on the way down from
   order `c` to order `o` head the lists of type `m`.
   */
  ghost predicate TakenFrom(z: Zone, t: Taken, c: nat, f: nat, o: nat, m: nat) {
    && o <= c < MAX_ORDER && List(z, c, f) != [] && t.got == Got(List(z, c, f)[0])
    && forall h: nat, k: nat ::
         List(t.z, h, k) ==
         (if o <= h < c && k == m then [t.got.pfn + Pow2(h)] else [])
         + (if h == c && k == f then List(z, h, k)[1..] else List(z, h, k))
  }

  lemma TakeExact(z: Zone, c: nat, f: nat, o: nat, m: nat)
    requires Inv(z) && List(z, c, f) != [] && o <= c < MAX_ORDER
    ensures var p := List(z, c, f)[0]; TakenFrom(z, Taken(Expand(Del(z, p, c), p, o, c, m), Got(p)), c, f, o, m)
  {
    hide Inv, List, Del, Expand, Pow2;
    var p := List(z, c, f)[0];
    forall h: nat, k: nat
      ensures List(Expand(Del(z, p, c), p, o, c, m), h, k) ==
              (if o <= h < c && k == m then [p + Pow2(h)] else [])
              + (if h == c && k == f then List(z, h, k)[1..] else List(z, h, k))
    {
      ExpandLists(Del(z, p, c), p, o, c, m, h, k);
      DelFront(z, c, f, h, k);
    }
  }

  /** __rmqueue_smallest takes the first block of the lowest sufficient order of its own type. */
  lemma {:induction false} SmallestFit(z: Zone, cur: nat, o: nat, m: nat) returns (c: nat)
    requires Inv(z) && o <= cur && Smallest(z, cur, o, m).got.Got?
    ensures cur <= c && TakenFrom(z, Smallest(z, cur, o, m), c, m, o, m)
    ensures forall d: nat :: cur <= d < c ==> List(z, d, m) == []
    decreases MAX_ORDER - cur
  {
    hide Inv, List, Del, Expand, TakenFrom;
    if List(z, cur, m) == [] {
      c := SmallestFit(z, cur + 1, o, m);
    } else {
      c := cur;
      TakeExact(z, cur, m, o, m);
    }
  }

  /** The first type of a table row with a block of order `o`. */
  ghost predicate FirstOf(z: Zone, o: nat, row: seq<nat>, f: nat) {
    exists i :: 0 <= i < |row| && row[i] == f && List(z, o, f) != []
                && forall j :: 0 <= j < i ==> List(z, o, row[j]) == []
  }

  lemma {:induction false} FirstNonEmptyIs(z: Zone, o: nat, row: seq<nat>)
    requires FirstNonEmpty(z, o, row) != []
    ensures FirstOf(z, o, row, FirstNonEmpty(z, o, row)[0])
  {
    hide List;
    if List(z, o, row[0]) == [] {
      FirstNonEmptyIs(z, o, row[1..]);
      var f := FirstNonEmpty(z, o, row)[0];
      var i :| 0 <= i < |row[1..]| && row[1..][i] == f && (forall j :: 0 <= j < i ==> List(z, o, row[1..][j]) == []);
      forall j | 0 <= j < i + 1
        ensures List(z, o, row[j]) == []
      {
        if j > 0 { assert row[j] == row[1..][j - 1]; }
      }
      assert row[i + 1] == f;
    } else {
      assert row[0] == FirstNonEmpty(z, o, row)[0];
    }
  }

  /** __rmqueue_fallback takes from the highest order any fallback type has, by table preference, and files
      the remainders under the requested type. */
  lemma {:induction false} FallbackFit(z: Zone, cur: nat, o: nat, m: nat) returns (c: nat, f: nat)
    requires Inv(z) && m != MIGRATE_RESERVE && cur < MAX_ORDER && FallbackFrom(z, cur, o, m).got.Got?
    ensures c <= cur && TakenFrom(z, FallbackFrom(z, cur, o, m), c, f, o, m) && FirstOf(z, c, Fallbacks(m), f)
    ensures forall d: nat :: c < d <= cur ==> !SomeFallback(z, d, m)
    decreases cur
  {
    hide Inv, List, FindSuitable, Del, Expand, Steal, SomeFallback, TakenFrom, FirstOf, Fallbacks;
    FindSuitableExact(z, cur, m);
    match FindSuitable(z, cur, m)
    case NoFallback =>
      c, f := FallbackFit(z, cur - 1, o, m);
    case Fallback(fm, canSteal) =>
      c, f := cur, fm;
      SuitableFirst(z, cur, m);
      StealDoesNothing(z, List(z, cur, fm)[0], cur, m);
      TakeExact(z, cur, fm, o, m);
  }

  lemma SuitableFirst(z: Zone, o: nat, m: nat)
    requires m != MIGRATE_RESERVE && FindSuitable(z, o, m).Fallback?
    ensures FirstOf(z, o, Fallbacks(m), FindSuitable(z, o, m).mt)
  {
    hide List, FirstOf;
    FirstNonEmptyIs(z, o, Fallbacks(m));
  }

  // ----- freeing

  lemma {:induction false} KeptDrop(s: seq<nat>, b: nat, lo: nat, hi: nat)
    requires lo <= b <= hi
    ensures Kept(Without(s, b), lo, hi) == Kept(s, lo, hi)
  {
    if s != [] && s[0] != b {
      KeptDrop(s[1..], b, lo, hi);
      assert ([s[0]] + Without(s[1..], b))[1..] == Without(s[1..], b);
    }
  }

  lemma {:induction false} KeptNone(s: seq<nat>, lo: nat, hi: nat)
    requires forall x: nat :: x in s ==> !(lo <= x <= hi)
    ensures Kept(s, lo, hi) == s
  {
    if s != [] {
      assert s[0] in s && forall x: nat :: x in s[1..] ==> x in s;
      KeptNone(s[1..], lo, hi);
    }
  }

  lemma VacantLists(z: Zone, p: nat, o: nat, h: nat, k: nat)
    requires Inv(z) && VacantIn(z, p, o)
    ensures Kept(List(z, h, k), p, p + Pow2(o) - 1) == List(z, h, k)
  {
    hide CountersOk, Kept;
    forall x: nat | x in List(z, h, k)
      ensures !(p <= x <= p + Pow2(o) - 1)
    {
      assert On(z.lists, Slot(h, k), x);
      assert Apart(p, o, x, FreeBlocks(z)[x]);
    }
    KeptNone(List(z, h, k), p, p + Pow2(o) - 1);
  }

  /** The merged block encloses the freed one, and the blocks merged into it are those inside it. */
  lemma {:induction false} MergeLists(z: Zone, p: nat, o: nat, h: nat, k: nat)
    requires Good(z) && VacantIn(z, p, o)
    ensures var r := Merge(z, p, o);
            && o <= r.order && r.pfn <= p && p + Pow2(o) <= r.pfn + Pow2(r.order)
            && List(r.z, h, k) == Kept(List(z, h, k), r.pfn, r.pfn + Pow2(r.order) - 1)
    decreases MAX_ORDER - o
  {
    hide Inv, Coalesced, VacantIn, FreeSet, Run, Pow2, FindBuddyPfn, And, Kept, PageIsBuddy, Without, Del, List;
    VacantLists(z, p, o, h, k);
    if o < MAX_ORDER - 1 && PageIsBuddy(z, FindBuddyPfn(p, o), o) {
      var b := FindBuddyPfn(p, o);
      var d := Del(z, b, o);
      MergeStepGood(z, p, o);
      MergeLists(d, And(b, p), o + 1, h, k);
      Enclosed(z, p, o);
      var r := Merge(d, And(b, p), o + 1);
      assert Merge(z, p, o) == r;
      DelList(z, b, o, h, k);
      hide Merge;
      KeptDrop(List(z, h, k), b, r.pfn, r.pfn + Pow2(r.order) - 1);
    }
  }

  lemma DelList(z: Zone, b: nat, o: nat, h: nat, k: nat)
    ensures List(Del(z, b, o), h, k) == Without(List(z, h, k), b)
  {
  }

  lemma Enclosed(z: Zone, p: nat, o: nat)
    requires VacantIn(z, p, o)
    ensures var b := FindBuddyPfn(p, o); var c := And(b, p);
            c <= p && p + Pow2(o) <= c + Pow2(o + 1) && c <= b && b + Pow2(o) <= c + Pow2(o + 1)
  {
    hide Aligned, And, FindBuddyPfn;
    BuddyPlace(p, o);
  }

  /**
   __free_one_page, list by list: the freed block has grown to a block around it, which now heads the list of
   its order and type; every list has lost exactly the blocks inside it; and the block could not grow further.
   */
  lemma FreeExact(z: Zone, p: nat, o: nat, m: nat) returns (q: nat, j: nat)
    requires Good(z) && VacantIn(z, p, o) && m < MIGRATE_TYPES
    ensures o <= j < MAX_ORDER && Aligned(q, j) && q <= p && p + Pow2(o) <= q + Pow2(j)
    ensures j < MAX_ORDER - 1 ==> !BuddyFree(FreeBlocks(FreeOnePage(z, p, o, m)), q, j)
    ensures forall h: nat, k: nat ::
              List(FreeOnePage(z, p, o, m), h, k) ==
              (if h == j && k == m then [q] else []) + Kept(List(z, h, k), q, q + Pow2(j) - 1)
  {
    hide Inv, Coalesced, VacantIn, FreeSet, Run, Pow2, Kept, Merge, FreeBlocks, BuddyFree, Add, List, NoFreeBuddy, Aligned;
    var r := Merge(z, p, o);
    q, j := r.pfn, r.order;
    MergeGood(z, p, o);
    MergeLists(z, p, o, 0, 0);
    GrownBlock(r.z, q, j, m);
    forall h: nat, k: nat
      ensures List(FreeOnePage(z, p, o, m), h, k) ==
              (if h == j && k == m then [q] else []) + Kept(List(z, h, k), q, q + Pow2(j) - 1)
    {
      MergeLists(z, p, o, h, k);
      AddList(r.z, q, j, m, h, k);
    }
  }

  lemma GrownBlock(z: Zone, q: nat, j: nat, m: nat)
    requires VacantIn(z, q, j) && NoFreeBuddy(z, q, j)
    ensures j < MAX_ORDER && Aligned(q, j)
    ensures j < MAX_ORDER - 1 ==> !BuddyFree(FreeBlocks(Add(z, q, j, m)), q, j)
  {
    AddBlocks(z, q, j, m);
    BuddySymmetric(q, j);
    hide FreeBlocks;
  }
}
