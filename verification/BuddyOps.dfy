/** Every allocator operation keeps the zone well formed and coalesced, and says which pages it moved. */
module BuddyOps {
  import opened Bits
  import opened Buddy
  import opened BuddyBlocks
  import opened BuddyInvariant

  ghost predicate Good(z: Zone) {
    Inv(z) && Coalesced(FreeBlocks(z))
  }

  ghost predicate VacantIn(z: Zone, p: nat, o: nat) {
    Vacant(SpanOf(z), FreeBlocks(z), p, o)
  }

  ghost predicate NoFreeBuddy(z: Zone, p: nat, o: nat) {
    o < MAX_ORDER - 1 ==> !BuddyFree(FreeBlocks(z), p, o)
  }

  /** `z'` is `z` with the pages of block `(p, o)` taken out of its free set. */
  ghost predicate Minus(z: Zone, z': Zone, p: nat, o: nat) {
    SpanOf(z') == SpanOf(z) && FreeSet(z) == FreeSet(z') + Run(p, o) && FreeSet(z') !! Run(p, o)
  }

  lemma DelGood(z: Zone, p: nat)
    requires Good(z) && p in FreeBlocks(z)
    ensures var o := FreeBlocks(z)[p]; var d := Del(z, p, o);
            Good(d) && VacantIn(d, p, o) && Minus(z, d, p, o) && FreeBlocks(d) == FreeBlocks(z) - {p}
  {
    hide Inv, FreeBlocks, Placed, Coalesced, Vacant, Pages, Run;
    DelInv(z, p);
    DelBlocks(z, p, FreeBlocks(z)[p]);
    DelPlaced(z, p);
    CoalescedDel(FreeBlocks(z), p);
    DelFreeSet(z, p);
  }

  lemma DelFreeSet(z: Zone, p: nat)
    requires Inv(z) && p in FreeBlocks(z)
    ensures Minus(z, Del(z, p, FreeBlocks(z)[p]), p, FreeBlocks(z)[p])
  {
    hide FreeBlocks, Placed, Pages, Run, ListsOk, SlotsOk, CountersOk;
    DelBlocks(z, p, FreeBlocks(z)[p]);
    PagesDel(SpanOf(z), FreeBlocks(z), p);
  }

  lemma AddGood(z: Zone, p: nat, o: nat, m: nat)
    requires Good(z) && VacantIn(z, p, o) && NoFreeBuddy(z, p, o) && m < MIGRATE_TYPES
    ensures var a := Add(z, p, o, m);
            Good(a) && Minus(a, z, p, o) && FreeBlocks(a) == FreeBlocks(z)[p := o]
  {
    hide FreeBlocks, Placed, Coalesced, Pages, Run, ListsOk, SlotsOk, CountersOk, Aligned, BuddyFree;
    AddInv(z, p, o, m);
    AddBlocks(z, p, o, m);
    CoalescedAdd(SpanOf(z), FreeBlocks(z), p, o);
    PagesAdd(SpanOf(z), FreeBlocks(z), p, o);
  }

  // ----- freeing

  lemma MergeStepGood(z: Zone, p: nat, o: nat)
    requires Good(z) && VacantIn(z, p, o) && o < MAX_ORDER - 1
    requires PageIsBuddy(z, FindBuddyPfn(p, o), o)
    ensures var b := FindBuddyPfn(p, o); var d := Del(z, b, o); var c := And(b, p);
            && Good(d) && SpanOf(d) == SpanOf(z) && VacantIn(d, c, o + 1)
            && FreeSet(d) + Run(c, o + 1) == FreeSet(z) + Run(p, o)
  {
    hide FreeBlocks, FreeSet, Placed, Coalesced, Vacant, Run, ListsOk, SlotsOk, CountersOk, Del,
      PageIsBuddy, FindBuddyPfn, And, Minus, SpanOf;
    var b := FindBuddyPfn(p, o);
    BuddyListed(z, b, o);
    DelGood(z, b);
    MergeStep(SpanOf(z), FreeBlocks(z), p, o);
    MinusMerge(z, Del(z, b, o), b, o, p, And(b, p));
  }

  lemma BuddyListed(z: Zone, b: nat, o: nat)
    requires PageIsBuddy(z, b, o)
    ensures b in FreeBlocks(z) && FreeBlocks(z)[b] == o
  {
  }

  lemma MinusMerge(z: Zone, d: Zone, b: nat, o: nat, p: nat, c: nat)
    requires Minus(z, d, b, o) && Run(c, o + 1) == Run(p, o) + Run(b, o)
    ensures SpanOf(d) == SpanOf(z) && FreeSet(d) + Run(c, o + 1) == FreeSet(z) + Run(p, o)
  {
    hide FreeSet, Run;
  }

  /** The merging loop leaves a vacant block without a free buddy that spans everything it took off the lists. */
  lemma {:induction false} MergeGood(z: Zone, p: nat, o: nat)
    requires Good(z) && VacantIn(z, p, o)
    ensures var r := Merge(z, p, o);
            && Good(r.z) && SpanOf(r.z) == SpanOf(z)
            && VacantIn(r.z, r.pfn, r.order) && NoFreeBuddy(r.z, r.pfn, r.order)
            && FreeSet(r.z) + Run(r.pfn, r.order) == FreeSet(z) + Run(p, o)
    decreases MAX_ORDER - o
  {
    hide Good, VacantIn, FreeSet, Run, Del, FindBuddyPfn;
    if o < MAX_ORDER - 1 && PageIsBuddy(z, FindBuddyPfn(p, o), o) {
      MergeStepGood(z, p, o);
      MergeGood(Del(z, FindBuddyPfn(p, o), o), And(FindBuddyPfn(p, o), p), o + 1);
    }
  }

  lemma FreeGood(z: Zone, p: nat, o: nat, m: nat)
    requires Good(z) && VacantIn(z, p, o) && m < MIGRATE_TYPES
    ensures var f := FreeOnePage(z, p, o, m); Good(f) && Minus(f, z, p, o)
  {
    hide Good, FreeSet, FreeBlocks, Placed, Vacant, Run, Merge, Add, NoFreeBuddy;
    MergeGood(z, p, o);
    var r := Merge(z, p, o);
    AddGood(r.z, r.pfn, r.order, m);
    VacantDisjoint(z, p, o);
  }

  lemma VacantDisjoint(z: Zone, p: nat, o: nat)
    requires VacantIn(z, p, o)
    ensures FreeSet(z) !! Run(p, o)
  {
    PagesAdd(SpanOf(z), FreeBlocks(z), p, o);
  }

  // ----- allocating

  lemma ExpandStepGood(z: Zone, p: nat, h: nat, m: nat)
    requires Good(z) && VacantIn(z, p, h + 1) && m < MIGRATE_TYPES
    ensures var u := p + Pow2(h); var a := Add(z, u, h, m);
            && Good(a) && SpanOf(a) == SpanOf(z) && VacantIn(a, p, h)
            && FreeSet(a) + Run(p, h) == FreeSet(z) + Run(p, h + 1)
  {
    hide FreeBlocks, FreeSet, Placed, Coalesced, Vacant, Run, ListsOk, SlotsOk, CountersOk, Add, Pow2;
    SplitStep(SpanOf(z), FreeBlocks(z), p, h);
    AddGood(z, p + Pow2(h), h, m);
  }

  lemma {:induction false} ExpandGood(z: Zone, p: nat, low: nat, high: nat, m: nat)
    requires Good(z) && low <= high && VacantIn(z, p, high) && m < MIGRATE_TYPES
    ensures var e := Expand(z, p, low, high, m);
            && Good(e) && SpanOf(e) == SpanOf(z) && VacantIn(e, p, low)
            && FreeSet(e) + Run(p, low) == FreeSet(z) + Run(p, high)
    decreases high
  {
    hide Good, VacantIn, FreeSet, Run, Add, Pow2;
    if low < high {
      ExpandStepGood(z, p, high - 1, m);
      ExpandGood(Add(z, p + Pow2(high - 1), high - 1, m), p, low, high - 1, m);
    }
  }

  /** Taking a block of order `cur` off its list and splitting it down to order `o`. */
  lemma TakeGood(z: Zone, p: nat, o: nat, cur: nat, m: nat)
    requires Good(z) && o <= cur && m < MIGRATE_TYPES && p in FreeBlocks(z) && FreeBlocks(z)[p] == cur
    ensures var e := Expand(Del(z, p, cur), p, o, cur, m); Good(e) && VacantIn(e, p, o) && Minus(z, e, p, o)
  {
    hide Good, VacantIn, FreeSet, FreeBlocks, Run, Del, Expand;
    var d := Del(z, p, cur);
    DelGood(z, p);
    ExpandGood(d, p, o, cur, m);
    VacantDisjoint(Expand(d, p, o, cur, m), p, o);
  }

  lemma ListHead(z: Zone, o: nat, m: nat)
    requires Inv(z) && List(z, o, m) != []
    ensures var p := List(z, o, m)[0]; p in FreeBlocks(z) && FreeBlocks(z)[p] == o
    ensures o < MAX_ORDER && m < MIGRATE_TYPES
  {
    assert On(z.lists, Slot(o, m), List(z, o, m)[0]);
  }

  /** What an allocation of order `o` does to the zone: it hands out one vacant block, or changes nothing. */
  ghost predicate Allocated(z: Zone, t: Taken, o: nat) {
    && Good(t.z)
    && (t.got.Got? ==> VacantIn(t.z, t.got.pfn, o) && Minus(z, t.z, t.got.pfn, o))
    && (!t.got.Got? ==> t.z == z)
  }

  lemma {:induction false} SmallestGood(z: Zone, cur: nat, o: nat, m: nat)
    requires Good(z) && o <= cur
    ensures Allocated(z, Smallest(z, cur, o, m), o)
    ensures Smallest(z, cur, o, m).got.Got? <==> exists c: nat :: cur <= c < MAX_ORDER && List(z, c, m) != []
    decreases MAX_ORDER - cur
  {
    hide Inv, Coalesced, VacantIn, Minus, FreeBlocks, Del, Expand, List;
    if cur < MAX_ORDER {
      if List(z, cur, m) == [] {
        SmallestGood(z, cur + 1, o, m);
      } else {
        ListHead(z, cur, m);
        TakeGood(z, List(z, cur, m)[0], o, cur, m);
      }
    }
  }

  /** The delete before it has zeroed the private field, so stealing never moves anything. */
  lemma StealDoesNothing(z: Zone, p: nat, o: nat, m: nat)
    ensures Steal(Del(z, p, o), p, m) == Del(z, p, o)
  {
    assert PageOrder(Del(z, p, o), p) == 0;
  }

  /** The counter test of find_suitable_fallback hides nothing: it fails exactly when the row's lists are empty. */
  lemma FindSuitableExact(z: Zone, o: nat, m: nat)
    requires Inv(z) && m != MIGRATE_RESERVE
    ensures FindSuitable(z, o, m).NoFallback? <==> !SomeFallback(z, o, m)
  {
    hide ListsOk, Placed, FreeBlocks, PageCount, Weighted;
    if NrFree(z, o) == 0 && o < MAX_ORDER {
      assert Count(z.lists, o) == 0;
      assert forall f: nat :: f < 3 ==> |List(z, o, f)| == Len(z.lists, o, f) == 0;
    }
  }

  ghost predicate SomeFallback(z: Zone, o: nat, m: nat)
    requires m != MIGRATE_RESERVE
  {
    exists f :: f in Fallbacks(m) && List(z, o, f) != []
  }

  /** With order 0 and nothing to find, the unsigned countdown leaves the array; otherwise it does not. */
  lemma {:induction false} FallbackGood(z: Zone, cur: nat, o: nat, m: nat)
    requires Good(z) && m < MIGRATE_TYPES && m != MIGRATE_RESERVE
    ensures Allocated(z, FallbackFrom(z, cur, o, m), o)
    ensures FallbackFrom(z, cur, o, m).got.Got? <==> exists c: nat :: o <= c <= cur && SomeFallback(z, c, m)
    ensures !FallbackFrom(z, cur, o, m).got.Got? ==> (FallbackFrom(z, cur, o, m).got.OutOfBounds? <==> o == 0)
    decreases cur
  {
    hide Inv, Coalesced, VacantIn, Minus, FreeBlocks, Del, Expand, List, Steal, FindSuitable, SomeFallback;
    if o <= cur {
      FindSuitableExact(z, cur, m);
      match FindSuitable(z, cur, m)
      case NoFallback =>
        if cur > 0 { FallbackGood(z, cur - 1, o, m); }
      case Fallback(fm, canSteal) =>
        var p := List(z, cur, fm)[0];
        ListHead(z, cur, fm);
        StealDoesNothing(z, p, cur, m);
        TakeGood(z, p, o, cur, m);
    }
  }

  /** The witness: in the zone init_zone leaves, a fallback allocation of order 0 runs out of the array. */
  lemma InitialRunAway(start: nat, size: nat, m: nat)
    requires m < MIGRATE_TYPES && m != MIGRATE_RESERVE
    ensures RmqueueFallback(InitZone(start, size, {}, map[]), 0, m).got == OutOfBounds
  {
    var z := InitZone(start, size, {}, map[]);
    InitOk(start, size, {}, map[]);
    assert forall c: nat, f: nat :: List(z, c, f) == [];
    assert Coalesced(FreeBlocks(z));
    assert forall c: nat :: !SomeFallback(z, c, m);
    hide InitZone, List, Inv, Coalesced, FreeBlocks, SomeFallback;
    FallbackGood(z, MAX_ORDER - 1, 0, m);
  }
}
