/** Allocating a block and freeing it again restores every list and counter; failed searches are complete. */
module BuddyRoundTrip {
  import opened Common
  import opened Bits
  import opened Buddy
  import opened BuddyBlocks
  import opened BuddyInvariant
  import opened BuddyOps

  /** Equal up to the private fields of pages that are not free heads. */
  ghost predicate Same(z: Zone, w: Zone) {
    w.(priv := z.priv) == z && FreeBlocks(w) == FreeBlocks(z)
  }

  lemma UnlinkOther(lists: Lists, B: Blocks, p: nat)
    requires ListsOk(lists, B) && p !in B
    ensures Unlink(lists, p) == lists
  {
    forall s | s in lists
      ensures Without(lists[s], p) == lists[s]
    {
      WithoutMember(lists[s], p);
      assert !On(lists, s, p);
    }
  }

  /** Pushing a block that is on no list and unlinking it again changes no list. */
  lemma UnlinkPushed(lists: Lists, B: Blocks, p: nat, s0: Slot)
    requires ListsOk(lists, B) && p !in B && s0 in lists
    ensures Unlink(lists[s0 := [p] + lists[s0]], p) == lists
  {
    UnlinkOther(lists, B, p);
    var l := lists[s0 := [p] + lists[s0]];
    forall s | s in lists
      ensures Without(l[s], p) == lists[s]
    {
      assert Unlink(lists, p)[s] == Without(lists[s], p);
    }
  }

  /** Unlinking the first block of a list and pushing it back changes no list. */
  lemma PushUnlinked(lists: Lists, B: Blocks, s0: Slot)
    requires ListsOk(lists, B) && s0 in lists && lists[s0] != []
    ensures var p := lists[s0][0]; var u := Unlink(lists, p); u[s0 := [p] + u[s0]] == lists
  {
    var p := lists[s0][0];
    var u := Unlink(lists, p);
    assert On(lists, s0, p);
    forall s | s in lists && s != s0
      ensures u[s] == lists[s]
    {
      assert !On(lists, s, p);
      WithoutMember(lists[s], p);
    }
    assert [p] + lists[s0][1..] == lists[s0];
  }

  lemma DelUndoesAdd(z: Zone, w: Zone, u: nat, o: nat, m: nat)
    requires Inv(z) && VacantIn(z, u, o) && m < MIGRATE_TYPES && Same(Add(z, u, o, m), w)
    ensures Same(z, Del(w, u, o))
  {
    hide FreeBlocks, CountersOk, Placed, Vacant, Unlink, ListsOk;
    VacantHead(z, u, o);
    AddBlocks(z, u, o, m);
    DelBlocks(w, u, o);
    UnlinkPushed(z.lists, FreeBlocks(z), u, Slot(o, m));
    assert FreeBlocks(Del(w, u, o)) == FreeBlocks(z);
    assert (z.buddy + {u}) - {u} == z.buddy;
  }

  lemma VacantHead(z: Zone, u: nat, o: nat)
    requires Inv(z) && VacantIn(z, u, o)
    ensures u !in z.buddy && u !in FreeBlocks(z) && InZone(z, u) && o < MAX_ORDER && o in z.nrFree
  {
    PagesAdd(SpanOf(z), FreeBlocks(z), u, o);
    assert u in FreeBlocks(z) <==> u in z.buddy && InZone(z, u);
  }

  /** The merging loop takes back exactly what the splitting loop put on the lists. */
  lemma {:induction false} MergeUndoesExpand(z: Zone, p: nat, low: nat, high: nat, m: nat) returns (w: Zone)
    requires Good(z) && VacantIn(z, p, high) && low <= high && m < MIGRATE_TYPES
    ensures Same(z, w) && Merge(Expand(z, p, low, high, m), p, low) == Merge(w, p, high)
    decreases high
  {
    hide Inv, Coalesced, FreeBlocks, VacantIn, Pow2, Del, Add, Same, And, FindBuddyPfn, PageIsBuddy;
    if low == high {
      w := z;
      SameRefl(z);
    } else {
      var o := high - 1;
      var u := p + Pow2(o);
      SplitIsBuddy(z, p, o, m);
      ExpandStepGood(z, p, o, m);
      w := MergeUndoesExpand(Add(z, u, o, m), p, low, o, m);
      SameBuddy(Add(z, u, o, m), w, u, o);
      DelUndoesAdd(z, w, u, o, m);
      w := Del(w, u, o);
    }
  }

  lemma SameRefl(z: Zone)
    ensures Same(z, z)
  {
  }

  lemma SplitIsBuddy(z: Zone, p: nat, o: nat, m: nat)
    requires Good(z) && VacantIn(z, p, o + 1)
    ensures var u := p + Pow2(o);
            && FindBuddyPfn(p, o) == u && And(u, p) == p && o < MAX_ORDER - 1
            && VacantIn(z, u, o) && PageIsBuddy(Add(z, u, o, m), u, o)
  {
    SplitStep(SpanOf(z), FreeBlocks(z), p, o);
  }

  lemma SameBuddy(z: Zone, w: Zone, b: nat, o: nat)
    requires Same(z, w)
    ensures PageIsBuddy(w, b, o) <==> PageIsBuddy(z, b, o)
  {
    assert PageIsBuddy(w, b, o) <==> b in FreeBlocks(w) && FreeBlocks(w)[b] == o;
    assert PageIsBuddy(z, b, o) <==> b in FreeBlocks(z) && FreeBlocks(z)[b] == o;
  }

  /** Freeing back a list's first block, once it is whole again. */
  lemma AddUndoesDel(z: Zone, w: Zone, o: nat, m: nat)
    requires Inv(z) && List(z, o, m) != [] && Same(Del(z, List(z, o, m)[0], o), w)
    ensures Same(z, Add(w, List(z, o, m)[0], o, m))
  {
    hide FreeBlocks, CountersOk, Placed, ListsOk, Unlink;
    var p := List(z, o, m)[0];
    ListHead(z, o, m);
    HeadFacts(z, p);
    DelBlocks(z, p, o);
    AddBlocks(w, p, o, m);
    PushUnlinked(z.lists, FreeBlocks(z), Slot(o, m));
    UnlinkKeys(z.lists, p);
    assert FreeBlocks(Add(w, p, o, m)) == FreeBlocks(z);
    assert (z.buddy - {p}) + {p} == z.buddy;
  }

  lemma UnlinkKeys(lists: Lists, p: nat)
    ensures Unlink(lists, p).Keys == lists.Keys
  {
  }

  lemma HeadFacts(z: Zone, p: nat)
    requires Inv(z) && p in FreeBlocks(z)
    ensures p in z.buddy && InZone(z, p) && FreeBlocks(z)[p] < MAX_ORDER && FreeBlocks(z)[p] in z.nrFree
  {
    BlockOrder(z, p);
  }

  lemma {:induction false} RoundTripFrom(z: Zone, cur: nat, o: nat, m: nat)
    requires Good(z) && o <= cur && m < MIGRATE_TYPES && Smallest(z, cur, o, m).got.Got?
    ensures var t := Smallest(z, cur, o, m); Same(z, FreeOnePage(t.z, t.got.pfn, o, m))
    decreases MAX_ORDER - cur
  {
    hide Inv, Coalesced, FreeBlocks, VacantIn, Minus, Add, Del, Same, Expand;
    if List(z, cur, m) == [] {
      RoundTripFrom(z, cur + 1, o, m);
    } else {
      var p := List(z, cur, m)[0];
      var d := Del(z, p, cur);
      ListHead(z, cur, m);
      DelGood(z, p);
      var w := MergeUndoesExpand(d, p, o, cur, m);
      NoBuddyLeft(z, d, w, p, cur);
      AddUndoesDel(z, w, cur, m);
    }
  }

  lemma NoBuddyLeft(z: Zone, d: Zone, w: Zone, p: nat, o: nat)
    requires Good(z) && p in FreeBlocks(z) && FreeBlocks(z)[p] == o
    requires FreeBlocks(d) == FreeBlocks(z) - {p} && Same(d, w)
    ensures Merge(w, p, o) == Merged(w, p, o)
  {
    var b := FindBuddyPfn(p, o);
    assert PageIsBuddy(w, b, o) <==> b in FreeBlocks(w) && FreeBlocks(w)[b] == o;
  }

  /** The exact round trip: allocate at any order, free with the same type, and nothing has changed. */
  lemma RoundTrip(z: Zone, o: nat, m: nat)
    requires Good(z) && m < MIGRATE_TYPES && RmqueueSmallest(z, o, m).got.Got?
    ensures var t := RmqueueSmallest(z, o, m);
            var f := FreeOnePage(t.z, t.got.pfn, o, m);
            && f.lists == z.lists && f.nrFree == z.nrFree && f.freePages == z.freePages
            && f.buddy == z.buddy && FreeBlocks(f) == FreeBlocks(z)
  {
    hide FreeOnePage, FreeBlocks, Good, Smallest;
    RoundTripFrom(z, o, o, m);
  }

  // ----- completeness

  /** All free blocks are on lists of the three ordinary types. */
  ghost predicate Ordinary(z: Zone) {
    forall s :: s in z.lists && s.mt >= 3 ==> z.lists[s] == []
  }

  /** A naturally aligned run of `2^o` pages, all free. */
  ghost predicate FreeRun(z: Zone, a: nat, o: nat) {
    Aligned(a, o) && Run(a, o) <= FreeSet(z)
  }

  lemma RmqueueGood(z: Zone, o: nat, m: nat)
    requires Good(z) && m < MIGRATE_TYPES && m != MIGRATE_RESERVE
    ensures Allocated(z, Rmqueue(z, o, m), o)
    ensures !Rmqueue(z, o, m).got.Got? ==> (Rmqueue(z, o, m).got.OutOfBounds? <==> o == 0)
    ensures Rmqueue(z, o, m).got.Got? <==>
            exists c: nat, f: nat :: o <= c < MAX_ORDER && f in [m] + Fallbacks(m) && List(z, c, f) != []
  {
    hide Good, VacantIn, Minus, Smallest, FallbackFrom, List;
    SmallestGood(z, o, o, m);
    FallbackGood(z, MAX_ORDER - 1, o, m);
    if Rmqueue(z, o, m).got.Got? {
      if c: nat :| o <= c < MAX_ORDER && List(z, c, m) != [] {
        assert m in [m] + Fallbacks(m);
      } else {
        var c: nat :| o <= c <= MAX_ORDER - 1 && SomeFallback(z, c, m);
        var f :| f in Fallbacks(m) && List(z, c, f) != [];
        assert f in [m] + Fallbacks(m);
      }
    }
    if c: nat, f: nat :| o <= c < MAX_ORDER && f in [m] + Fallbacks(m) && List(z, c, f) != [] {
      assert f == m || SomeFallback(z, c, m);
    }
  }

  /** A free run inside a zone of ordinary blocks means some list of an ordinary type can serve it. */
  lemma FreeRunOnList(z: Zone, a: nat, o: nat) returns (c: nat, f: nat)
    requires Good(z) && Ordinary(z) && o < MAX_ORDER && FreeRun(z, a, o)
    ensures o <= c < MAX_ORDER && f < 3 && List(z, c, f) != []
  {
    hide CountersOk, SlotsOk;
    forall x: nat | a <= x < a + Pow2(o)
      ensures Covered(FreeBlocks(z), x)
    {
      assert x in Run(a, o);
    }
    var p := FreeRunInOneBlock(SpanOf(z), FreeBlocks(z), a, o);
    var s :| On(z.lists, s, p);
    BlockOrder(z, p);
    c, f := s.order, s.mt;
  }

  /** Smallest-fit followed by fallback finds a block exactly when an aligned run of that size is free. */
  lemma AllocationComplete(z: Zone, o: nat, m: nat)
    requires Good(z) && Ordinary(z) && m < 3 && o < MAX_ORDER
    ensures Rmqueue(z, o, m).got.Got? <==> exists a: nat :: FreeRun(z, a, o)
    ensures !Rmqueue(z, o, m).got.Got? ==> (Rmqueue(z, o, m).got.OutOfBounds? <==> o == 0)
  {
    hide Good, Rmqueue, FreeSet, Run, List, Ordinary, VacantIn;
    RmqueueGood(z, o, m);
    var t := Rmqueue(z, o, m);
    if t.got.Got? {
      VacantAligned(t.z, t.got.pfn, o);
      assert FreeRun(z, t.got.pfn, o);
    }
    if a: nat :| FreeRun(z, a, o) {
      var c, f := FreeRunOnList(z, a, o);
      assert f in [m] + Fallbacks(m);
    }
  }

  lemma VacantAligned(z: Zone, p: nat, o: nat)
    requires VacantIn(z, p, o)
    ensures Aligned(p, o)
  {
  }
}
