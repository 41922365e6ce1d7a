/** What every zone keeps: lists, flags, blocks and counters agree, and free buddies never stay apart. */
module BuddyInvariant {
  import opened Common
  import opened Bits
  import opened Buddy
  import opened BuddyBlocks

  type Lists = map<Slot, seq<nat>>

  function SpanOf(z: Zone): Span {
    Span(z.start, z.start + z.size)
  }

  /** The free blocks as the page flags and private fields record them. */
  ghost function FreeBlocks(z: Zone): Blocks {
    map p: nat | p in z.buddy && InZone(z, p) :: PageOrder(z, p)
  }

  ghost function FreeSet(z: Zone): set<nat> {
    Pages(SpanOf(z), FreeBlocks(z))
  }

  ghost predicate On(lists: Lists, s: Slot, p: nat) {
    s in lists && p in lists[s]
  }

  /** The lists hold exactly the free heads, each once, on a list of its own order. */
  ghost predicate ListsOk(lists: Lists, B: Blocks) {
    && (forall s :: s in lists ==> NoDup(lists[s]))
    && (forall s, p: nat :: On(lists, s, p) ==> p in B && B[p] == s.order)
    && (forall s, t, p: nat :: On(lists, s, p) && On(lists, t, p) ==> s == t)
    && (forall p: nat :: p in B ==> exists s :: On(lists, s, p))
  }

  ghost predicate SlotsOk(lists: Lists) {
    forall s :: s in lists <==> s.order < MAX_ORDER && s.mt < MIGRATE_TYPES
  }

  function Len(lists: Lists, o: nat, m: nat): nat {
    if Slot(o, m) in lists then |lists[Slot(o, m)]| else 0
  }

  function Count(lists: Lists, o: nat): nat {
    Len(lists, o, 0) + Len(lists, o, 1) + Len(lists, o, 2) + Len(lists, o, 3) + Len(lists, o, 4) + Len(lists, o, 5)
  }

  /** The pages accounted for by the counters of the orders below `k`. */
  function Weighted(nr: map<nat, int>, k: nat): int {
    if k == 0 then 0 else Weighted(nr, k - 1) + (if k - 1 in nr then nr[k - 1] * Pow2(k - 1) else 0)
  }

  ghost predicate NrFreeOk(nr: map<nat, int>, lists: Lists) {
    && (forall o: nat :: o in nr <==> o < MAX_ORDER)
    && (forall o: nat :: o in nr ==> nr[o] == Count(lists, o))
  }

  ghost predicate CountersOk(z: Zone) {
    && NrFreeOk(z.nrFree, z.lists)
    && z.freePages == Weighted(z.nrFree, MAX_ORDER)
    && z.freePages == PageCount(SpanOf(z), FreeBlocks(z))
  }

  ghost predicate Inv(z: Zone) {
    && SlotsOk(z.lists) && ListsOk(z.lists, FreeBlocks(z))
    && Placed(SpanOf(z), FreeBlocks(z)) && CountersOk(z)
  }

  // ----- lists

  lemma {:induction false} WithoutMember(s: seq<nat>, p: nat)
    requires NoDup(s)
    ensures NoDup(Without(s, p))
    ensures forall x: nat :: x in Without(s, p) <==> x in s && x != p
    ensures |Without(s, p)| == |s| - (if p in s then 1 else 0)
    ensures p !in s ==> Without(s, p) == s
  {
    if s != [] {
      assert s == [s[0]] + s[1..];
      if s[0] != p {
        WithoutMember(s[1..], p);
        assert s[0] !in Without(s[1..], p);
        assert p in s <==> p in s[1..];
      }
    }
  }

  lemma UnlinkEffect(lists: Lists, B: Blocks, p: nat)
    requires ListsOk(lists, B)
    ensures forall s, x: nat :: On(Unlink(lists, p), s, x) <==> On(lists, s, x) && x != p
    ensures forall s :: s in lists ==> NoDup(Unlink(lists, p)[s])
  {
    forall s | s in lists
      ensures NoDup(Unlink(lists, p)[s])
      ensures forall x: nat :: On(Unlink(lists, p), s, x) <==> On(lists, s, x) && x != p
    {
      WithoutMember(lists[s], p);
    }
  }

  lemma ListsDel(lists: Lists, B: Blocks, p: nat)
    requires ListsOk(lists, B) && p in B
    ensures ListsOk(Unlink(lists, p), B - {p})
  {
    UnlinkEffect(lists, B, p);
    forall q: nat | q in B - {p}
      ensures exists s :: On(Unlink(lists, p), s, q)
    {
      var s :| On(lists, s, q);
      assert On(Unlink(lists, p), s, q);
    }
  }

  lemma ListsAdd(lists: Lists, B: Blocks, p: nat, s0: Slot)
    requires ListsOk(lists, B) && p !in B && s0 in lists
    ensures ListsOk(lists[s0 := [p] + lists[s0]], B[p := s0.order])
  {
    var l := lists[s0 := [p] + lists[s0]];
    forall s, x: nat
      ensures On(l, s, x) <==> On(lists, s, x) || (s == s0 && x == p)
    {
    }
    var C := B[p := s0.order];
    forall q: nat | q in C
      ensures exists s :: On(l, s, q)
    {
      if q == p {
        assert On(l, s0, q);
      } else {
        var s :| On(lists, s, q);
        assert On(l, s, q);
      }
    }
  }

  // ----- counters

  lemma CountDel(lists: Lists, B: Blocks, p: nat, k: nat)
    requires SlotsOk(lists) && ListsOk(lists, B) && p in B && k < MAX_ORDER
    ensures Count(Unlink(lists, p), k) == Count(lists, k) - (if k == B[p] then 1 else 0)
  {
    var s0 :| On(lists, s0, p);
    forall m: nat | m < MIGRATE_TYPES
      ensures Len(Unlink(lists, p), k, m) == Len(lists, k, m) - (if Slot(k, m) == s0 then 1 else 0)
    {
      WithoutMember(lists[Slot(k, m)], p);
      assert On(lists, Slot(k, m), p) ==> Slot(k, m) == s0;
    }
  }

  lemma CountAdd(lists: Lists, p: nat, s0: Slot, k: nat)
    requires SlotsOk(lists) && s0 in lists
    ensures Count(lists[s0 := [p] + lists[s0]], k) == Count(lists, k) + (if k == s0.order then 1 else 0)
  {
    LenAdd(lists, p, s0, k, 0);
    LenAdd(lists, p, s0, k, 1);
    LenAdd(lists, p, s0, k, 2);
    LenAdd(lists, p, s0, k, 3);
    LenAdd(lists, p, s0, k, 4);
    LenAdd(lists, p, s0, k, 5);
    hide Len;
  }

  lemma LenAdd(lists: Lists, p: nat, s0: Slot, k: nat, m: nat)
    requires s0 in lists
    ensures Len(lists[s0 := [p] + lists[s0]], k, m) == Len(lists, k, m) + (if Slot(k, m) == s0 then 1 else 0)
  {
  }

  lemma {:induction false} WeightedStep(nr: map<nat, int>, o: nat, d: int, k: nat)
    requires o in nr
    ensures Weighted(nr[o := nr[o] + d], k) == Weighted(nr, k) + (if o < k then d * Pow2(o) else 0)
    decreases k
  {
    if k > 0 {
      WeightedStep(nr, o, d, k - 1);
      if k - 1 == o {
        assert (nr[o] + d) * Pow2(o) == nr[o] * Pow2(o) + d * Pow2(o);
      }
    }
  }

  lemma WeightDel(nr: map<nat, int>, o: nat)
    requires o in nr && o < MAX_ORDER
    ensures Weighted(nr[o := nr[o] - 1], MAX_ORDER) == Weighted(nr, MAX_ORDER) - Pow2(o)
  {
    WeightedStep(nr, o, -1, MAX_ORDER);
  }

  lemma WeightAdd(nr: map<nat, int>, o: nat)
    requires o in nr && o < MAX_ORDER
    ensures Weighted(nr[o := nr[o] + 1], MAX_ORDER) == Weighted(nr, MAX_ORDER) + Pow2(o)
  {
    WeightedStep(nr, o, 1, MAX_ORDER);
  }

  lemma NrFreeDel(nr: map<nat, int>, lists: Lists, B: Blocks, p: nat)
    requires SlotsOk(lists) && ListsOk(lists, B) && p in B && NrFreeOk(nr, lists)
    ensures NrFreeOk(nr[B[p] := nr[B[p]] - 1], Unlink(lists, p))
  {
    forall k: nat | k < MAX_ORDER
      ensures Count(Unlink(lists, p), k) == Count(lists, k) - (if k == B[p] then 1 else 0)
    {
      CountDel(lists, B, p, k);
    }
  }

  lemma NrFreeAdd(nr: map<nat, int>, lists: Lists, p: nat, s0: Slot)
    requires SlotsOk(lists) && s0 in lists && NrFreeOk(nr, lists)
    ensures NrFreeOk(nr[s0.order := nr[s0.order] + 1], lists[s0 := [p] + lists[s0]])
  {
    forall k: nat
      ensures Count(lists[s0 := [p] + lists[s0]], k) == Count(lists, k) + (if k == s0.order then 1 else 0)
    {
      CountAdd(lists, p, s0, k);
    }
  }

  // ----- the two primitive updates

  lemma DelBlocks(z: Zone, p: nat, o: nat)
    ensures FreeBlocks(Del(z, p, o)) == FreeBlocks(z) - {p}
  {
    var d := Del(z, p, o);
    assert forall q: nat :: q != p ==> PageOrder(d, q) == PageOrder(z, q);
  }

  lemma AddBlocks(z: Zone, p: nat, o: nat, m: nat)
    requires InZone(z, p)
    ensures FreeBlocks(Add(z, p, o, m)) == FreeBlocks(z)[p := o]
  {
    var a := Add(z, p, o, m);
    assert forall q: nat :: q != p ==> PageOrder(a, q) == PageOrder(z, q);
  }

  lemma DelPageCount(z: Zone, p: nat)
    requires Placed(SpanOf(z), FreeBlocks(z)) && p in FreeBlocks(z)
    ensures var d := Del(z, p, FreeBlocks(z)[p]);
            PageCount(SpanOf(d), FreeBlocks(d)) == PageCount(SpanOf(z), FreeBlocks(z)) - Pow2(FreeBlocks(z)[p])
  {
    DelBlocks(z, p, FreeBlocks(z)[p]);
    PageCountDel(SpanOf(z), FreeBlocks(z), p);
  }

  lemma AddPageCount(z: Zone, p: nat, o: nat, m: nat)
    requires Vacant(SpanOf(z), FreeBlocks(z), p, o)
    ensures var a := Add(z, p, o, m);
            PageCount(SpanOf(a), FreeBlocks(a)) == PageCount(SpanOf(z), FreeBlocks(z)) + Pow2(o)
  {
    AddBlocks(z, p, o, m);
    assert SpanOf(Add(z, p, o, m)) == SpanOf(z);
    PageCountAdd(SpanOf(z), FreeBlocks(z), p, o);
  }

  lemma DelLists(z: Zone, p: nat)
    requires Inv(z) && p in FreeBlocks(z)
    ensures var d := Del(z, p, FreeBlocks(z)[p]); ListsOk(d.lists, FreeBlocks(d))
  {
    DelBlocks(z, p, FreeBlocks(z)[p]);
    ListsDel(z.lists, FreeBlocks(z), p);
  }

  lemma DelPlaced(z: Zone, p: nat)
    requires Inv(z) && p in FreeBlocks(z)
    ensures var d := Del(z, p, FreeBlocks(z)[p]);
            Placed(SpanOf(d), FreeBlocks(d)) && Vacant(SpanOf(d), FreeBlocks(d), p, FreeBlocks(z)[p])
  {
    hide FreeBlocks, Placed, Vacant, ListsOk, SlotsOk, CountersOk, Pages, Run;
    DelBlocks(z, p, FreeBlocks(z)[p]);
    PagesDel(SpanOf(z), FreeBlocks(z), p);
  }

  lemma BlockOrder(z: Zone, p: nat)
    requires Inv(z) && p in FreeBlocks(z)
    ensures FreeBlocks(z)[p] < MAX_ORDER && FreeBlocks(z)[p] in z.nrFree
  {
    assert Fits(SpanOf(z), p, FreeBlocks(z)[p]);
  }

  lemma DelNrFree(z: Zone, p: nat)
    requires Inv(z) && p in FreeBlocks(z)
    ensures var d := Del(z, p, FreeBlocks(z)[p]);
            NrFreeOk(d.nrFree, d.lists) && d.freePages == Weighted(d.nrFree, MAX_ORDER)
  {
    hide Weighted, FreeBlocks, ListsOk, SlotsOk, Placed, PageCount;
    BlockOrder(z, p);
    NrFreeDel(z.nrFree, z.lists, FreeBlocks(z), p);
    WeightDel(z.nrFree, FreeBlocks(z)[p]);
  }

  lemma DelInv(z: Zone, p: nat)
    requires Inv(z) && p in FreeBlocks(z)
    ensures Inv(Del(z, p, FreeBlocks(z)[p]))
  {
    DelLists(z, p);
    DelPlaced(z, p);
    DelNrFree(z, p);
    DelPageCount(z, p);
  }

  lemma AddLists(z: Zone, p: nat, o: nat, m: nat)
    requires Inv(z) && Vacant(SpanOf(z), FreeBlocks(z), p, o) && m < MIGRATE_TYPES
    ensures var a := Add(z, p, o, m); SlotsOk(a.lists) && ListsOk(a.lists, FreeBlocks(a))
  {
    AddBlocks(z, p, o, m);
    ListsAdd(z.lists, FreeBlocks(z), p, Slot(o, m));
  }

  lemma AddPlaced(z: Zone, p: nat, o: nat, m: nat)
    requires Inv(z) && Vacant(SpanOf(z), FreeBlocks(z), p, o)
    ensures var a := Add(z, p, o, m); Placed(SpanOf(a), FreeBlocks(a))
  {
    hide FreeBlocks, Placed, ListsOk, SlotsOk, CountersOk, Aligned;
    AddBlocks(z, p, o, m);
    PlacedAdd(SpanOf(z), FreeBlocks(z), p, o);
  }

  lemma AddNrFree(z: Zone, p: nat, o: nat, m: nat)
    requires Inv(z) && o < MAX_ORDER && m < MIGRATE_TYPES
    ensures var a := Add(z, p, o, m);
            NrFreeOk(a.nrFree, a.lists) && a.freePages == Weighted(a.nrFree, MAX_ORDER)
  {
    hide Weighted, FreeBlocks, ListsOk, Placed, PageCount;
    NrFreeAdd(z.nrFree, z.lists, p, Slot(o, m));
    WeightAdd(z.nrFree, o);
  }

  lemma AddInv(z: Zone, p: nat, o: nat, m: nat)
    requires Inv(z) && Vacant(SpanOf(z), FreeBlocks(z), p, o) && m < MIGRATE_TYPES
    ensures Inv(Add(z, p, o, m))
  {
    AddLists(z, p, o, m);
    AddPlaced(z, p, o, m);
    AddNrFree(z, p, o, m);
    AddPageCount(z, p, o, m);
  }

  lemma NoPages(sp: Span)
    ensures Pages(sp, map[]) == {} && PageCount(sp, map[]) == 0 && Placed(sp, map[]) && Coalesced(map[])
  {
    assert forall x: nat :: !Covered(map[], x);
  }

  lemma InitOk(start: nat, size: nat, buddy: set<nat>, priv: map<nat, nat>)
    requires forall p :: p in buddy ==> !(start <= p < start + size)
    ensures var z := InitZone(start, size, buddy, priv);
            Inv(z) && FreeBlocks(z) == map[] && FreeSet(z) == {}
  {
    var z := InitZone(start, size, buddy, priv);
    InitBlocks(start, size, buddy, priv);
    InitLists(start, size, buddy, priv);
    hide FreeBlocks, Weighted, Pages, InitZone, ListsOk, SlotsOk, NrFreeOk, Placed;
    NoPages(SpanOf(z));
  }

  lemma InitBlocks(start: nat, size: nat, buddy: set<nat>, priv: map<nat, nat>)
    requires forall p :: p in buddy ==> !(start <= p < start + size)
    ensures FreeBlocks(InitZone(start, size, buddy, priv)) == map[]
  {
  }

  lemma InitLists(start: nat, size: nat, buddy: set<nat>, priv: map<nat, nat>)
    ensures var z := InitZone(start, size, buddy, priv);
            && SlotsOk(z.lists) && ListsOk(z.lists, map[]) && NrFreeOk(z.nrFree, z.lists)
            && z.freePages == 0 && Weighted(z.nrFree, MAX_ORDER) == 0
  {
    var z := InitZone(start, size, buddy, priv);
    WeightedZero(z.nrFree, MAX_ORDER);
    hide Weighted;
  }

  lemma {:induction false} WeightedZero(nr: map<nat, int>, k: nat)
    requires forall o: nat :: o in nr ==> nr[o] == 0
    ensures Weighted(nr, k) == 0
    decreases k
  {
    if k > 0 { WeightedZero(nr, k - 1); }
  }
}
