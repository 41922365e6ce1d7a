/** The allocator in the form of the source: a zone object over rings of page nodes, updated in place, loop by loop. */
module BuddyZone {
  import opened Bits
  import opened Buddy
  import opened BuddyBlocks
  import opened BuddyInvariant
  import opened BuddyOps
  import opened BuddyMove
  import opened BuddyRuns
  import opened BuddyRings

  /** A free head is on some list; a vacant block's head is on none. */
  lemma ListedIff(z: Zone, p: nat)
    requires Inv(z)
    ensures Listed(z.lists, p) <==> p in FreeBlocks(z)
  {
    hide FreeBlocks, Placed, CountersOk;
  }

  lemma VacantHead(z: Zone, p: nat, o: nat)
    requires Inv(z) && VacantIn(z, p, o)
    ensures !Listed(z.lists, p) && InZone(z, p) && o < MAX_ORDER
  {
    ListedIff(z, p);
    PowPositive(o);
    hide Pow2, ListsOk, CountersOk, FreeBlocks;
    if p in FreeBlocks(z) { PowPositive(FreeBlocks(z)[p]); }
  }

  lemma DelReady(z: Zone, p: nat)
    requires Good(z) && p in FreeBlocks(z)
    ensures Listed(z.lists, p) && Good(Del(z, p, FreeBlocks(z)[p]))
  {
    hide Inv, Coalesced, FreeBlocks, Del;
    DelGood(z, p);
    ListedIff(z, p);
  }

  lemma AddReady(z: Zone, p: nat, o: nat, m: nat)
    requires Good(z) && VacantIn(z, p, o) && NoFreeBuddy(z, p, o) && m < MIGRATE_TYPES
    ensures !Listed(z.lists, p) && InZone(z, p) && Slot(o, m) in z.lists && Good(Add(z, p, o, m))
  {
    hide Inv, Coalesced, FreeBlocks, VacantIn, NoFreeBuddy, Add, Listed;
    AddGood(z, p, o, m);
    VacantHead(z, p, o);
    SlotListed(z, o, m);
  }

  lemma SlotListed(z: Zone, o: nat, m: nat)
    requires Inv(z) && o < MAX_ORDER && m < MIGRATE_TYPES
    ensures Slot(o, m) in z.lists
  {
  }

  lemma InitGood(start: nat, size: nat, buddy: set<nat>, priv: map<nat, nat>)
    requires forall p :: p in buddy ==> !(start <= p < start + size)
    ensures Good(InitZone(start, size, buddy, priv))
  {
    InitOk(start, size, buddy, priv);
    hide InitZone, Inv, FreeBlocks;
  }

  lemma InitFields(start: nat, size: nat, buddy: set<nat>, priv: map<nat, nat>, nr: map<nat, int>)
    requires (forall o: nat :: o in nr <==> o < MAX_ORDER) && forall o: nat :: o in nr ==> nr[o] == 0
    ensures InitZone(start, size, buddy, priv) == Zone(start, size, EmptyLists(), nr, 0, buddy, priv)
  {
    assert nr == InitZone(start, size, buddy, priv).nrFree;
  }

  lemma SlotOf(z: Zone, o: nat, m: nat)
    requires Good(z) && o < MAX_ORDER && m < MIGRATE_TYPES
    ensures Slot(o, m) in z.lists && List(z, o, m) == z.lists[Slot(o, m)]
  {
    hide FreeBlocks, Coalesced;
    SlotListed(z, o, m);
  }

  lemma Halve(h: nat)
    ensures Pow2(h + 1) / 2 == Pow2(h)
  {
  }

  /** The upper half of a vacant block may be added, and the lower half is vacant then. */
  lemma SplitReady(z: Zone, p: nat, h: nat, m: nat)
    requires Good(z) && VacantIn(z, p, h + 1) && m < MIGRATE_TYPES
    ensures var u := p + Pow2(h);
            VacantIn(z, u, h) && NoFreeBuddy(z, u, h) && VacantIn(Add(z, u, h, m), p, h)
  {
    hide FreeBlocks, FreeSet, Placed, Coalesced, Vacant, Run, ListsOk, SlotsOk, CountersOk, Add, Pow2, BuddyFree, FindBuddyPfn, And;
    ExpandStepGood(z, p, h, m);
    SplitStep(SpanOf(z), FreeBlocks(z), p, h);
  }

  /** The first block of a list may be taken, and is vacant then. */
  lemma TakeReady(z: Zone, o: nat, m: nat)
    requires Good(z) && List(z, o, m) != []
    ensures var p := List(z, o, m)[0];
            p in FreeBlocks(z) && FreeBlocks(z)[p] == o && VacantIn(Del(z, p, o), p, o)
  {
    hide Inv, Coalesced, FreeBlocks, Del, List, VacantIn, Minus;
    ListHead(z, o, m);
    DelGood(z, List(z, o, m)[0]);
  }

  /** A flagged page of the zone may be taken off its list and put on another. */
  lemma RelabelReady(z: Zone, p: nat, m: nat)
    requires Good(z) && p in z.buddy && InZone(z, p) && m < MIGRATE_TYPES
    ensures var o := PageOrder(z, p); var d := Del(z, p, o);
            && p in FreeBlocks(z) && FreeBlocks(z)[p] == o && VacantIn(d, p, o) && NoFreeBuddy(d, p, o)
            && Add(d, p, o, m).buddy == z.buddy
  {
    hide Inv, FreeBlocks, VacantIn, Minus, Coalesced, PageOrder, BuddyFree;
    HeadInBlocks(z, p);
    DelGood(z, p);
    BuddyGone(FreeBlocks(z), p);
    assert z.buddy - {p} + {p} == z.buddy;
    hide Pow2, Unlink, List, NrFree;
  }

  lemma FallbackBelow(m: nat, f: nat)
    requires m != MIGRATE_RESERVE && f in Fallbacks(m)
    ensures f < MIGRATE_TYPES
  {
  }

  lemma PowPositive(o: nat)
    ensures Pow2(o) >= 1
  {
  }

  method ZeroCounters() returns (nr: map<nat, int>)
    ensures (forall o: nat :: o in nr <==> o < MAX_ORDER) && forall o: nat :: o in nr ==> nr[o] == 0
  {
    nr := map[];
    var order: nat := 0;
    while order < MAX_ORDER
      invariant order <= MAX_ORDER
      invariant forall o: nat :: o in nr <==> o < order
      invariant forall o: nat :: o in nr ==> nr[o] == 0
    {
      nr := nr[order := 0];
      order := order + 1;
    }
  }

  class ZoneObject {
    const startPfn: nat
    const spannedPages: nat
    const free: FreeLists
    var nrFree: map<nat, int>
    var freePages: int
    var pageBuddy: set<nat>
    var pagePrivate: map<nat, nat>

    ghost function State(): Zone
      reads this, free
    {
      Zone(startPfn, spannedPages, free.lists, nrFree, freePages, pageBuddy, pagePrivate)
    }

    /** The lists are rings, the zone is well formed and coalesced, and each of its pages has a node. */
    ghost predicate Valid()
      reads this, free, free.heads.Values, free.lru.Values
    {
      free.Valid() && Good(State()) && forall p :: InZone(State(), p) ==> p in free.lru
    }

    function NrFreeAt(o: nat): (n: int)
      reads this, free
      ensures n == NrFree(State(), o)
    {
      if o in nrFree then nrFree[o] else 0
    }

    function OrderOf(p: nat): (o: nat)
      reads this, free
      ensures o == PageOrder(State(), p)
    {
      if p in pagePrivate then pagePrivate[p] else 0
    }

    /** init_zone, over pages of which none in the zone has its flag set. */
    constructor (start: nat, size: nat, buddy: set<nat>, priv: map<nat, nat>)
      requires forall p :: p in buddy ==> !(start <= p < start + size)
      ensures Valid() && State() == InitZone(start, size, buddy, priv)
      ensures fresh(free) && fresh(free.heads.Values) && fresh(free.lru.Values)
    {
      hide InitZone, Good, FreeLists.Valid, EmptyLists;
      InitGood(start, size, buddy, priv);
      var nr := ZeroCounters();
      InitFields(start, size, buddy, priv, nr);
      startPfn, spannedPages, nrFree, freePages := start, size, nr, 0;
      pageBuddy, pagePrivate := buddy, priv;
      free := new FreeLists(start, size);
    }

    /** __del_page_from_free_list. */
    method DelPage(page: nat, order: nat)
      requires Valid() && page in FreeBlocks(State()) && FreeBlocks(State())[page] == order
      modifies this, free, free.heads.Values, free.lru.Values
      ensures Valid() && State() == Del(old(State()), page, order)
    {
      hide Good, FreeBlocks, Pow2, FreeLists.Valid, Unlink, Listed;
      DelReady(State(), page);
      pageBuddy := pageBuddy - {page};
      pagePrivate := pagePrivate[page := 0];
      free.Del(page);
      nrFree := nrFree[order := NrFreeAt(order) - 1];
      freePages := freePages - Pow2(order);
    }

    /** __add_page_to_free_list. */
    method AddPage(page: nat, order: nat, mt: nat)
      requires Valid() && VacantIn(State(), page, order) && NoFreeBuddy(State(), page, order) && mt < MIGRATE_TYPES
      modifies this, free, free.heads.Values, free.lru.Values
      ensures Valid() && State() == Add(old(State()), page, order, mt)
    {
      hide Good, FreeBlocks, Pow2, FreeLists.Valid, VacantIn, NoFreeBuddy, Listed;
      AddReady(State(), page, order, mt);
      free.Add(page, Slot(order, mt));
      pageBuddy := pageBuddy + {page};
      pagePrivate := pagePrivate[page := order];
      nrFree := nrFree[order := NrFreeAt(order) + 1];
      freePages := freePages + Pow2(order);
    }

    /** list_first_entry and list_empty of one free list. */
    method FirstPage(o: nat, m: nat) returns (page: Outcome)
      requires Valid() && o < MAX_ORDER && m < MIGRATE_TYPES
      ensures page == if List(State(), o, m) == [] then Nothing else Got(List(State(), o, m)[0])
    {
      hide Good, FreeLists.Valid;
      SlotOf(State(), o, m);
      var empty := free.IsEmpty(Slot(o, m));
      if empty {
        return Nothing;
      }
      var p := free.First(Slot(o, m));
      return Got(p);
    }

    /** expand. */
    method Split(page: nat, low: nat, high: nat, mt: nat)
      requires Valid() && low <= high && VacantIn(State(), page, high) && mt < MIGRATE_TYPES
      modifies this, free, free.heads.Values, free.lru.Values
      ensures Valid() && State() == Expand(old(State()), page, low, high, mt)
    {
      hide Add, Good, VacantIn, FreeLists.Valid, Pow2;
      var h: nat, size := high, Pow2(high);
      while h > low
        invariant low <= h <= high && size == Pow2(h) && Valid() && VacantIn(State(), page, h)
        invariant Expand(State(), page, low, h, mt) == Expand(old(State()), page, low, high, mt)
      {
        h := h - 1;
        Halve(h);
        size := size / 2;
        SplitReady(State(), page, h, mt);
        AddPage(page + size, h, mt);
      }
    }

    /** __rmqueue_smallest. */
    method TakeSmallest(order: nat, mt: nat) returns (page: Outcome)
      requires Valid() && mt < MIGRATE_TYPES
      modifies this, free, free.heads.Values, free.lru.Values
      ensures Valid() && Taken(State(), page) == RmqueueSmallest(old(State()), order, mt)
    {
      hide Expand, Del, List, Good, VacantIn, FreeLists.Valid, FreeBlocks;
      ghost var z := State();
      var cur := order;
      while cur < MAX_ORDER
        invariant order <= cur && Valid() && State() == z
        invariant Smallest(z, cur, order, mt) == Smallest(z, order, order, mt)
      {
        var first := FirstPage(cur, mt);
        if first.Got? {
          TakeReady(z, cur, mt);
          DelPage(first.pfn, cur);
          Split(first.pfn, order, cur, mt);
          return first;
        }
        cur := cur + 1;
      }
      return Nothing;
    }

    /** find_suitable_fallback. */
    method FindFallback(order: nat, mt: nat) returns (r: Suitable)
      requires Valid() && order < MAX_ORDER && mt < MIGRATE_TYPES && mt != MIGRATE_RESERVE
      ensures r == FindSuitable(State(), order, mt)
    {
      hide Good, FreeLists.Valid, List;
      if NrFreeAt(order) == 0 {
        return NoFallback;
      }
      var row := Fallbacks(mt);
      var i := 0;
      while i < |row|
        invariant 0 <= i <= |row|
        invariant FirstNonEmpty(State(), order, row[i..]) == FirstNonEmpty(State(), order, row)
      {
        var first := FirstPage(order, row[i]);
        if first.Got? {
          return Fallback(row[i], CanStealFallback(order, mt));
        }
        i := i + 1;
      }
      return NoFallback;
    }

    /** move_freepages on the pages `first..last`. */
    method MoveFreepages(first: nat, last: nat, mt: nat) returns (moved: nat)
      requires Valid() && NoneForeign(State(), first, last) && mt < MIGRATE_TYPES
      modifies this, free, free.heads.Values, free.lru.Values
      ensures Valid() && Moved(State(), moved) == MoveRange(old(State()), first, last, mt)
    {
      hide Add, Del, Good, FreeLists.Valid, FreeBlocks, VacantIn, NoFreeBuddy, Pow2;
      moved := 0;
      var page := first;
      while page <= last
        invariant first <= page && Valid() && NoneForeign(State(), first, last)
        invariant var rest := MoveRange(State(), page, last, mt);
                  MoveRange(old(State()), first, last, mt) == Moved(rest.z, moved + rest.count)
      {
        if page !in pageBuddy {
          page := page + 1;
        } else {
          var order := OrderOf(page);
          RelabelReady(State(), page, mt);
          PowPositive(order);
          DelPage(page, order);
          AddPage(page, order, mt);
          moved := moved + Pow2(order);
          page := page + Pow2(order);
        }
      }
    }

    /** move_freepages_block. */
    method MoveFreepagesBlock(page: nat, mt: nat) returns (moved: nat)
      requires Valid() && mt < MIGRATE_TYPES
      modifies this, free, free.heads.Values, free.lru.Values
      ensures Valid() && Moved(State(), moved) == MoveBlock(old(State()), page, mt)
    {
      hide Good, FreeLists.Valid, MoveRange;
      var first := page - page % Pow2(PAGEBLOCK_ORDER);
      var last := first + Pow2(PAGEBLOCK_ORDER) - 1;
      var from := if first < startPfn then startPfn else first;
      if last >= startPfn + spannedPages {
        return 0;
      }
      moved := MoveFreepages(from, last, mt);
    }

    /** steal_suitable_fallback. */
    method StealFallback(page: nat, mt: nat)
      requires Valid() && mt < MIGRATE_TYPES
      modifies this, free, free.heads.Values, free.lru.Values
      ensures Valid() && State() == Steal(old(State()), page, mt)
    {
      hide MoveBlock, Good, FreeLists.Valid;
      if OrderOf(page) >= PAGEBLOCK_ORDER {
        var moved := MoveFreepagesBlock(page, mt);
      }
    }

    /** __rmqueue_fallback. */
    method TakeFallback(order: nat, mt: nat) returns (page: Outcome)
      requires Valid() && mt < MIGRATE_TYPES && mt != MIGRATE_RESERVE
      modifies this, free, free.heads.Values, free.lru.Values
      ensures Valid() && Taken(State(), page) == RmqueueFallback(old(State()), order, mt)
    {
      hide Add, Del, Expand, Steal, Good, VacantIn, FreeLists.Valid, FreeBlocks, List, FindSuitable;
      var cur: nat := MAX_ORDER - 1;
      ghost var z := State();
      while cur >= order
        invariant Valid() && State() == z && cur < MAX_ORDER
        invariant FallbackFrom(z, cur, order, mt) == RmqueueFallback(z, order, mt)
        decreases cur
      {
        var found := FindFallback(cur, mt);
        match found {
          case NoFallback =>
            if cur == 0 {
              return OutOfBounds;
            }
            cur := cur - 1;
          case Fallback(fm, canSteal) =>
            FallbackBelow(mt, fm);
            var first := FirstPage(cur, fm);
            TakeReady(z, cur, fm);
            StealDoesNothing(z, first.pfn, cur, mt);
            DelPage(first.pfn, cur);
            if canSteal {
              StealFallback(first.pfn, mt);
            }
            Split(first.pfn, order, cur, mt);
            return first;
        }
      }
      return Nothing;
    }

    /** The locked part of rmqueue. */
    method Take(order: nat, mt: nat) returns (page: Outcome)
      requires Valid() && mt < MIGRATE_TYPES && mt != MIGRATE_RESERVE
      modifies this, free, free.heads.Values, free.lru.Values
      ensures Valid() && Taken(State(), page) == Rmqueue(old(State()), order, mt)
    {
      hide RmqueueSmallest, RmqueueFallback, Good, FreeLists.Valid;
      page := TakeSmallest(order, mt);
      if !page.Got? {
        page := TakeFallback(order, mt);
      }
    }

    /** __free_one_page of a block that is not free. */
    method FreePage(pfn: nat, order: nat, mt: nat)
      requires Valid() && VacantIn(State(), pfn, order) && mt < MIGRATE_TYPES
      modifies this, free, free.heads.Values, free.lru.Values
      ensures Valid() && State() == FreeOnePage(old(State()), pfn, order, mt)
    {
      hide Add, Del, And, FindBuddyPfn, Good, VacantIn, NoFreeBuddy, FreeLists.Valid, FreeBlocks, FreeSet, Run;
      ghost var z := State();
      var p, o := pfn, order;
      while o < MAX_ORDER - 1
        invariant Valid() && VacantIn(State(), p, o)
        invariant Merge(State(), p, o) == Merge(z, pfn, order)
      {
        var b := FindBuddyPfn(p, o);
        if !(b in pageBuddy && OrderOf(b) == o && startPfn <= b < startPfn + spannedPages) {
          break;
        }
        MergeStepGood(State(), p, o);
        BuddyListed(State(), b, o);
        DelPage(b, o);
        p, o := And(b, p), o + 1;
      }
      MergeGood(z, pfn, order);
      assert Merge(State(), p, o) == Merged(State(), p, o);
      AddPage(p, o, mt);
    }
  }

  /**
   Any run of the allocator, in place over the rings: the zone follows the run on values, so everything proved
   of those runs holds of it, and no list operation ever meets a page that is not where the code takes it to be.
   `out` is what callers know: the blocks they hold and their orders.
   */
  method Replay(zone: ZoneObject, ops: seq<Op>, held: Blocks, ghost s: System) returns (out: Blocks)
    requires zone.Valid() && Consistent(s) && s.z == zone.State() && s.out == held && Runs(s, ops)
    modifies zone, zone.free, zone.free.heads.Values, zone.free.lru.Values
    ensures zone.Valid() && zone.State() == After(s, ops).z && out == After(s, ops).out
  {
    hide Good, FreeLists.Valid, Consistent, Rmqueue, FreeOnePage, MoveBlock, VacantIn, Fits, Run;
    out := held;
    ghost var u, rest := s, ops;
    var i := 0;
    while i < |ops|
      invariant i <= |ops| && rest == ops[i..] && Runs(u, rest) && After(u, rest) == After(s, ops)
      invariant zone.Valid() && Consistent(u) && u.z == zone.State() && u.out == out
    {
      StepConsistent(u, ops[i]);
      match ops[i] {
        case Hand(p, o, m) =>
          ReturnedVacant(u, ops[i]);
          zone.FreePage(p, o, m);
        case Alloc(o, m) =>
          var page := zone.Take(o, m);
          if page.Got? { out := out[page.pfn := o]; }
        case Free(p, m) =>
          ReturnedVacant(u, ops[i]);
          zone.FreePage(p, out[p], m);
          out := out - {p};
        case MoveTo(p, m) =>
          var moved := zone.MoveFreepagesBlock(p, m);
      }
      u, rest, i := Step(u, rest[0]), rest[1..], i + 1;
    }
  }
}
