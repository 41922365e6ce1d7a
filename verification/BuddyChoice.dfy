/** Which block an allocation takes and which blocks a relabelling moves, spelled out without the code's own tables. */
module BuddyChoice {
  import opened Bits
  import opened Buddy
  import opened BuddyBlocks
  import opened BuddyInvariant
  import opened BuddyOps
  import opened BuddyMove
  import opened BuddyFit
  import opened BuddyRoundTrip

  /**
   The fallback list of order `c` to take from. Unmovable and reclaimable requests fall back on each other first
   and on movable blocks last; movable requests on reclaimable blocks first and on unmovable ones last.
   */
  ghost predicate Preferred(z: Zone, c: nat, m: nat, f: nat) {
    && List(z, c, f) != []
    && if m == MIGRATE_UNMOVABLE then
         f == MIGRATE_RECLAIMABLE || (f == MIGRATE_MOVABLE && List(z, c, MIGRATE_RECLAIMABLE) == [])
       else if m == MIGRATE_RECLAIMABLE then
         f == MIGRATE_UNMOVABLE || (f == MIGRATE_MOVABLE && List(z, c, MIGRATE_UNMOVABLE) == [])
       else if m == MIGRATE_MOVABLE then
         f == MIGRATE_RECLAIMABLE || (f == MIGRATE_UNMOVABLE && List(z, c, MIGRATE_RECLAIMABLE) == [])
       else false
  }

  lemma PreferredFirst(z: Zone, c: nat, m: nat, f: nat)
    requires m != MIGRATE_RESERVE && FirstOf(z, c, Fallbacks(m), f)
    ensures Preferred(z, c, m, f)
  {
    hide List;
    var row := Fallbacks(m);
    var i :| 0 <= i < |row| && row[i] == f && forall j :: 0 <= j < i ==> List(z, c, row[j]) == [];
    assert i == 1 ==> List(z, c, row[0]) == [];
  }

  lemma PreferredSome(z: Zone, c: nat, m: nat, f: nat)
    requires m != MIGRATE_RESERVE && Preferred(z, c, m, f)
    ensures SomeFallback(z, c, m)
  {
    hide List;
    assert f in Fallbacks(m);
  }

  lemma SomePreferred(z: Zone, c: nat, m: nat) returns (f: nat)
    requires m != MIGRATE_RESERVE && SomeFallback(z, c, m)
    ensures Preferred(z, c, m, f)
  {
    hide List;
    var row := Fallbacks(m);
    var g :| g in row && List(z, c, g) != [];
    f := if List(z, c, row[0]) != [] then row[0] else row[1];
  }

  lemma PreferredOnce(z: Zone, c: nat, m: nat, f: nat, g: nat)
    requires Preferred(z, c, m, f) && Preferred(z, c, m, g)
    ensures f == g
  {
    hide List;
  }

  // ----- rmqueue

  /** The type's own lists come first: the first block of the lowest order there that suffices. */
  lemma OwnListsFirst(z: Zone, o: nat, m: nat, c: nat)
    requires Good(z) && m < MIGRATE_TYPES && m != MIGRATE_RESERVE
    requires o <= c < MAX_ORDER && List(z, c, m) != [] && forall d: nat :: o <= d < c ==> List(z, d, m) == []
    ensures TakenFrom(z, Rmqueue(z, o, m), c, m, o, m)
  {
    hide Coalesced, Inv, List, Smallest, FallbackFrom, TakenFrom, Allocated;
    SmallestGood(z, o, o, m);
    var e := SmallestFit(z, o, o, m);
    TakenSource(z, Smallest(z, o, o, m), e, m, o, m);
    assert e == c;
  }

  lemma TakenSource(z: Zone, t: Taken, c: nat, f: nat, o: nat, m: nat)
    requires TakenFrom(z, t, c, f, o, m)
    ensures o <= c < MAX_ORDER && List(z, c, f) != [] && t.got.Got?
  {
  }

  /**
   Other types come only when the type's own lists have nothing that suffices: then the first block of the
   preferred type of the highest order any of them has.
   */
  lemma FallbackLast(z: Zone, o: nat, m: nat, c: nat, f: nat)
    requires Good(z) && m < MIGRATE_TYPES && m != MIGRATE_RESERVE
    requires forall d: nat :: o <= d < MAX_ORDER ==> List(z, d, m) == []
    requires o <= c < MAX_ORDER && Preferred(z, c, m, f) && forall d: nat, g: nat :: c < d < MAX_ORDER ==> !Preferred(z, d, m, g)
    ensures TakenFrom(z, Rmqueue(z, o, m), c, f, o, m)
  {
    hide Coalesced, Inv, List, Smallest, FallbackFrom, TakenFrom, Allocated, FirstOf, SomeFallback, Preferred;
    SmallestGood(z, o, o, m);
    FallbackGood(z, MAX_ORDER - 1, o, m);
    PreferredSome(z, c, m, f);
    SmallestKeeps(z, o, m);
    var e, g := FallbackFit(z, MAX_ORDER - 1, o, m);
    TakenSource(z, FallbackFrom(z, MAX_ORDER - 1, o, m), e, g, o, m);
    PreferredFirst(z, e, m, g);
    PreferredSome(z, e, m, g);
    assert e == c;
    PreferredOnce(z, c, m, f, g);
  }

  lemma SmallestKeeps(z: Zone, o: nat, m: nat)
    requires Good(z) && !Smallest(z, o, o, m).got.Got?
    ensures Smallest(z, o, o, m).z == z
  {
    hide Good;
    SmallestGood(z, o, o, m);
  }

  /** With nothing that suffices on the type's own lists or any it may fall back on, nothing happens. */
  lemma NothingTaken(z: Zone, o: nat, m: nat)
    requires Good(z) && m < MIGRATE_TYPES && m != MIGRATE_RESERVE
    requires forall d: nat :: o <= d < MAX_ORDER ==> List(z, d, m) == []
    requires forall d: nat, g: nat :: o <= d < MAX_ORDER ==> !Preferred(z, d, m, g)
    ensures Rmqueue(z, o, m) == Taken(z, if o == 0 then OutOfBounds else Nothing)
  {
    hide Good, List, Smallest, FallbackFrom, SomeFallback, Preferred, VacantIn, Minus;
    SmallestGood(z, o, o, m);
    FallbackGood(z, MAX_ORDER - 1, o, m);
    forall d: nat | o <= d < MAX_ORDER
      ensures !SomeFallback(z, d, m)
    {
      if SomeFallback(z, d, m) { var g := SomePreferred(z, d, m); }
    }
  }

  /** find_suitable_fallback: the preferred type, and whether its whole pageblock may be stolen. */
  lemma SuitableIs(z: Zone, o: nat, m: nat)
    requires Inv(z) && m != MIGRATE_RESERVE && FindSuitable(z, o, m).Fallback?
    ensures var r := FindSuitable(z, o, m);
            Preferred(z, o, m, r.mt) && (r.canSteal <==> o >= PAGEBLOCK_ORDER || m == MIGRATE_MOVABLE)
  {
    hide Inv, List, Preferred, FirstOf;
    SuitableFirst(z, o, m);
    PreferredFirst(z, o, m, FindSuitable(z, o, m).mt);
  }

  // ----- move_freepages_block

  lemma {:induction false} HeadsDownMember(B: Blocks, p: nat, hi: nat, o: nat, b: nat)
    ensures b in HeadsDown(B, p, hi, o) <==> p <= b <= hi && b in B && B[b] == o
    decreases hi + 1 - p
  {
    if p <= hi { HeadsDownMember(B, p + 1, hi, o, b); }
  }

  lemma {:induction false} KeptMember(s: seq<nat>, p: nat, hi: nat, b: nat)
    ensures b in Kept(s, p, hi) <==> b in s && !(p <= b <= hi)
  {
    if s != [] { KeptMember(s[1..], p, hi, b); }
  }

  lemma {:induction false} TotalSkip(B: Blocks, p: nat, q: nat, hi: nat)
    requires p <= q && forall x: nat :: p <= x < q ==> x !in B
    ensures TotalSize(B, p, hi) == TotalSize(B, q, hi)
    decreases q - p
  {
    if p < q { TotalSkip(B, p + 1, q, hi); }
  }

  /** The number of the pageblock a page lies in, and its pages. */
  function BlockOf(p: nat): nat {
    p / 1024
  }

  lemma PageblockRange(p: nat)
    ensures Pow2(PAGEBLOCK_ORDER) == 1024
    ensures var first := p - p % 1024;
            first == BlockOf(p) * 1024 && forall b: nat :: BlockOf(b) == BlockOf(p) <==> first <= b <= first + 1023
  {
    assert Pow2(10) == 4 * Pow2(8) == 16 * Pow2(6) == 64 * Pow2(4) == 256 * Pow2(2);
  }

  /**
   In the pageblock of `p`, page `b` is on list `(o, k)` of `w` exactly if it heads a free block of order `o` and
   `k` is `m`; elsewhere exactly if it was on that list before.
   */
  ghost predicate RelabelledAt(z: Zone, w: Zone, p: nat, m: nat, o: nat, k: nat, b: nat) {
    b in List(w, o, k) <==>
    if BlockOf(b) == BlockOf(p) then b in FreeBlocks(z) && FreeBlocks(z)[b] == o && k == m else b in List(z, o, k)
  }

  /**
   Relabelling the pageblock of a page: nothing if the pageblock ends past the zone; otherwise exactly the free
   blocks whose head lies in that pageblock are now on the lists of type `m`, at their order, and the result is
   their total size.
   */
  lemma MoveBlockExact(z: Zone, p: nat, m: nat)
    requires Good(z) && m < MIGRATE_TYPES
    ensures (BlockOf(p) + 1) * 1024 > z.start + z.size ==> MoveBlock(z, p, m) == Moved(z, 0)
    ensures (BlockOf(p) + 1) * 1024 <= z.start + z.size ==>
              var r := MoveBlock(z, p, m);
              && r.count == TotalSize(FreeBlocks(z), BlockOf(p) * 1024, BlockOf(p) * 1024 + 1023)
              && forall o: nat, k: nat, b: nat :: o < MAX_ORDER && k < MIGRATE_TYPES ==>
                   RelabelledAt(z, r.z, p, m, o, k, b)
  {
    PageblockRange(p);
    hide Good, FreeBlocks, List, MoveRange, RelabelledAt, Pow2;
    var first := p - p % 1024;
    var lo, hi := if first < z.start then z.start else first, first + 1023;
    if hi < z.start + z.size {
      BelowStart(z, first);
      TotalSkip(FreeBlocks(z), first, lo, hi);
      var r := MoveBlock(z, p, m);
      assert r == MoveRange(z, lo, hi, m);
      hide MoveBlock;
      MoveFreepagesExact(z, lo, hi, m);
      forall o: nat, k: nat, b: nat | o < MAX_ORDER && k < MIGRATE_TYPES
        ensures RelabelledAt(z, r.z, p, m, o, k, b)
      {
        MovedAt(z, p, lo, m, o, k, b);
      }
    }
  }

  /** Stealing relabels the page's pageblock exactly if the page still records a pageblock's order or more. */
  lemma StealExact(z: Zone, p: nat, m: nat)
    requires Good(z) && m < MIGRATE_TYPES
    ensures PageOrder(z, p) < 10 || (BlockOf(p) + 1) * 1024 > z.start + z.size ==> Steal(z, p, m) == z
    ensures PageOrder(z, p) >= 10 && (BlockOf(p) + 1) * 1024 <= z.start + z.size ==>
              forall o: nat, k: nat, b: nat :: o < MAX_ORDER && k < MIGRATE_TYPES ==>
                RelabelledAt(z, Steal(z, p, m), p, m, o, k, b)
  {
    hide Good, MoveBlock, RelabelledAt, BlockOf, PageOrder;
    MoveBlockExact(z, p, m);
  }

  lemma MovedAt(z: Zone, p: nat, lo: nat, m: nat, o: nat, k: nat, b: nat)
    requires Good(z) && m < MIGRATE_TYPES && o < MAX_ORDER && k < MIGRATE_TYPES
    requires var first := p - p % 1024; first + 1023 < z.start + z.size && lo == if first < z.start then z.start else first
    ensures RelabelledAt(z, MoveRange(z, lo, p - p % 1024 + 1023, m).z, p, m, o, k, b)
  {
    hide Good, FreeBlocks, List, MoveRange, BlockOf, Pow2;
    PageblockRange(p);
    MovedIn(z, p - p % 1024, lo, p - p % 1024 + 1023, m, o, k, b);
  }

  lemma MovedIn(z: Zone, first: nat, lo: nat, hi: nat, m: nat, o: nat, k: nat, b: nat)
    requires Good(z) && m < MIGRATE_TYPES && o < MAX_ORDER && k < MIGRATE_TYPES
    requires hi < z.start + z.size && lo == if first < z.start then z.start else first
    ensures b in List(MoveRange(z, lo, hi, m).z, o, k) <==>
            if first <= b <= hi then b in FreeBlocks(z) && FreeBlocks(z)[b] == o && k == m else b in List(z, o, k)
  {
    hide Good, FreeBlocks, List, MoveRange, HeadsDown, Kept;
    MoveFreepagesExact(z, lo, hi, m);
    HeadsDownMember(FreeBlocks(z), lo, hi, o, b);
    KeptMember(List(z, o, k), lo, hi, b);
    Heads(z, o, k, b);
  }

  lemma BelowStart(z: Zone, first: nat)
    ensures forall x: nat :: first <= x < z.start ==> x !in FreeBlocks(z)
  {
  }

  lemma Heads(z: Zone, o: nat, k: nat, b: nat)
    requires Good(z)
    ensures b in List(z, o, k) ==> b in FreeBlocks(z) && FreeBlocks(z)[b] == o
    ensures b in FreeBlocks(z) ==> z.start <= b
  {
    hide CountersOk, Placed, Coalesced;
    if b in List(z, o, k) { assert On(z.lists, Slot(o, k), b); }
  }
}
