/** Whole runs of the allocator: pages are never lost, shared or left uncoalesced. */
module BuddyRuns {
  import opened Bits
  import opened Buddy
  import opened BuddyBlocks
  import opened BuddyInvariant
  import opened BuddyOps
  import opened BuddyMove
  import opened BuddyRoundTrip

  /** A zone, the blocks handed out and not yet freed, and every page ever given to the zone. */
  datatype System = System(z: Zone, out: Blocks, given: set<nat>)

  datatype Op =
    | Hand(pfn: nat, order: nat, mt: nat)  // memory given to the zone for the first time
    | Alloc(order: nat, mt: nat)           // the locked part of rmqueue
    | Free(pfn: nat, mt: nat)              // __free_one_page of an outstanding block
    | MoveTo(pfn: nat, mt: nat)            // move_freepages_block

  predicate Enabled(s: System, op: Op) {
    match op
    case Hand(p, o, m) => m < MIGRATE_TYPES && Fits(SpanOf(s.z), p, o) && Run(p, o) !! s.given
    case Alloc(o, m) => m < MIGRATE_TYPES && m != MIGRATE_RESERVE && !Rmqueue(s.z, o, m).got.OutOfBounds?
    case Free(p, m) => m < MIGRATE_TYPES && p in s.out
    case MoveTo(p, m) => m < MIGRATE_TYPES
  }

  function Step(s: System, op: Op): System
    requires Enabled(s, op)
  {
    match op
    case Hand(p, o, m) => s.(z := FreeOnePage(s.z, p, o, m), given := s.given + Run(p, o))
    case Alloc(o, m) =>
      var t := Rmqueue(s.z, o, m);
      if t.got.Got? then s.(z := t.z, out := s.out[t.got.pfn := o]) else s.(z := t.z)
    case Free(p, m) => s.(z := FreeOnePage(s.z, p, s.out[p], m), out := s.out - {p})
    case MoveTo(p, m) => s.(z := MoveBlock(s.z, p, m).z)
  }

  predicate Runs(s: System, ops: seq<Op>)
    decreases ops
  {
    ops == [] || (Enabled(s, ops[0]) && Runs(Step(s, ops[0]), ops[1..]))
  }

  function After(s: System, ops: seq<Op>): System
    requires Runs(s, ops)
    decreases ops
  {
    if ops == [] then s else After(Step(s, ops[0]), ops[1..])
  }

  ghost predicate Consistent(s: System) {
    && Good(s.z) && Placed(SpanOf(s.z), s.out)
    && FreeSet(s.z) !! OutSet(s)
    && s.given == FreeSet(s.z) + OutSet(s)
  }

  ghost function OutSet(s: System): set<nat> {
    Pages(SpanOf(s.z), s.out)
  }

  /** A well-placed block is vacant exactly when none of its pages is covered. */
  lemma DisjointVacant(sp: Span, B: Blocks, p: nat, o: nat)
    requires Placed(sp, B) && Fits(sp, p, o) && Pages(sp, B) !! Run(p, o)
    ensures Vacant(sp, B, p, o)
  {
    forall q: nat | q in B
      ensures Apart(p, o, q, B[q])
    {
      assert Fits(sp, q, B[q]);
      var x := if p <= q then q else p;
      assert Holds(B, q, x) ==> Covered(B, x);
      assert x in Run(p, o) ==> x !in Pages(sp, B);
    }
  }

  lemma HandStep(s: System, p: nat, o: nat, m: nat)
    requires Consistent(s) && Enabled(s, Hand(p, o, m))
    ensures Consistent(Step(s, Hand(p, o, m)))
  {
    hide Inv, Coalesced, FreeBlocks, FreeSet, Placed, Fits, Vacant, Pages, Run, FreeOnePage;
    ReturnedVacant(s, Hand(p, o, m));
    FreeGood(s.z, p, o, m);
  }

  lemma AllocStep(s: System, o: nat, m: nat)
    requires Consistent(s) && Enabled(s, Alloc(o, m))
    ensures Consistent(Step(s, Alloc(o, m)))
  {
    hide Inv, Coalesced, FreeBlocks, FreeSet, Placed, Vacant, Pages, Run, Rmqueue;
    RmqueueGood(s.z, o, m);
    var t := Rmqueue(s.z, o, m);
    if t.got.Got? {
      var p := t.got.pfn;
      assert Fits(SpanOf(s.z), p, o) by { VacantFits(t.z, p, o); }
      DisjointVacant(SpanOf(s.z), s.out, p, o);
      PlacedAdd(SpanOf(s.z), s.out, p, o);
      PagesAdd(SpanOf(s.z), s.out, p, o);
    }
  }

  lemma FreeStep(s: System, p: nat, m: nat)
    requires Consistent(s) && Enabled(s, Free(p, m))
    ensures Consistent(Step(s, Free(p, m)))
  {
    hide Inv, Coalesced, FreeBlocks, FreeSet, Placed, Vacant, Pages, Run, FreeOnePage, Fits;
    var o := s.out[p];
    PagesDel(SpanOf(s.z), s.out, p);
    ReturnedVacant(s, Free(p, m));
    FreeGood(s.z, p, o, m);
  }

  lemma MoveStep(s: System, p: nat, m: nat)
    requires Consistent(s) && Enabled(s, MoveTo(p, m))
    ensures Consistent(Step(s, MoveTo(p, m)))
  {
    hide Inv, Coalesced, FreeBlocks, Placed, Pages, MoveBlock;
    MoveBlockGood(s.z, p, m);
  }

  lemma VacantFits(z: Zone, p: nat, o: nat)
    requires VacantIn(z, p, o)
    ensures Fits(SpanOf(z), p, o)
  {
  }

  lemma OutFits(sp: Span, B: Blocks, p: nat)
    requires Placed(sp, B) && p in B
    ensures Fits(sp, p, B[p])
  {
  }

  lemma GoodPlaced(z: Zone)
    requires Good(z)
    ensures Placed(SpanOf(z), FreeBlocks(z))
  {
  }

  lemma FreeSetIs(z: Zone)
    ensures FreeSet(z) == Pages(SpanOf(z), FreeBlocks(z))
  {
  }

  /** What a hand-over or a free returns to the zone is a block none of whose pages is free. */
  lemma ReturnedVacant(s: System, op: Op)
    requires Consistent(s) && Enabled(s, op) && (op.Hand? || op.Free?)
    ensures VacantIn(s.z, op.pfn, if op.Hand? then op.order else s.out[op.pfn])
  {
    hide Inv, Coalesced, FreeBlocks, FreeSet, Placed, Vacant, Pages, Run, Fits;
    GoodPlaced(s.z);
    FreeSetIs(s.z);
    if op.Free? {
      PagesDel(SpanOf(s.z), s.out, op.pfn);
      OutFits(SpanOf(s.z), s.out, op.pfn);
    }
    DisjointVacant(SpanOf(s.z), FreeBlocks(s.z), op.pfn, if op.Hand? then op.order else s.out[op.pfn]);
  }

  lemma StepConsistent(s: System, op: Op)
    requires Consistent(s) && Enabled(s, op)
    ensures Consistent(Step(s, op))
  {
    hide Consistent, Enabled, Step;
    match op
    case Hand(p, o, m) => HandStep(s, p, o, m);
    case Alloc(o, m) => AllocStep(s, o, m);
    case Free(p, m) => FreeStep(s, p, m);
    case MoveTo(p, m) => MoveStep(s, p, m);
  }

  /** Every run keeps the zone well formed and coalesced and accounts for every page given to it. */
  lemma {:induction false} RunConsistent(s: System, ops: seq<Op>)
    requires Consistent(s) && Runs(s, ops)
    ensures Consistent(After(s, ops))
    decreases ops
  {
    hide Consistent, Enabled, Step;
    if ops != [] {
      StepConsistent(s, ops[0]);
      RunConsistent(Step(s, ops[0]), ops[1..]);
    }
  }

  /** The state init_zone leaves. */
  function Start(start: nat, size: nat, buddy: set<nat>, priv: map<nat, nat>): System {
    System(InitZone(start, size, buddy, priv), map[], {})
  }

  lemma StartConsistent(start: nat, size: nat, buddy: set<nat>, priv: map<nat, nat>)
    requires forall p :: p in buddy ==> !(start <= p < start + size)
    ensures Consistent(Start(start, size, buddy, priv))
  {
    hide Inv, FreeSet, Placed;
    InitOk(start, size, buddy, priv);
    var s := Start(start, size, buddy, priv);
    NoPages(SpanOf(s.z));
  }

  /** Exactly one block holds page `x`. */
  ghost predicate HeldOnce(B: Blocks, x: nat) {
    exists p: nat :: Holds(B, p, x) && forall q: nat :: Holds(B, q, x) ==> q == p
  }

  lemma CoveredOnce(sp: Span, B: Blocks, x: nat)
    requires Placed(sp, B) && Covered(B, x)
    ensures HeldOnce(B, x)
  {
    var p: nat :| Holds(B, p, x);
    forall q: nat | Holds(B, q, x)
      ensures q == p
    {
      var o, k := B[p], B[q];
      assert q != p ==> Apart(p, o, q, k);
    }
  }

  /**
   Conservation, in every run from init_zone: each page given to the zone is in exactly one free block
   or exactly one outstanding block, never both; the counters count the lists and the free pages;
   and the flags mark exactly the blocks on the lists.
   */
  lemma PagesConserved(start: nat, size: nat, buddy: set<nat>, priv: map<nat, nat>, ops: seq<Op>)
    requires forall p :: p in buddy ==> !(start <= p < start + size)
    requires Runs(Start(start, size, buddy, priv), ops)
    ensures var s := After(Start(start, size, buddy, priv), ops);
            var B := FreeBlocks(s.z);
            && (forall x :: x in s.given ==> HeldOnce(B, x) != HeldOnce(s.out, x))
            && (forall x :: x in s.given ==> !(Covered(B, x) && Covered(s.out, x)))
            && s.z.freePages + |OutSet(s)| == |s.given|
            && s.z.freePages == Weighted(s.z.nrFree, MAX_ORDER)
            && NrFreeOk(s.z.nrFree, s.z.lists) && ListsOk(s.z.lists, B)
            && Placed(SpanOf(s.z), B) && Placed(SpanOf(s.z), s.out) && Coalesced(B)
  {
    StartConsistent(start, size, buddy, priv);
    RunConsistent(Start(start, size, buddy, priv), ops);
    Accounted(After(Start(start, size, buddy, priv), ops));
  }

  lemma Accounted(s: System)
    requires Consistent(s)
    ensures forall x :: x in s.given ==> HeldOnce(FreeBlocks(s.z), x) != HeldOnce(s.out, x)
    ensures forall x :: x in s.given ==> !(Covered(FreeBlocks(s.z), x) && Covered(s.out, x))
    ensures s.z.freePages + |OutSet(s)| == |s.given|
    ensures Inv(s.z) && Placed(SpanOf(s.z), s.out) && Coalesced(FreeBlocks(s.z))
  {
    hide SlotsOk, ListsOk, NrFreeOk, Placed, Coalesced, FreeBlocks, Weighted, Holds;
    var B := FreeBlocks(s.z);
    forall x | x in s.given
      ensures Covered(B, x) != Covered(s.out, x)
      ensures HeldOnce(B, x) != HeldOnce(s.out, x)
    {
      if Covered(B, x) {
        CoveredOnce(SpanOf(s.z), B, x);
      } else {
        CoveredOnce(SpanOf(s.z), s.out, x);
      }
    }
    assert |s.given| == |FreeSet(s.z)| + |OutSet(s)|;
  }

  /** Completeness in every reachable zone whose free blocks are of the three ordinary types. */
  lemma ReachableComplete(start: nat, size: nat, buddy: set<nat>, priv: map<nat, nat>, ops: seq<Op>, o: nat, m: nat)
    requires forall p :: p in buddy ==> !(start <= p < start + size)
    requires Runs(Start(start, size, buddy, priv), ops) && m < 3 && o < MAX_ORDER
    requires Ordinary(After(Start(start, size, buddy, priv), ops).z)
    ensures var z := After(Start(start, size, buddy, priv), ops).z;
            && (Rmqueue(z, o, m).got.Got? <==> exists a: nat :: FreeRun(z, a, o))
            && (o >= 1 ==> (Rmqueue(z, o, m).got.Nothing? <==> !exists a: nat :: FreeRun(z, a, o)))
  {
    hide Runs, After, Start, Rmqueue, FreeRun, Ordinary, Good;
    StartConsistent(start, size, buddy, priv);
    RunConsistent(Start(start, size, buddy, priv), ops);
    AllocationComplete(After(Start(start, size, buddy, priv), ops).z, o, m);
  }
}
