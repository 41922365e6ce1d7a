/**
 The buddy page allocator of kernel/mm/buddy.c as functions on a zone value.
 The class in BuddyZone.dfy runs the same operations in place and is proved against these.
 */
module Buddy {
  import opened Common
  import opened Bits

  const MAX_ORDER: nat := 11
  const MIGRATE_UNMOVABLE: nat := 0
  const MIGRATE_MOVABLE: nat := 1
  const MIGRATE_RECLAIMABLE: nat := 2
  const MIGRATE_RESERVE: nat := 3
  const MIGRATE_TYPES: nat := 6
  /** Not defined in the repository; the value upstream uses without huge pages. */
  const PAGEBLOCK_ORDER: nat := MAX_ORDER - 1

  /** `free_area[order].free_list[mt]`. */
  datatype Slot = Slot(order: nat, mt: nat)

  /**
   `lists` holds every free list front first, `nrFree` the per-order counters, `buddy` the pages whose
   PageBuddy flag is set (pages of other zones included) and `priv` the page private fields.
   */
  datatype Zone = Zone(start: nat, size: nat, lists: map<Slot, seq<nat>>, nrFree: map<nat, int>,
                       freePages: int, buddy: set<nat>, priv: map<nat, nat>)

  /** A page, NULL, or the run-away of an unsigned loop counter below zero. */
  datatype Outcome = Got(pfn: nat) | Nothing | OutOfBounds

  datatype Taken = Taken(z: Zone, got: Outcome)
  datatype Merged = Merged(z: Zone, pfn: nat, order: nat)
  datatype Moved = Moved(z: Zone, count: nat)
  datatype Suitable = NoFallback | Fallback(mt: nat, canSteal: bool)

  function List(z: Zone, o: nat, m: nat): seq<nat> {
    if Slot(o, m) in z.lists then z.lists[Slot(o, m)] else []
  }

  function NrFree(z: Zone, o: nat): int {
    if o in z.nrFree then z.nrFree[o] else 0
  }

  function PageOrder(z: Zone, p: nat): nat {
    if p in z.priv then z.priv[p] else 0
  }

  predicate InZone(z: Zone, p: nat) {
    z.start <= p < z.start + z.size
  }

  function FindBuddyPfn(p: nat, o: nat): nat {
    Xor(p, Pow2(o))
  }

  /** page_is_buddy for a page of this zone: flag, order and zone of the candidate. */
  predicate PageIsBuddy(z: Zone, b: nat, o: nat) {
    b in z.buddy && PageOrder(z, b) == o && InZone(z, b)
  }

  /** list_del: unlinks the page from whichever list holds it. */
  function Unlink(lists: map<Slot, seq<nat>>, p: nat): map<Slot, seq<nat>> {
    map s | s in lists :: Without(lists[s], p)
  }

  function Del(z: Zone, p: nat, o: nat): Zone {
    z.(buddy := z.buddy - {p}, priv := z.priv[p := 0], lists := Unlink(z.lists, p),
       nrFree := z.nrFree[o := NrFree(z, o) - 1], freePages := z.freePages - Pow2(o))
  }

  function Add(z: Zone, p: nat, o: nat, m: nat): Zone {
    z.(buddy := z.buddy + {p}, priv := z.priv[p := o], lists := z.lists[Slot(o, m) := [p] + List(z, o, m)],
       nrFree := z.nrFree[o := NrFree(z, o) + 1], freePages := z.freePages + Pow2(o))
  }

  function Expand(z: Zone, p: nat, low: nat, high: nat, m: nat): Zone
    decreases high
  {
    if high <= low then z
    else Expand(Add(z, p + Pow2(high - 1), high - 1, m), p, low, high - 1, m)
  }

  function Smallest(z: Zone, cur: nat, o: nat, m: nat): Taken
    decreases MAX_ORDER - cur
  {
    if cur >= MAX_ORDER then Taken(z, Nothing)
    else if List(z, cur, m) == [] then Smallest(z, cur + 1, o, m)
    else
      var p := List(z, cur, m)[0];
      Taken(Expand(Del(z, p, cur), p, o, cur, m), Got(p))
  }

  function RmqueueSmallest(z: Zone, o: nat, m: nat): Taken {
    Smallest(z, o, o, m)
  }

  /** The fallback table row of `m`, up to its terminator. The RESERVE row has none. */
  function Fallbacks(m: nat): seq<nat>
    requires m != MIGRATE_RESERVE
  {
    if m == MIGRATE_UNMOVABLE then [MIGRATE_RECLAIMABLE, MIGRATE_MOVABLE]
    else if m == MIGRATE_RECLAIMABLE then [MIGRATE_UNMOVABLE, MIGRATE_MOVABLE]
    else if m == MIGRATE_MOVABLE then [MIGRATE_RECLAIMABLE, MIGRATE_UNMOVABLE]
    else []
  }

  predicate CanStealFallback(o: nat, m: nat) {
    o >= PAGEBLOCK_ORDER || m == MIGRATE_MOVABLE
  }

  function FirstNonEmpty(z: Zone, o: nat, row: seq<nat>): (rest: seq<nat>)
    ensures rest != [] ==> rest[0] in row && List(z, o, rest[0]) != []
    ensures rest == [] ==> forall m :: m in row ==> List(z, o, m) == []
  {
    if row == [] then [] else if List(z, o, row[0]) != [] then row else FirstNonEmpty(z, o, row[1..])
  }

  /** find_suitable_fallback with `only_stealable` false, as its only caller passes it. */
  function FindSuitable(z: Zone, o: nat, m: nat): (r: Suitable)
    requires m != MIGRATE_RESERVE
    ensures r.Fallback? ==> r.mt in Fallbacks(m) && List(z, o, r.mt) != []
  {
    if NrFree(z, o) == 0 then NoFallback
    else
      var rest := FirstNonEmpty(z, o, Fallbacks(m));
      if rest == [] then NoFallback else Fallback(rest[0], CanStealFallback(o, m))
  }

  /** The loop of move_freepages over pages `p..hi`, jumping over each block it moves. */
  function MoveRange(z: Zone, p: nat, hi: nat, m: nat): Moved
    decreases hi + 1 - p
  {
    if p > hi then Moved(z, 0)
    else if p !in z.buddy then MoveRange(z, p + 1, hi, m)
    else
      var o := PageOrder(z, p);
      var rest := MoveRange(Add(Del(z, p, o), p, o, m), p + Pow2(o), hi, m);
      Moved(rest.z, rest.count + Pow2(o))
  }

  function MoveBlock(z: Zone, p: nat, m: nat): Moved {
    var first := p - p % Pow2(PAGEBLOCK_ORDER);
    var last := first + Pow2(PAGEBLOCK_ORDER) - 1;
    var from := if first < z.start then z.start else first;
    if last >= z.start + z.size then Moved(z, 0) else MoveRange(z, from, last, m)
  }

  /** steal_suitable_fallback; it reads the order from the private field. */
  function Steal(z: Zone, p: nat, m: nat): Zone {
    if PageOrder(z, p) < PAGEBLOCK_ORDER then z else MoveBlock(z, p, m).z
  }

  /** The countdown loop of __rmqueue_fallback; an unsigned counter passing zero leaves the array. */
  function FallbackFrom(z: Zone, cur: nat, o: nat, m: nat): Taken
    requires m != MIGRATE_RESERVE
    decreases cur
  {
    if cur < o then Taken(z, Nothing)
    else
      match FindSuitable(z, cur, m)
      case NoFallback =>
        if cur == 0 then Taken(z, OutOfBounds) else FallbackFrom(z, cur - 1, o, m)
      case Fallback(fm, canSteal) =>
        var p := List(z, cur, fm)[0];
        var z1 := Del(z, p, cur);
        var z2 := if canSteal then Steal(z1, p, m) else z1;
        Taken(Expand(z2, p, o, cur, m), Got(p))
  }

  function RmqueueFallback(z: Zone, o: nat, m: nat): Taken
    requires m != MIGRATE_RESERVE
  {
    FallbackFrom(z, MAX_ORDER - 1, o, m)
  }

  /** The locked part of rmqueue. */
  function Rmqueue(z: Zone, o: nat, m: nat): Taken
    requires m != MIGRATE_RESERVE
  {
    var first := RmqueueSmallest(z, o, m);
    if first.got.Got? then first else RmqueueFallback(first.z, o, m)
  }

  function Merge(z: Zone, p: nat, o: nat): Merged
    decreases MAX_ORDER - o
  {
    var b := FindBuddyPfn(p, o);
    if o < MAX_ORDER - 1 && PageIsBuddy(z, b, o) then Merge(Del(z, b, o), And(b, p), o + 1)
    else Merged(z, p, o)
  }

  function FreeOnePage(z: Zone, p: nat, o: nat, m: nat): Zone {
    var r := Merge(z, p, o);
    Add(r.z, r.pfn, r.order, m)
  }

  /** A zone as init_zone leaves it, over pages whose flags and private fields it does not touch. */
  function InitZone(start: nat, size: nat, buddy: set<nat>, priv: map<nat, nat>): Zone {
    Zone(start, size, EmptyLists(),
         map o | o in AllOrders() :: 0, 0, buddy, priv)
  }

  function EmptyLists(): map<Slot, seq<nat>> {
    map s | s in AllSlots() :: []
  }

  function AllOrders(): set<nat> {
    {0, 1, 2, 3, 4, 5, 6, 7, 8, 9, 10}
  }

  function AllSlots(): set<Slot> {
    set o: nat, m: nat | o < MAX_ORDER && m < MIGRATE_TYPES :: Slot(o, m)
  }
}
