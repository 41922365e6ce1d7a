/** Entities keep their order while they stay linked, and equal vruntimes stand in the order they were linked. */
module CfsOrder {
  import opened Common
  import opened FixedPoint
  import opened Cfs
  import opened CfsTimeline
  import opened CfsRuns

  ghost predicate Precedes(s: seq<Id>, x: Id, y: Id) {
    exists i, j :: 0 <= i < j < |s| && s[i] == x && s[j] == y
  }

  /**
   What an operation does to the order: entities that stay keep it, and whoever joins stands behind every
   entity that stays and is not greater.
   */
  ghost predicate OrderKept(q: Queue, r: Queue) {
    forall x: Id, y: Id :: x in q.timeline && x in r.timeline && y in r.timeline ==>
      && (Precedes(q.timeline, x, y) ==> Precedes(r.timeline, x, y))
      && (y !in q.timeline && Vr(r, x) <= Vr(r, y) ==> Precedes(r.timeline, x, y))
  }

  // ----- one insertion, one removal

  lemma SplicedPair(s: seq<Id>, k: nat, e: Id, t: seq<Id>, i: nat, j: nat)
    requires k <= |s| && t == s[..k] + [e] + s[k..] && i < j < |s|
    ensures Precedes(t, s[i], s[j])
  {
    var a, b := if i < k then i else i + 1, if j < k then j else j + 1;
    assert t[a] == s[i] && t[b] == s[j];
  }

  lemma SplicedBehind(s: seq<Id>, k: nat, e: Id, t: seq<Id>, i: nat)
    requires i < k <= |s| && t == s[..k] + [e] + s[k..]
    ensures Precedes(t, s[i], e)
  {
    assert t[i] == s[i] && t[k] == e;
  }

  lemma CutPair(s: seq<Id>, k: nat, t: seq<Id>, i: nat, j: nat)
    requires k < |s| && t == s[..k] + s[k + 1..] && i < j < |s| && i != k && j != k
    ensures Precedes(t, s[i], s[j])
  {
    var a, b := if i < k then i else i - 1, if j < k then j else j - 1;
    assert t[a] == s[i] && t[b] == s[j];
  }

  lemma InsertOrder(q: Queue, s: seq<Id>, e: Id)
    requires Sorted(q, s)
    ensures var t := Insert(Wide, q, s, e);
            && (forall x: Id, y: Id :: Precedes(s, x, y) ==> Precedes(t, x, y))
            && (forall x: Id :: x in s && Vr(q, x) <= Vr(q, e) ==> Precedes(t, x, e))
            && (forall x: Id :: x in t <==> x in s || x == e)
  {
    var k := InsertPosition(q, s, e);
    var t := Insert(Wide, q, s, e);
    hide Insert, Vr, Sorted;
    SpliceMembers(s, k, e, t);
    forall x: Id, y: Id | Precedes(s, x, y)
      ensures Precedes(t, x, y)
    {
      var i, j :| 0 <= i < j < |s| && s[i] == x && s[j] == y;
      hide Precedes;
      SplicedPair(s, k, e, t, i, j);
    }
    hide Precedes;
    forall x: Id | x in s && Vr(q, x) <= Vr(q, e)
      ensures Precedes(t, x, e)
    {
      var i :| 0 <= i < |s| && s[i] == x;
      SplicedBehind(s, k, e, t, i);
    }
  }

  lemma WithoutOrder(s: seq<Id>, e: Id)
    requires NoDup(s) && e in s
    ensures var t := Without(s, e);
            && (forall x: Id, y: Id :: Precedes(s, x, y) && x != e && y != e ==> Precedes(t, x, y))
            && (forall x: Id :: x in t <==> x in s && x != e)
  {
    var k := RemovePosition(s, e);
    var t := Without(s, e);
    hide Without;
    CutMembers(s, k, t);
    hide NoDup;
    forall x: Id, y: Id | Precedes(s, x, y) && x != e && y != e
      ensures Precedes(t, x, y)
    {
      var i, j :| 0 <= i < j < |s| && s[i] == x && s[j] == y;
      hide Precedes;
      CutPair(s, k, t, i, j);
    }
  }

  // ----- what they make of a queue

  lemma SameOrder(q: Queue, r: Queue)
    requires r.timeline == q.timeline
    ensures OrderKept(q, r)
  {
    hide Precedes;
  }

  /** `u` has the timeline of `q`; `r` is `u` with `e` linked. */
  lemma JoinOrder(q: Queue, u: Queue, e: Id, r: Queue)
    requires u.timeline == q.timeline && Sorted(u, u.timeline)
    requires r.timeline == Insert(Wide, u, u.timeline, e) && forall x: Id :: Vr(r, x) == Vr(u, x)
    ensures OrderKept(q, r)
  {
    InsertOrder(u, u.timeline, e);
    hide Precedes, Insert, Vr;
  }

  /** `r` is `u` with `e` unlinked. */
  lemma LeaveOrder(q: Queue, u: Queue, e: Id, r: Queue)
    requires OrderKept(q, u) && NoDup(u.timeline) && e in u.timeline
    requires r.timeline == Without(u.timeline, e) && forall x: Id :: x in r.timeline ==> Vr(r, x) == Vr(u, x)
    ensures OrderKept(q, r)
  {
    WithoutOrder(u.timeline, e);
    hide Precedes, Without, Vr;
  }

  // ----- operations

  lemma TickTimeline(q: Queue, now: int)
    ensures UpdateCurr(Wide, q, now).timeline == q.timeline
    ensures forall e: Id :: OnRq(UpdateCurr(Wide, q, now), e) == OnRq(q, e)
  {
  }

  lemma PreparedTimeline(q: Queue, e: Id, wakeup: bool, waking: bool, now: int)
    ensures Prepared(Wide, q, e, wakeup, waking, now).timeline == q.timeline
    ensures Prepared(Wide, q, e, wakeup, waking, now).curr == q.curr
  {
    hide Candidate, ChargedEnt;
  }

  lemma SetOnVr(q: Queue, e: Id, on: bool)
    ensures SetOn(q, e, on).timeline == q.timeline && forall x: Id :: Vr(SetOn(q, e, on), x) == Vr(q, x)
  {
  }

  lemma EnqueueOrder(q: Queue, e: Id, wakeup: bool, waking: bool, now: int)
    requires Ok(q) && e in q.ents && !OnRq(q, e)
    ensures OrderKept(q, Enqueue(Wide, q, e, wakeup, waking, now))
  {
    OkStage(q);
    var L := OnSet(q) - CurrSet(q);
    hide Ok, OnSet, Prepared, OrderKept, Vr, SetOn, Insert, OnRq;
    PreparedStage(q, L, OnSet(q), |OnSet(q)|, e, wakeup, waking, now);
    PreparedTimeline(q, e, wakeup, waking, now);
    var u := Prepared(Wide, q, e, wakeup, waking, now);
    var v := if u.curr != Some(e) then Link(Wide, u, e) else u;
    SetOnVr(v, e, true);
    SameVr(u, v);
    if u.curr != Some(e) {
      JoinOrder(q, u, e, SetOn(v, e, true));
    } else {
      SameOrder(q, SetOn(v, e, true));
    }
  }

  lemma DequeueTimeline(q: Queue, e: Id, sleep: bool, now: int)
    ensures Dequeue(Wide, q, e, sleep, now).timeline ==
            if q.curr != Some(e) then Without(q.timeline, e) else q.timeline
  {
    hide Candidate, ChargedEnt, Without, Successor, MaxVr;
  }

  lemma DequeueOrder(q: Queue, e: Id, sleep: bool, now: int)
    requires Ok(q) && e in q.ents && OnRq(q, e)
    ensures OrderKept(q, Dequeue(Wide, q, e, sleep, now))
  {
    var r := Dequeue(Wide, q, e, sleep, now);
    OkStage(q);
    DequeueTimeline(q, e, sleep, now);
    if q.curr != Some(e) {
      assert e in q.timeline;
      WithoutOrder(q.timeline, e);
      DequeueOk(q, e, sleep, now);
      SameOrder(q, q);
      hide Dequeue, OrderKept, Vr, Without, OnSet, OnRq;
      LeaveOrder(q, q, e, r);
    } else {
      SameOrder(q, r);
    }
  }

  lemma PutPrevOrder(q: Queue, now: int)
    requires Ok(q) && q.curr.Some?
    ensures OrderKept(q, PutPrev(Wide, q, q.curr.value, now))
  {
    var e, u := q.curr.value, UpdateCurr(Wide, q, now);
    var r := PutPrev(Wide, q, e, now);
    TickTimeline(q, now);
    TickOk(q, now);
    hide UpdateCurr, OrderKept, Insert, Vr, OnRq, OnSet, CurrSet;
    if OnRq(q, e) {
      assert r.timeline == Insert(Wide, u, u.timeline, e);
      SameVr(u, r);
      JoinOrder(q, u, e, r);
    } else {
      SameOrder(q, r);
    }
  }

  lemma PickFreshOrder(q: Queue, u: Queue, c: Clock, t: Tests)
    requires Ok(u) && u.curr.None? && OrderKept(q, u)
    ensures OrderKept(q, PickFresh(Wide, u, c, t).q)
  {
    ChosenQueued(u, t);
    OkStage(u);
    PickFreshOk(u, c, t);
    hide OrderKept, Chosen, Without, Successor, Vr, Buddies;
    match Chosen(u, t)
    case None =>
    case Some(e) =>
      var r := PickFresh(Wide, u, c, t).q;
      assert r.timeline == Without(u.timeline, e);
      WithoutOrder(u.timeline, e);
      LeaveOrder(q, u, e, r);
  }

  lemma PickNextOrder(q: Queue, prevFair: bool, c: Clock, t: Tests)
    requires Ok(q) && prevFair == q.curr.Some?
    ensures OrderKept(q, PickNext(Wide, q, prevFair, c, t).q)
  {
    SameOrder(q, q);
    hide Ok, OrderKept, UpdateCurr, PutPrev, PickFresh, Key, OnRq, OnSet, Kept;
    if q.nrRunning != 0 {
      if prevFair {
        var q1 := UpdateCurr(Wide, q, c.now);
        TickOk(q, c.now);
        TickTimeline(q, c.now);
        SameOrder(q, q1);
        PutPrevOk(q1, c.put);
        PutPrevOrder(q1, c.put);
        var q2 := PutPrev(Wide, q1, q.curr.value, c.put);
        SameStart(q, q1, q2);
        PickFreshOrder(q, q2, c, t);
      } else {
        PickFreshOrder(q, q, c, t);
      }
    }
  }

  lemma SameStart(q: Queue, u: Queue, r: Queue)
    requires u.timeline == q.timeline && OrderKept(u, r)
    ensures OrderKept(q, r)
  {
    hide Precedes, Vr;
  }

  lemma StepOrder(q: Queue, op: Op)
    requires Ok(q) && Enabled(q, op)
    ensures OrderKept(q, Step(Wide, q, op))
  {
    hide Ok, OrderKept, UpdateCurr, Enqueue, Dequeue, PutPrev, PickNext;
    match op
    case Tick(now) => TickTimeline(q, now); SameOrder(q, UpdateCurr(Wide, q, now));
    case Enq(e, wakeup, waking, now) => EnqueueOrder(q, e, wakeup, waking, now);
    case Deq(e, sleep, now) => DequeueOrder(q, e, sleep, now);
    case Pick(prevFair, clock, tests) => PickNextOrder(q, prevFair, clock, tests);
    case Put(now) => PutPrevOrder(q, now);
    case SetBuddy(which, e) => SameOrder(q, Step(Wide, q, op));
  }

  // ----- runs

  /**
   Two entities that stay linked keep their order, and one that stays linked precedes every one that was
   linked anew and is not smaller.
   */
  lemma {:induction false} RunOrder(q: Queue, ops: seq<Op>, x: Id, y: Id)
    requires Ok(q) && Runs(Wide, q, ops) && LinkedThroughout(q, ops, x) && y in After(Wide, q, ops).timeline
    ensures x in After(Wide, q, ops).timeline
    ensures LinkedThroughout(q, ops, y) && Precedes(q.timeline, x, y) ==> Precedes(After(Wide, q, ops).timeline, x, y)
    ensures !LinkedThroughout(q, ops, y) && Vr(After(Wide, q, ops), x) <= Vr(After(Wide, q, ops), y) ==>
              Precedes(After(Wide, q, ops).timeline, x, y)
    decreases ops
  {
    hide Ok, Step, Enabled, Vr, Precedes;
    if ops != [] {
      var r := Step(Wide, q, ops[0]);
      StepOk(q, ops[0]);
      StepOrder(q, ops[0]);
      RunOk(r, ops[1..]);
      RunOrder(r, ops[1..], x, y);
      assert y !in r.timeline ==> !LinkedThroughout(r, ops[1..], y);
      assert x in r.timeline;
    }
  }

  /** Linked in every state from the one after `k` operations on. */
  ghost predicate LinkedSince(q: Queue, ops: seq<Op>, k: nat, e: Id)
    requires Runs(Wide, q, ops) && k <= |ops|
  {
    RunSplit(q, ops, k);
    LinkedThroughout(After(Wide, q, ops[..k]), ops[k..], e)
  }

  /**
   First linked, first in line: in every run, of two linked entities with the same vruntime the one whose link
   is older comes first. `k` is any moment at which `x` already had the link it still has, and `y` did not.
   */
  lemma FirstLinkedFirst(q: Queue, ops: seq<Op>, k: nat, x: Id, y: Id)
    requires Ok(q) && Runs(Wide, q, ops) && k <= |ops|
    requires LinkedSince(q, ops, k, x) && !LinkedSince(q, ops, k, y)
    requires y in After(Wide, q, ops).timeline && Vr(After(Wide, q, ops), x) == Vr(After(Wide, q, ops), y)
    ensures Precedes(After(Wide, q, ops).timeline, x, y)
  {
    hide Ok, Vr, Precedes, LinkedThroughout;
    RunSplit(q, ops, k);
    RunOk(q, ops[..k]);
    RunOrder(After(Wide, q, ops[..k]), ops[k..], x, y);
  }
}
