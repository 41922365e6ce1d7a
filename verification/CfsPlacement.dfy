/** Where an operation leaves the entity it is about: the vruntime a departure keeps, an arrival gets, a move carries. */
module CfsPlacement {
  import opened Common
  import opened FixedPoint
  import opened Cfs
  import opened CfsTimeline
  import opened CfsRuns
  import opened CfsSleepers

  // ----- leaving

  lemma DetachedIs(q: Queue, e: Id, now: int)
    requires e in q.ents && e in UpdateCurr(Wide, q, now).ents
    ensures var u, r := UpdateCurr(Wide, q, now), Detached(Wide, q, e, now);
            && r.ents == u.ents[e := u.ents[e].(onRq := false)] && r.minVruntime == u.minVruntime
            && r.curr == u.curr && r.nrRunning == u.nrRunning
  {
    hide UpdateCurr, Without, Successor;
  }

  lemma DepartedIs(q: Queue, e: Id, sleep: bool)
    requires e in q.ents
    ensures var r := UpdateMin(Wide, Departed(Wide, q, e, sleep));
            && Vr(r, e) == (if sleep then Vr(q, e) else Vr(q, e) - q.minVruntime)
            && OnSet(r) == OnSet(q) && forall x: Id :: x != e ==> Vr(r, x) == Vr(q, x)
  {
    hide Candidate, MaxVr;
    var r := UpdateMin(Wide, Departed(Wide, q, e, sleep));
    assert r.ents == q.ents[e := q.ents[e].(vruntime := Vr(r, e))];
  }

  /**
   What a departure leaves: a sleeper keeps its charged vruntime, anybody else takes along the distance from
   min_vruntime; it is off the queue, and nobody else moves.
   */
  lemma DequeueVr(q: Queue, e: Id, sleep: bool, now: int)
    requires Ok(q) && e in q.ents && OnRq(q, e)
    ensures var u, r := UpdateCurr(Wide, q, now), Dequeue(Wide, q, e, sleep, now);
            && Vr(r, e) == (if sleep then Vr(u, e) else Vr(u, e) - u.minVruntime)
            && OnSet(r) == OnSet(q) - {e} && forall x: Id :: x != e ==> Vr(r, x) == Vr(u, x)
  {
    TickOk(q, now);
    TickKeys(q, now);
    var u, d := UpdateCurr(Wide, q, now), Detached(Wide, q, e, now);
    hide Ok, UpdateCurr, Detached, Departed, UpdateMin, Kept;
    DetachedIs(q, e, now);
    DepartedIs(d, e, sleep);
    assert OnSet(d) == OnSet(u) - {e};
    assert forall x: Id :: Vr(d, x) == Vr(u, x);
    hide OnSet, Vr;
  }

  lemma TickKeys(q: Queue, now: int)
    requires q.curr.Some? ==> q.curr.value in q.ents
    ensures UpdateCurr(Wide, q, now).ents.Keys == q.ents.Keys
    ensures forall x: Id :: q.curr != Some(x) ==> Vr(UpdateCurr(Wide, q, now), x) == Vr(q, x)
  {
    hide Charge, Candidate;
  }

  /** A departure ends with min_vruntime the larger of what the charge left and the least vruntime still queued. */
  lemma DequeueMin(q: Queue, e: Id, sleep: bool, now: int) returns (x: Id)
    requires Ok(q) && e in q.ents && OnRq(q, e)
    ensures var u, r := UpdateCurr(Wide, q, now), Dequeue(Wide, q, e, sleep, now);
            && (OnSet(r) == {} ==> r.minVruntime == u.minVruntime)
            && (OnSet(r) != {} ==>
                  && x in OnSet(r) && (forall y: Id :: y in OnSet(r) ==> Vr(r, x) <= Vr(r, y))
                  && r.minVruntime == if Vr(r, x) > u.minVruntime then Vr(r, x) else u.minVruntime)
  {
    OkStage(q);
    TickOk(q, now);
    TickKeys(q, now);
    var O := OnSet(q);
    var L := O - CurrSet(q);
    hide Ok, Stage, Kept, UpdateCurr, Detached, Departed, OnSet, Vr, Tree, Candidate;
    DetachedStage(q, L, O, |O|, e, now);
    var d := Detached(Wide, q, e, now);
    StageCount(d, L - {e}, O - {e}, |O|);
    KeptKeys(q, d, L - {e});
    DepartedStage(d, L - {e}, O - {e}, |O|, e, sleep);
    var v := Departed(Wide, d, e, sleep);
    StageTree(v, L - {e}, O - {e}, |O| - 1);
    DetachedIs(q, e, now);
    MinKept(d, e, sleep);
    QueuedSame(v, UpdateMin(Wide, v));
    assert CurrSet(v) == CurrSet(q);
    if O - {e} != {} {
      x := MinIsLeast(v, L - {e});
    } else {
      x := e;
      IdleMin(v, L - {e});
    }
  }

  lemma MinKept(q: Queue, e: Id, sleep: bool)
    ensures Departed(Wide, q, e, sleep).minVruntime == q.minVruntime
  {
  }

  lemma QueuedSame(q: Queue, r: Queue)
    requires r.ents == q.ents
    ensures OnSet(r) == OnSet(q) && forall x: Id :: Vr(r, x) == Vr(q, x)
  {
  }

  /** With nothing queued the minimum stays where it is. */
  lemma IdleMin(q: Queue, L: set<Id>)
    requires Tree(q, L) && L == {} && OnSet(q) == {}
    ensures UpdateMin(Wide, q).minVruntime == q.minVruntime
  {
    OnIn(q);
    if q.timeline != [] { HasMember(q.timeline); }
    hide OnRq, OnSet;
  }

  lemma OnIn(q: Queue)
    ensures forall e: Id :: OnRq(q, e) <==> e in OnSet(q)
  {
  }

  lemma HasMember(s: seq<Id>)
    requires s != []
    ensures exists e: Id :: e in s
  {
    assert s[0] in s;
  }

  // ----- arriving

  /**
   What an arrival gets. Unless it is a plain wakeup, its vruntime counts from the minimum before the charge; a
   wakeup is then raised to the charged minimum less the credit. It is queued, and nobody else moves.
   */
  lemma EnqueueVr(q: Queue, e: Id, wakeup: bool, waking: bool, now: int)
    requires Ok(q) && e in q.ents && !OnRq(q, e)
    ensures var u, r := UpdateCurr(Wide, q, now), Enqueue(Wide, q, e, wakeup, waking, now);
            var v := Vr(u, e) + (if wakeup && !waking then 0 else q.minVruntime);
            && Vr(r, e) == (if wakeup && v < u.minVruntime - u.thresh then u.minVruntime - u.thresh else v)
            && r.minVruntime == u.minVruntime && OnSet(r) == OnSet(q) + {e}
            && forall x: Id :: x != e ==> Vr(r, x) == Vr(u, x)
  {
    EnqueueIs(q, e, wakeup, waking, now);
    TickOk(q, now);
    hide UpdateCurr, Enqueue, Ok, OnSet, Vr;
  }

  /**
   An entity that leaves one queue without sleeping and joins another, or the same, without a wakeup stands as far
   from the new minimum as it stood from the old one. Only a charge of its own in between adds to that.
   */
  lemma MoveKeepsDistance(q: Queue, e: Id, now: int, q': Queue, waking: bool, now': int)
    requires Ok(q) && e in q.ents && OnRq(q, e)
    requires Ok(q') && e in q'.ents && !OnRq(q', e) && Vr(q', e) == Vr(Dequeue(Wide, q, e, false, now), e)
    ensures var u, r' := UpdateCurr(Wide, q, now), Enqueue(Wide, q', e, false, waking, now');
            var own := Vr(UpdateCurr(Wide, q', now'), e) - Vr(q', e);
            && Vr(r', e) - q'.minVruntime == Vr(u, e) - u.minVruntime + own
            && own >= 0 && (q'.curr != Some(e) ==> own == 0)
  {
    DequeueVr(q, e, false, now);
    EnqueueVr(q', e, false, waking, now');
    RebaseTick(q', e, 0, now');
    CurrIn(q');
    TickKeys(q', now');
    hide UpdateCurr, Enqueue, Dequeue, Ok, OnSet, Vr;
  }

  lemma CurrIn(q: Queue)
    requires Ok(q)
    ensures q.curr.Some? ==> q.curr.value in q.ents
  {
    if q.curr.Some? { assert q.curr.value in CurrSet(q); }
  }

  /** A sleeper that wakes is where it fell asleep, unless the queue has moved on by more than the credit. */
  lemma SleepKeepsPlace(q: Queue, e: Id, now: int, q': Queue, now': int)
    requires Ok(q) && e in q.ents && OnRq(q, e)
    requires Ok(q') && e in q'.ents && !OnRq(q', e) && q'.curr != Some(e)
    requires Vr(q', e) == Vr(Dequeue(Wide, q, e, true, now), e)
    ensures var u, u', r' := UpdateCurr(Wide, q, now), UpdateCurr(Wide, q', now'), Enqueue(Wide, q', e, true, false, now');
            var floor := u'.minVruntime - u'.thresh;
            Vr(r', e) == if Vr(u, e) < floor then floor else Vr(u, e)
  {
    DequeueVr(q, e, true, now);
    EnqueueVr(q', e, true, false, now');
    CurrIn(q');
    TickKeys(q', now');
    hide UpdateCurr, Enqueue, Dequeue, Ok, OnSet, Vr;
  }
}
