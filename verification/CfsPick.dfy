/** Which task a pick returns: when the previous one goes on, and who is next in line when it does not. */
module CfsPick {
  import opened Common
  import opened FixedPoint
  import opened Cfs
  import opened CfsTimeline
  import opened CfsRuns
  import opened CfsSleepers

  /** With nothing queued there is nothing to pick, and nothing happens. */
  lemma PickNothing(q: Queue, prevFair: bool, c: Clock, t: Tests)
    requires Ok(q) && OnSet(q) == {}
    ensures PickNext(Wide, q, prevFair, c, t) == Picked(q, None)
  {
  }

  /** The previous task may go on: it is queued, others are too, and none of them is smaller. */
  ghost predicate GoesOn(u: Queue, prev: Id) {
    OnRq(u, prev) && u.timeline != [] && forall x: Id :: x in u.timeline ==> Vr(u, prev) <= Vr(u, x)
  }

  lemma GoesOnIff(u: Queue, prev: Id)
    requires Ok(u)
    ensures Retains(Wide, u, prev) <==> GoesOn(u, prev)
  {
    hide OnSet;
    if u.timeline != [] {
      assert u.timeline[0] in u.timeline;
      forall x: Id | x in u.timeline
        ensures Vr(u, u.timeline[0]) <= Vr(u, x)
      {
        var i :| 0 <= i < |u.timeline| && u.timeline[i] == x;
      }
    }
    hide Vr, OnRq;
  }

  /** If it may, it does, and only the charge has happened. */
  lemma PickGoesOn(q: Queue, c: Clock, t: Tests)
    requires Ok(q) && q.curr.Some? && OnSet(q) != {} && GoesOn(UpdateCurr(Wide, q, c.now), q.curr.value)
    ensures PickNext(Wide, q, true, c, t) == Picked(UpdateCurr(Wide, q, c.now), q.curr)
  {
    TickOk(q, c.now);
    GoesOnIff(UpdateCurr(Wide, q, c.now), q.curr.value);
    QueuedCount(q);
    hide Ok, UpdateCurr, GoesOn, Retains, OnSet, PutPrev, PickFresh;
  }

  lemma QueuedCount(q: Queue)
    requires Ok(q) && OnSet(q) != {}
    ensures q.nrRunning != 0
  {
  }

  /** The queue a choice is made from: the previous task charged, put back and no longer current. */
  function Offered(q: Queue, c: Clock): Queue {
    if q.curr.Some? then PutPrev(Wide, UpdateCurr(Wide, q, c.now), q.curr.value, c.put) else q
  }

  /**
   The choice, out of everything queued, in line by vruntime: an approved next buddy before an approved last
   buddy, before the second in line if the first is to be skipped, before the first.
   */
  ghost predicate Choice(w: Queue, t: Tests, e: Id) {
    if w.next.Some? && t.next then w.next == Some(e)
    else if w.last.Some? && t.last then w.last == Some(e)
    else if |w.timeline| >= 2 && w.skip == Some(w.timeline[0]) && t.second then e == w.timeline[1]
    else w.timeline != [] && e == w.timeline[0]
  }

  lemma ChosenIs(w: Queue, t: Tests)
    requires Ok(w) && w.curr.None? && OnSet(w) != {}
    ensures Chosen(w, t).Some? && Choice(w, t, Chosen(w, t).value) && Chosen(w, t).value in w.timeline
    ensures w.timeline != []
  {
    ChosenQueued(w, t);
    OkStage(w);
    hide OnSet, Sorted, Vr;
    var x :| x in OnSet(w);
    assert x in w.timeline;
    assert w.leftmost == Some(w.timeline[0]) && w.timeline[0] in w.timeline;
    var k := RemovePosition(w.timeline, w.timeline[0]);
  }

  lemma OfferedOk(q: Queue, c: Clock)
    requires Ok(q)
    ensures var w := Offered(q, c); Ok(w) && w.curr.None? && OnSet(w) == OnSet(q)
    ensures var w := Offered(q, c); w.next == q.next && w.last == q.last && w.skip == q.skip
  {
    hide Ok, UpdateCurr, PutPrev, OnSet, Kept;
    if q.curr.Some? {
      TickOk(q, c.now);
      PutPrevOk(UpdateCurr(Wide, q, c.now), c.put);
    }
  }

  /** What being made current means: off the tree, clock started, no longer a buddy; nobody's vruntime changes. */
  ghost predicate Made(w: Queue, r: Queue, e: Id, at: int) {
    && r.curr == Some(e) && r.timeline == Without(w.timeline, e) && Ent(r, e) == Ent(w, e).(execStart := at)
    && r.next == (if w.next == Some(e) then None else w.next)
    && r.last == (if w.last == Some(e) then None else w.last)
    && r.skip == (if w.skip == Some(e) then None else w.skip)
    && r.minVruntime == w.minVruntime && forall x: Id :: x != e ==> Ent(r, x) == Ent(w, x)
  }

  lemma FreshMade(w: Queue, c: Clock, t: Tests, e: Id)
    requires Ok(w) && w.curr.None? && Chosen(w, t) == Some(e) && e in w.timeline
    ensures PickFresh(Wide, w, c, t).task == Some(e) && Made(w, PickFresh(Wide, w, c, t).q, e, c.set_)
  {
    OkStage(w);
    hide Ok, Chosen, Without, Successor, OnSet;
  }

  /** Otherwise the one whose turn it is becomes current. */
  lemma PickChanges(q: Queue, prevFair: bool, c: Clock, t: Tests) returns (e: Id)
    requires Ok(q) && prevFair == q.curr.Some? && OnSet(q) != {}
    requires q.curr.Some? ==> !GoesOn(UpdateCurr(Wide, q, c.now), q.curr.value)
    ensures var w, p := Offered(q, c), PickNext(Wide, q, prevFair, c, t);
            && Ok(w) && OnSet(w) == OnSet(q) && (forall x: Id :: x in w.timeline <==> x in OnSet(q))
            && e in OnSet(q) && Choice(w, t, e) && p.task == Some(e) && Made(w, p.q, e, c.set_)
  {
    OfferedOk(q, c);
    QueuedCount(q);
    var w := Offered(q, c);
    OkStage(w);
    if q.curr.Some? {
      TickOk(q, c.now);
      GoesOnIff(UpdateCurr(Wide, q, c.now), q.curr.value);
    }
    hide Ok, UpdateCurr, GoesOn, Retains, OnSet, PutPrev, PickFresh, Choice, Made, Chosen;
    ChosenIs(w, t);
    e := Chosen(w, t).value;
    FreshMade(w, c, t, e);
  }

  /**
   What setting a buddy is for, when no task is current: an approved next buddy is picked, so is an approved last
   buddy unless a next one is approved, and the first in line is passed over if it is to be skipped.
   */
  lemma BuddyPicked(q: Queue, which: Buddy, e: Id, c: Clock, t: Tests)
    requires Ok(q) && q.curr.None? && e in q.ents && OnRq(q, e)
    ensures var r := Step(Wide, q, SetBuddy(which, e)); var task := PickNext(Wide, r, false, c, t).task;
            && (which.Next? && t.next ==> task == Some(e))
            && (which.Last? && t.last && !(q.next.Some? && t.next) ==> task == Some(e))
            && (which.Skip? && t.second && !(q.next.Some? && t.next) && !(q.last.Some? && t.last) ==>
                  |q.timeline| >= 2 && q.timeline[0] == e ==> task == Some(q.timeline[1]))
            && r.ents == q.ents && r.timeline == q.timeline
  {
    var r := Step(Wide, q, SetBuddy(which, e));
    SetBuddyOk(q, which, e);
    assert e in OnSet(q);
    QueuedSame(q, r);
    hide Ok, OnSet, OnRq, PickNext, Made;
    var x := PickChanges(r, false, c, t);
  }

  lemma QueuedSame(q: Queue, r: Queue)
    requires r.ents == q.ents
    ensures OnSet(r) == OnSet(q)
  {
  }
}
