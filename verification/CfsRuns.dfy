/** Every operation of the fair queue keeps the timeline invariant; so does every run. */
module CfsRuns {
  import opened Common
  import opened FixedPoint
  import opened Cfs
  import opened CfsTimeline

  lemma SetVrIs(q: Queue, e: Id, v: int)
    requires e in q.ents
    ensures SetVr(q, e, v) == SetEnt(q, e, Ent(q, e).(vruntime := v)) && OnRq(SetVr(q, e, v), e) == OnRq(q, e)
    ensures SetVr(q, e, v) == q.(ents := SetVr(q, e, v).ents)
  {
  }

  lemma StageSetVr(q: Queue, L: set<Id>, O: set<Id>, n: int, e: Id, v: int)
    requires Stage(q, L, O, n) && e in q.ents && e !in L
    ensures var r := SetVr(q, e, v); Stage(r, L, O, n) && Kept(q, r, L) && r == q.(ents := r.ents)
  {
    SetVrIs(q, e, v);
    hide Stage, Kept;
    StageSetEnt(q, L, O, n, e, Ent(q, e).(vruntime := v));
  }

  lemma PreparedStage(q: Queue, L: set<Id>, O: set<Id>, n: int, e: Id, wakeup: bool, waking: bool, now: int)
    requires Stage(q, L, O, n) && e in q.ents && e !in L && L !! CurrSet(q)
    ensures var r := Prepared(Wide, q, e, wakeup, waking, now);
            Stage(r, L, O, n + 1) && Kept(q, r, L) && r.curr == q.curr && r.thresh == q.thresh
  {
    hide Stage, Kept, SetVr, UpdateCurr, MaxVr, Vr;
    KeptRefl(q, L);
    StageSetVr(q, L, O, n, e, Store(Wide, Vr(q, e) + q.minVruntime));
    var q1 := if !wakeup || waking then SetVr(q, e, Store(Wide, Vr(q, e) + q.minVruntime)) else q;
    assert Stage(q1, L, O, n) && Kept(q, q1, L) && q1.curr == q.curr && q1.thresh == q.thresh;
    var q2 := UpdateCurr(Wide, q1, now);
    StageUpdateCurr(q1, L, O, n, now);
    KeptTrans(q, q1, q2, L, L);
    KeptKeys(q, q2, L);
    var q3 := q2.(nrRunning := q2.nrRunning + 1);
    StageCount(q2, L, O, n);
    BuddiesSame(q2, q3);
    StageFields(q2, L, O, n, q3);
    KeptTrans(q, q2, q3, L, L);
    var v := MaxVr(Wide, Vr(q3, e), Store(Wide, q3.minVruntime - q3.thresh));
    StageSetVr(q3, L, O, n + 1, e, v);
    KeptTrans(q, q3, SetVr(q3, e, v), L, L);
  }

  lemma KeptKeys(q: Queue, r: Queue, L: set<Id>)
    requires Kept(q, r, L)
    ensures r.ents.Keys == q.ents.Keys
  {
  }

  lemma EnqueueStage(q: Queue, L: set<Id>, O: set<Id>, n: int, e: Id, wakeup: bool, waking: bool, now: int)
    requires Stage(q, L, O, n) && e in q.ents && e !in L && L !! CurrSet(q)
    ensures var r := Enqueue(Wide, q, e, wakeup, waking, now);
            && Stage(r, if q.curr != Some(e) then L + {e} else L, O + {e}, n + 1)
            && Kept(q, r, L) && r.curr == q.curr
  {
    hide Stage, OnSet, Prepared, SetOn, Link, Kept, CurrSet;
    PreparedStage(q, L, O, n, e, wakeup, waking, now);
    var q4 := Prepared(Wide, q, e, wakeup, waking, now);
    var q5 := if q4.curr != Some(e) then Link(Wide, q4, e) else q4;
    var L5 := if q4.curr != Some(e) then L + {e} else L;
    KeptRefl(q4, L5);
    StageLink(q4, L, O, n + 1, e);
    LinkFrame(q4, e);
    KeptKeys(q, q4, L);
    StageOn(q5, L5, O, n + 1, e, true);
    SetOnCurr(q5, e, true);
    KeptTrans(q, q4, q5, L, L5);
    KeptTrans(q, q5, SetOn(q5, e, true), L, L5);
  }

  lemma EnqueueOk(q: Queue, e: Id, wakeup: bool, waking: bool, now: int)
    requires Ok(q) && e in q.ents && !OnRq(q, e)
    ensures var r := Enqueue(Wide, q, e, wakeup, waking, now); Ok(r) && Kept(q, r, OnSet(q) - CurrSet(q))
  {
    OkStage(q);
    hide Ok, Stage, OnSet, Enqueue, OnRq, Kept;
    var O := OnSet(q);
    var L := O - CurrSet(q);
    EnqueueStage(q, L, O, |O|, e, wakeup, waking, now);
    var r := Enqueue(Wide, q, e, wakeup, waking, now);
    GrowSets(O, CurrSet(q), e);
    assert e in CurrSet(q) <==> q.curr == Some(e);
    assert CurrSet(r) == CurrSet(q);
    hide CurrSet;
    StageOk(r, if q.curr != Some(e) then L + {e} else L, O + {e});
  }

  lemma GrowSets(O: set<Id>, C: set<Id>, e: Id)
    requires e !in O
    ensures |O + {e}| == |O| + 1
    ensures (O + {e}) - C == if e in C then O - C else (O - C) + {e}
  {
  }

  lemma ShrinkSets(O: set<Id>, C: set<Id>, e: Id)
    requires e in O
    ensures |O - {e}| == |O| - 1
    ensures (O - {e}) - C == O - C - {e}
  {
  }

  lemma StageCount(q: Queue, L: set<Id>, O: set<Id>, n: int)
    requires Stage(q, L, O, n)
    ensures q.nrRunning == n && Buddies(q) && CurrSet(q) <= q.ents.Keys
    ensures OnSet(q) == O && forall e: Id :: e in O <==> e in q.ents && OnRq(q, e)
  {
  }

  lemma LinkFrame(q: Queue, e: Id)
    ensures var r := Link(Wide, q, e); r == q.(timeline := r.timeline, leftmost := r.leftmost)
  {
  }

  lemma UnlinkFrame(q: Queue, e: Id)
    ensures var r := Unlink(q, e); r == q.(timeline := r.timeline, leftmost := r.leftmost)
  {
  }

  lemma SetOnCurr(q: Queue, e: Id, on: bool)
    ensures SetOn(q, e, on).curr == q.curr && SetOn(q, e, on).thresh == q.thresh
  {
  }

  lemma ClearedBuddies(q: Queue, e: Id)
    requires Buddies(q)
    ensures var r := ClearBuddies(q, e);
            && Buddies(r) && r.next != Some(e) && r.last != Some(e) && r.skip != Some(e)
            && r == q.(next := r.next, last := r.last, skip := r.skip)
  {
  }

  lemma DetachedStage(q: Queue, L: set<Id>, O: set<Id>, n: int, e: Id, now: int)
    requires Stage(q, L, O, n) && L !! CurrSet(q) && e in q.ents && (q.curr != Some(e) ==> e in L)
    ensures var r := Detached(Wide, q, e, now);
            && Stage(r, L - {e}, O - {e}, n) && Kept(q, r, L - {e}) && r.curr == q.curr && r.thresh == q.thresh
  {
    hide Stage, Kept, OnSet, UpdateCurr, ClearBuddies, Buddies, Unlink, SetOn;
    var M := L - {e};
    var q0 := UpdateCurr(Wide, q, now);
    StageUpdateCurr(q, L, O, n, now);
    StageCount(q0, L, O, n);
    var q1 := ClearBuddies(q0, e);
    ClearedBuddies(q0, e);
    StageFields(q0, L, O, n, q1);
    KeptTrans(q, q0, q1, L, L);
    var q2 := if q1.curr != Some(e) then Unlink(q1, e) else q1;
    KeptRefl(q1, L);
    if q1.curr != Some(e) { StageUnlink(q1, L, O, n, e); UnlinkFrame(q1, e); } else { assert M == L; }
    assert Stage(q2, M, O, n) && Kept(q1, q2, L) && q2.curr == q.curr && q2.thresh == q.thresh && q2.ents == q1.ents;
    KeptTrans(q, q1, q2, L, L);
    KeptKeys(q, q2, L);
    StageOn(q2, M, O, n, e, false);
    SetOnCurr(q2, e, false);
    KeptSub(q, q2, L, M);
    KeptTrans(q, q2, SetOn(q2, e, false), M, M);
  }

  lemma KeptSub(q: Queue, r: Queue, L: set<Id>, M: set<Id>)
    requires Kept(q, r, L) && M <= L
    ensures Kept(q, r, M)
  {
  }

  lemma DepartedStage(q: Queue, L: set<Id>, O: set<Id>, n: int, e: Id, sleep: bool)
    requires Stage(q, L, O, n) && e in q.ents && e !in L
    ensures var r := Departed(Wide, q, e, sleep);
            Stage(r, L, O, n - 1) && Kept(q, r, L) && r.curr == q.curr && r.thresh == q.thresh
  {
    hide Stage, Kept, SetVr, Vr, Buddies;
    StageCount(q, L, O, n);
    var q4 := q.(nrRunning := q.nrRunning - 1);
    BuddiesSame(q, q4);
    StageFields(q, L, O, n, q4);
    var v := Store(Wide, Vr(q4, e) - q4.minVruntime);
    StageSetVr(q4, L, O, n - 1, e, v);
    KeptTrans(q, q4, SetVr(q4, e, v), L, L);
  }

  lemma DequeueStage(q: Queue, L: set<Id>, O: set<Id>, n: int, e: Id, sleep: bool, now: int)
    requires Stage(q, L, O, n) && L !! CurrSet(q) && e in q.ents && (q.curr != Some(e) ==> e in L)
    ensures var r := Dequeue(Wide, q, e, sleep, now);
            Stage(r, L - {e}, O - {e}, n - 1) && Kept(q, r, L - {e}) && r.curr == q.curr
  {
    hide Stage, OnSet, Detached, Departed, UpdateMin, Kept, CurrSet;
    var M, P := L - {e}, O - {e};
    DetachedStage(q, L, O, n, e, now);
    var q3 := Detached(Wide, q, e, now);
    KeptKeys(q, q3, M);
    DepartedStage(q3, M, P, n, e, sleep);
    var q5 := Departed(Wide, q3, e, sleep);
    KeptTrans(q, q3, q5, M, M);
    StageUpdateMin(q5, M, P, n - 1);
    UpdateMinFrame(q5);
    KeptTrans(q, q5, UpdateMin(Wide, q5), M, M);
  }

  lemma DequeueOk(q: Queue, e: Id, sleep: bool, now: int)
    requires Ok(q) && e in q.ents && OnRq(q, e)
    ensures var r := Dequeue(Wide, q, e, sleep, now); Ok(r) && Kept(q, r, OnSet(q) - CurrSet(q) - {e})
  {
    OkStage(q);
    hide Ok, Stage, OnSet, Dequeue, OnRq, Kept;
    var O := OnSet(q);
    DequeueStage(q, O - CurrSet(q), O, |O|, e, sleep, now);
    var r := Dequeue(Wide, q, e, sleep, now);
    ShrinkSets(O, CurrSet(q), e);
    assert CurrSet(r) == CurrSet(q);
    hide CurrSet;
    StageOk(r, O - CurrSet(q) - {e}, O - {e});
  }

  lemma BuddiesSame(q: Queue, r: Queue)
    requires Buddies(q) && r.ents == q.ents && r.next == q.next && r.last == q.last && r.skip == q.skip
    ensures Buddies(r)
  {
  }

  lemma UpdateMinFrame(q: Queue)
    ensures UpdateMin(Wide, q).curr == q.curr
  {
  }

  lemma PutPrevOk(q: Queue, now: int)
    requires Ok(q) && q.curr.Some?
    ensures var r := PutPrev(Wide, q, q.curr.value, now);
            Ok(r) && Kept(q, r, OnSet(q) - CurrSet(q)) && r.curr.None? && OnSet(r) == OnSet(q)
    ensures var r := PutPrev(Wide, q, q.curr.value, now);
            r.next == q.next && r.last == q.last && r.skip == q.skip
  {
    OkStage(q);
    hide Ok, Stage, OnSet, UpdateCurr, Link, SetEnt, OnRq, Vr, Ent, Buddies;
    var e := q.curr.value;
    var O := OnSet(q);
    var L, n := O - CurrSet(q), |O|;
    var q1 := if OnRq(q, e) then UpdateCurr(Wide, q, now) else q;
    StageUpdateCurr(q, L, O, n, now);
    assert Stage(q1, L, O, n) && Kept(q, q1, L);
    var q2 := if OnRq(q1, e) then Link(Wide, q1, e) else q1;
    var L2 := if OnRq(q1, e) then L + {e} else L;
    StageCount(q1, L, O, n);
    StageLink(q1, L, O, n, e);
    LinkFrame(q1, e);
    assert Stage(q2, L2, O, n) && Kept(q1, q2, L);
    var r := q2.(curr := None);
    StageCount(q2, L2, O, n);
    BuddiesSame(q2, r);
    StageFields(q2, L2, O, n, r);
    StageOk(r, L2, O);
    StageCount(r, L2, O, n);
  }

  lemma SetNextOk(q: Queue, e: Id, now: int)
    requires Ok(q) && q.curr.None? && e in OnSet(q)
    ensures var r := SetNext(Wide, q, e, now);
            Ok(r) && Kept(q, r, OnSet(q)) && r.curr == Some(e) && OnSet(r) == OnSet(q)
  {
    OkStage(q);
    hide Ok, Stage, OnSet, Unlink, SetEnt, OnRq, Vr, Ent, Buddies;
    var O := OnSet(q);
    var n := |O|;
    var q1 := Unlink(q, e);
    StageUnlink(q, O, O, n, e);
    UnlinkFrame(q, e);
    var q2 := q1.(curr := Some(e));
    StageCount(q1, O - {e}, O, n);
    BuddiesSame(q1, q2);
    StageFieldsCurr(q1, O - {e}, O, n, q2);
    var x := Ent(q2, e).(execStart := now);
    SameOn(q1, q2, e, x);
    StageSetEnt(q2, O - {e}, O, n, e, x);
    var r := SetEnt(q2, e, x);
    StageOk(r, O - {e}, O);
    StageCount(r, O - {e}, O, n);
    SetEntVr(q2, e, x);
  }

  lemma StageFieldsCurr(q: Queue, L: set<Id>, O: set<Id>, n: int, r: Queue)
    requires Stage(q, L, O, n) && r == q.(curr := r.curr) && CurrSet(r) <= r.ents.Keys && Buddies(r)
    ensures Stage(r, L, O, n) && forall x: Id :: Vr(r, x) == Vr(q, x)
  {
    hide Tree;
    StageFields(q, L, O, n, r);
    SameVr(q, r);
  }

  lemma SameOn(q: Queue, r: Queue, e: Id, x: Entity)
    requires r.ents == q.ents && x == Ent(r, e).(execStart := x.execStart)
    ensures OnRq(r, e) == x.onRq && x.vruntime == Vr(r, e)
  {
  }

  lemma SetEntVr(q: Queue, e: Id, x: Entity)
    requires x.vruntime == Vr(q, e)
    ensures forall y: Id :: Vr(SetEnt(q, e, x), y) == Vr(q, y)
    ensures SetEnt(q, e, x).curr == q.curr
  {
  }

  /** A pick with no current entity chooses some queued entity whenever one is queued. */
  lemma ChosenQueued(q: Queue, t: Tests)
    requires Ok(q) && q.curr.None?
    ensures Chosen(q, t).Some? ==> Chosen(q, t).value in OnSet(q)
    ensures Chosen(q, t).None? ==> OnSet(q) == {}
    ensures q.next.None? && q.last.None? && q.skip.None? ==> Chosen(q, t) == q.leftmost
  {
    hide OnSet, Sorted;
    var O := OnSet(q);
    assert forall e: Id :: e in O - CurrSet(q) <==> e in O;
    if q.timeline != [] {
      assert q.timeline[0] in q.timeline;
      var k := RemovePosition(q.timeline, q.timeline[0]);
    }
    if O != {} {
      var e :| e in O;
      assert e in q.timeline;
    }
  }

  lemma PickFreshOk(q: Queue, c: Clock, t: Tests)
    requires Ok(q) && q.curr.None?
    ensures var p := PickFresh(Wide, q, c, t);
            && Ok(p.q) && Kept(q, p.q, OnSet(q)) && OnSet(p.q) == OnSet(q)
            && p.task == Chosen(q, t) && p.q.curr == p.task
  {
    ChosenQueued(q, t);
    hide Chosen, OnSet, SetNext, Kept;
    KeptRefl(q, OnSet(q));
    match Chosen(q, t)
    case None =>
    case Some(e) =>
      ClearOk(q, e);
      SetNextOk(ClearBuddies(q, e), e, c.set_);
      ClearKept(q, ClearBuddies(q, e), SetNext(Wide, ClearBuddies(q, e), e, c.set_), OnSet(q));
  }

  lemma KeptRefl(q: Queue, L: set<Id>)
    ensures Kept(q, q, L)
  {
  }

  lemma ClearOk(q: Queue, e: Id)
    requires Ok(q)
    ensures Ok(ClearBuddies(q, e)) && OnSet(ClearBuddies(q, e)) == OnSet(q)
    ensures ClearBuddies(q, e).curr == q.curr && ClearBuddies(q, e).ents == q.ents
    ensures ClearBuddies(q, e).minVruntime == q.minVruntime
  {
    var r := ClearBuddies(q, e);
    assert OnSet(r) == OnSet(q);
    SameVr(q, r);
    hide Vr, OnSet;
    assert Sorted(r, r.timeline);
  }

  lemma ClearKept(q: Queue, c: Queue, r: Queue, L: set<Id>)
    requires c.ents == q.ents && c.minVruntime == q.minVruntime && Kept(c, r, L)
    ensures Kept(q, r, L)
  {
  }

  lemma KeptTrans(q: Queue, r: Queue, w: Queue, L: set<Id>, M: set<Id>)
    requires Kept(q, r, L) && Kept(r, w, M) && L <= M
    ensures Kept(q, w, L)
  {
  }

  lemma TickOk(q: Queue, now: int)
    requires Ok(q)
    ensures var r := UpdateCurr(Wide, q, now);
            && Ok(r) && Kept(q, r, OnSet(q) - CurrSet(q)) && OnSet(r) == OnSet(q) && r.curr == q.curr
            && r.next == q.next && r.last == q.last && r.skip == q.skip && r.thresh == q.thresh
  {
    OkStage(q);
    hide Ok, Stage, OnSet, UpdateCurr, Kept;
    var O := OnSet(q);
    var r := UpdateCurr(Wide, q, now);
    StageUpdateCurr(q, O - CurrSet(q), O, |O|, now);
    StageCount(r, O - CurrSet(q), O, |O|);
    StageOk(r, O - CurrSet(q), O);
  }

  lemma PickNextOk(q: Queue, prevFair: bool, c: Clock, t: Tests)
    requires Ok(q) && prevFair == q.curr.Some?
    ensures var p := PickNext(Wide, q, prevFair, c, t);
            Ok(p.q) && Kept(q, p.q, OnSet(q) - CurrSet(q)) && OnSet(p.q) == OnSet(q)
  {
    hide Ok, OnSet, Kept, UpdateCurr, PutPrev, PickFresh, Key, OnRq;
    KeptRefl(q, OnSet(q) - CurrSet(q));
    if q.nrRunning != 0 {
      if prevFair {
        var q1 := UpdateCurr(Wide, q, c.now);
        TickOk(q, c.now);
        var q2 := PutPrev(Wide, q1, q.curr.value, c.put);
        PutPrevOk(q1, c.put);
        PickFreshOk(q2, c, t);
        KeptTrans(q, q1, q2, OnSet(q) - CurrSet(q), OnSet(q) - CurrSet(q));
        KeptTrans(q, q2, PickFresh(Wide, q2, c, t).q, OnSet(q) - CurrSet(q), OnSet(q));
      } else {
        PickFreshOk(q, c, t);
        assert OnSet(q) - CurrSet(q) == OnSet(q);
      }
    }
  }

  lemma SetBuddyOk(q: Queue, which: Buddy, e: Id)
    requires Ok(q) && Enabled(q, SetBuddy(which, e))
    ensures var r := Step(Wide, q, SetBuddy(which, e)); Ok(r) && Kept(q, r, OnSet(q) - CurrSet(q))
  {
    var r := Step(Wide, q, SetBuddy(which, e));
    assert OnSet(r) == OnSet(q);
    SameVr(q, r);
    assert e in OnSet(q);
    hide Vr, OnSet;
    assert Sorted(r, r.timeline);
  }

  /**
   One operation keeps the timeline invariant, changes the vruntime of no entity it leaves linked,
   and never moves min_vruntime back.
   */
  lemma StepOk(q: Queue, op: Op)
    requires Ok(q) && Enabled(q, op)
    ensures Ok(Step(Wide, q, op)) && Step(Wide, q, op).minVruntime >= q.minVruntime
    ensures var r := Step(Wide, q, op); forall e: Id :: e in q.timeline && e in r.timeline ==> Vr(r, e) == Vr(q, e)
  {
    var r := Step(Wide, q, op);
    OkStage(q);
    hide Ok, OnSet, UpdateCurr, Enqueue, Dequeue, PutPrev, PickNext;
    match op
    case Tick(now) => TickOk(q, now);
    case Enq(e, wakeup, waking, now) => EnqueueOk(q, e, wakeup, waking, now);
    case Deq(e, sleep, now) => DequeueOk(q, e, sleep, now); DequeuedGone(q, e, sleep, now);
    case Pick(prevFair, clock, tests) => PickNextOk(q, prevFair, clock, tests);
    case Put(now) => PutPrevOk(q, now);
    case SetBuddy(which, e) => SetBuddyOk(q, which, e);
  }

  lemma DequeuedGone(q: Queue, e: Id, sleep: bool, now: int)
    requires Ok(Dequeue(Wide, q, e, sleep, now)) && e in q.ents
    ensures e !in Dequeue(Wide, q, e, sleep, now).timeline
  {
    var r := Dequeue(Wide, q, e, sleep, now);
    assert !OnRq(r, e);
    OkStage(r);
  }

  /** The entity stays linked in every state of the run, the first and the last included. */
  ghost predicate LinkedThroughout(q: Queue, ops: seq<Op>, e: Id)
    requires Runs(Wide, q, ops)
    decreases ops
  {
    e in q.timeline && (ops == [] || LinkedThroughout(Step(Wide, q, ops[0]), ops[1..], e))
  }

  /**
   The timeline invariant, the monotonicity of min_vruntime and the constant vruntime of linked entities,
   over whole runs.
   */
  lemma {:induction false} RunOk(q: Queue, ops: seq<Op>)
    requires Ok(q) && Runs(Wide, q, ops)
    ensures Ok(After(Wide, q, ops)) && After(Wide, q, ops).minVruntime >= q.minVruntime
    ensures forall e: Id :: LinkedThroughout(q, ops, e) ==>
              e in After(Wide, q, ops).timeline && Vr(After(Wide, q, ops), e) == Vr(q, e)
    decreases ops
  {
    hide Ok, Step, Enabled, Vr;
    if ops != [] {
      StepOk(q, ops[0]);
      RunOk(Step(Wide, q, ops[0]), ops[1..]);
      assert forall e: Id :: LinkedThroughout(q, ops, e) ==> LinkedThroughout(Step(Wide, q, ops[0]), ops[1..], e);
      assert forall e: Id :: LinkedThroughout(q, ops, e) ==> e in Step(Wide, q, ops[0]).timeline;
    }
  }

  /** A run in two parts. */
  lemma {:induction false} RunParts(q: Queue, a: seq<Op>, b: seq<Op>)
    requires Runs(Wide, q, a + b)
    ensures Runs(Wide, q, a) && Runs(Wide, After(Wide, q, a), b)
    ensures After(Wide, q, a + b) == After(Wide, After(Wide, q, a), b)
    decreases a
  {
    hide Step, Enabled;
    if a == [] {
      assert a + b == b;
    } else {
      assert (a + b)[1..] == a[1..] + b && (a + b)[0] == a[0];
      RunParts(Step(Wide, q, a[0]), a[1..], b);
    }
  }

  /** The state after the first `k` operations, and the rest of the run. */
  lemma RunSplit(q: Queue, ops: seq<Op>, k: nat)
    requires Runs(Wide, q, ops) && k <= |ops|
    ensures Runs(Wide, q, ops[..k]) && Runs(Wide, After(Wide, q, ops[..k]), ops[k..])
    ensures After(Wide, After(Wide, q, ops[..k]), ops[k..]) == After(Wide, q, ops)
  {
    hide Runs, After;
    assert ops[..k] + ops[k..] == ops;
    RunParts(q, ops[..k], ops[k..]);
  }

  lemma RunOne(q: Queue, op: Op)
    requires Enabled(q, op)
    ensures Runs(Wide, q, [op]) && After(Wide, q, [op]) == Step(Wide, q, op)
  {
    hide Enabled, Step;
    assert [op][1..] == [];
    assert Runs(Wide, Step(Wide, q, op), []) && After(Wide, Step(Wide, q, op), []) == Step(Wide, q, op);
  }

  /** Two runs end to end. */
  lemma {:induction false} RunConcat(q: Queue, a: seq<Op>, b: seq<Op>)
    requires Runs(Wide, q, a) && Runs(Wide, After(Wide, q, a), b)
    ensures Runs(Wide, q, a + b) && After(Wide, q, a + b) == After(Wide, After(Wide, q, a), b)
    decreases a
  {
    hide Step, Enabled;
    if a == [] {
      assert a + b == b;
    } else {
      RunConcat(Step(Wide, q, a[0]), a[1..], b);
      assert (a + b)[1..] == a[1..] + b && (a + b)[0] == a[0];
    }
  }
}
