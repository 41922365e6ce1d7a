/** In runs whose enqueues are all wakeups, no queued entity is ever further behind than the sleeper credit. */
module CfsSleepers {
  import opened Common
  import opened FixedPoint
  import opened Cfs
  import opened CfsTimeline
  import opened CfsRuns

  /** Every queued entity is at most the sleeper credit behind min_vruntime. */
  ghost predicate Credit(q: Queue) {
    forall e: Id :: e in OnSet(q) ==> Vr(q, e) >= q.minVruntime - q.thresh
  }

  /** min_vruntime only advances to a value no queued entity is behind. */
  lemma CandidateLeast(q: Queue, L: set<Id>)
    requires Tree(q, L) && OnSet(q) <= L + CurrSet(q)
    ensures forall e: Id :: e in OnSet(q) ==>
              Candidate(Wide, q) <= Vr(q, e) || Candidate(Wide, q) == q.minVruntime
  {
    forall e: Id | e in OnSet(q)
      ensures Candidate(Wide, q) <= Vr(q, e) || Candidate(Wide, q) == q.minVruntime
    {
      if e in L {
        assert e in q.timeline;
        var i :| 0 <= i < |q.timeline| && q.timeline[i] == e;
        assert Vr(q, q.timeline[0]) <= Vr(q, q.timeline[i]);
      }
    }
  }

  /** min_vruntime becomes the larger of itself and the least queued vruntime. */
  lemma MinIsLeast(q: Queue, L: set<Id>) returns (e: Id)
    requires Tree(q, L) && L <= OnSet(q) <= L + CurrSet(q) && OnSet(q) != {}
    ensures e in OnSet(q) && forall x: Id :: x in OnSet(q) ==> Vr(q, e) <= Vr(q, x)
    ensures UpdateMin(Wide, q).minVruntime == if Vr(q, e) > q.minVruntime then Vr(q, e) else q.minVruntime
  {
    forall x: Id | x in L
      ensures q.leftmost.Some? && Vr(q, q.leftmost.value) <= Vr(q, x)
    {
      assert x in q.timeline;
      var i :| 0 <= i < |q.timeline| && q.timeline[i] == x;
      assert Vr(q, q.timeline[0]) <= Vr(q, q.timeline[i]);
    }
    if q.leftmost.Some? { assert q.timeline[0] in L; }
    if CurrOn(q) && (q.leftmost.None? || Vr(q, q.curr.value) <= Vr(q, q.leftmost.value)) {
      e := q.curr.value;
    } else {
      e := q.leftmost.value;
    }
  }

  lemma UpdateMinCredit(q: Queue, L: set<Id>)
    requires Tree(q, L) && OnSet(q) <= L + CurrSet(q) && Credit(q)
    ensures Credit(UpdateMin(Wide, q))
  {
    CandidateLeast(q, L);
    SameVr(q, UpdateMin(Wide, q));
    assert OnSet(UpdateMin(Wide, q)) == OnSet(q);
    hide Candidate, Vr, OnSet, Tree;
  }

  lemma UpdateCurrCredit(q: Queue, L: set<Id>, now: int)
    requires Tree(q, L) && L !! CurrSet(q) && CurrSet(q) <= q.ents.Keys && OnSet(q) <= L + CurrSet(q) && Credit(q)
    ensures Credit(UpdateCurr(Wide, q, now))
  {
    if q.curr.Some? && Diff(Wide, now, Ent(q, q.curr.value).execStart) > 0 {
      var e := q.curr.value;
      var r := Charged(Wide, q, e, now);
      assert r == SetEnt(q, e, Ent(r, e));
      assert forall x: Id :: x != e ==> Vr(r, x) == Vr(q, x);
      assert Vr(r, e) >= Vr(q, e);
      assert OnSet(r) == OnSet(q);
      hide Vr, Ent, Candidate, Charge, OnSet;
      assert Tree(r, L) by { assert e !in L; }
      UpdateMinCredit(r, L);
    }
  }

  lemma OkParts(q: Queue)
    requires Ok(q)
    ensures Tree(q, OnSet(q) - CurrSet(q)) && CurrSet(q) <= q.ents.Keys
    ensures (OnSet(q) - CurrSet(q)) !! CurrSet(q) && OnSet(q) <= (OnSet(q) - CurrSet(q)) + CurrSet(q)
  {
  }

  lemma TickCredit(q: Queue, now: int)
    requires Ok(q) && Credit(q)
    ensures Credit(UpdateCurr(Wide, q, now))
  {
    hide Tree, Credit, UpdateCurr, Ok, OnSet;
    OkParts(q);
    UpdateCurrCredit(q, OnSet(q) - CurrSet(q), now);
  }

  /** Credit only reads vruntimes, flags and the minimum. */
  lemma CreditSame(q: Queue, r: Queue)
    requires Credit(q) && r.minVruntime == q.minVruntime && r.thresh == q.thresh
    requires OnSet(r) <= OnSet(q) && forall e: Id :: e in OnSet(r) ==> Vr(r, e) == Vr(q, e)
    ensures Credit(r)
  {
  }

  /** Charging any entity commutes with rebasing `e`. */
  lemma RebaseCharged(q: Queue, e: Id, c: Id, d: int, now: int)
    requires e in q.ents
    ensures var u := Charged(Wide, q, c, now);
            && Charged(Wide, SetVr(q, e, Vr(q, e) + d), c, now) == SetVr(u, e, Vr(u, e) + d)
            && e in u.ents && OnRq(u, e) == OnRq(q, e) && Vr(u, e) >= Vr(q, e)
  {
    hide Charge;
    var u := Charged(Wide, q, c, now);
    assert Charged(Wide, SetVr(q, e, Vr(q, e) + d), c, now).ents == SetVr(u, e, Vr(u, e) + d).ents;
  }

  /** The minimum does not depend on an entity that is neither leftmost nor queued. */
  lemma RebaseUpdateMin(q: Queue, e: Id, v: int)
    requires e in q.ents && !OnRq(q, e) && q.leftmost != Some(e)
    ensures UpdateMin(Wide, SetVr(q, e, v)) == SetVr(UpdateMin(Wide, q), e, v)
  {
  }

  /** Rebasing an entity off the queue commutes with a charge, also when the entity itself is charged. */
  lemma RebaseTick(q: Queue, e: Id, d: int, now: int)
    requires Ok(q) && e in q.ents && !OnRq(q, e)
    ensures var u := UpdateCurr(Wide, q, now);
            && UpdateCurr(Wide, SetVr(q, e, Vr(q, e) + d), now) == SetVr(u, e, Vr(u, e) + d)
            && e in u.ents && !OnRq(u, e) && Vr(u, e) >= Vr(q, e)
  {
    assert q.leftmost != Some(e) by { if q.timeline != [] { assert q.timeline[0] in q.timeline; } }
    hide Ok, Charged;
    if q.curr.Some? {
      var u := Charged(Wide, q, q.curr.value, now);
      RebaseCharged(q, e, q.curr.value, d, now);
      ChargedFrame(q, q.curr.value, now);
      hide Candidate;
      RebaseUpdateMin(u, e, Vr(u, e) + d);
    }
  }

  lemma ChargedFrame(q: Queue, c: Id, now: int)
    ensures Charged(Wide, q, c, now).leftmost == q.leftmost
  {
  }

  /** The vruntime an enqueue adds before it charges. */
  function Base(q: Queue, wakeup: bool, waking: bool): int {
    if !wakeup || waking then q.minVruntime else 0
  }

  /** The vruntime an enqueue gives the entity, out of the charged queue `u`. */
  function Placed(u: Queue, e: Id, base: int, wakeup: bool): int {
    var v, floor := Vr(u, e) + base, u.minVruntime - u.thresh;
    if wakeup && v < floor then floor else v
  }

  /** Writing a vruntime twice, or writing the one that is there. */
  lemma SetVrAgain(q: Queue, e: Id, v: int, w: int)
    requires e in q.ents
    ensures SetVr(SetVr(q, e, v), e, w) == SetVr(q, e, w) && Vr(SetVr(q, e, v), e) == v
    ensures SetVr(q, e, Vr(q, e)) == q
  {
    assert q.ents[e := q.ents[e]] == q.ents;
  }

  lemma PreparedIs(q: Queue, e: Id, wakeup: bool, waking: bool, now: int)
    requires Ok(q) && e in q.ents && !OnRq(q, e)
    ensures var u := UpdateCurr(Wide, q, now);
            Prepared(Wide, q, e, wakeup, waking, now)
            == SetVr(u, e, Placed(u, e, Base(q, wakeup, waking), wakeup)).(nrRunning := u.nrRunning + 1)
  {
    hide UpdateCurr, Ok, OnRq;
    var d, u := Base(q, wakeup, waking), UpdateCurr(Wide, q, now);
    RebaseTick(q, e, d, now);
    SetVrAgain(q, e, 0, 0);
    var x := u.(nrRunning := u.nrRunning + 1);
    var v, w := Vr(u, e) + d, Placed(u, e, d, wakeup);
    SetVrAgain(x, e, v, w);
    assert SetVr(x, e, v) == SetVr(u, e, v).(nrRunning := x.nrRunning);
    assert SetVr(x, e, w) == SetVr(u, e, w).(nrRunning := x.nrRunning);
    assert SetVr(x, e, v).minVruntime == u.minVruntime && SetVr(x, e, v).thresh == u.thresh;
    hide SetVr, Vr;
    if wakeup { assert Place(Wide, SetVr(x, e, v), e) == SetVr(x, e, w); }
  }

  /** What an enqueue leaves behind: the charged queue, and the entity where rebase and placement put it. */
  lemma EnqueueIs(q: Queue, e: Id, wakeup: bool, waking: bool, now: int)
    requires Ok(q) && e in q.ents && !OnRq(q, e)
    ensures var u, r := UpdateCurr(Wide, q, now), Enqueue(Wide, q, e, wakeup, waking, now);
            && r.minVruntime == u.minVruntime && r.thresh == u.thresh == q.thresh && Vr(u, e) >= Vr(q, e)
            && Vr(r, e) == Placed(u, e, Base(q, wakeup, waking), wakeup)
            && OnSet(r) == OnSet(u) + {e}
            && forall x: Id :: x != e ==> Vr(r, x) == Vr(u, x)
  {
    RebaseTick(q, e, 0, now);
    PreparedIs(q, e, wakeup, waking, now);
    var u, q4 := UpdateCurr(Wide, q, now), Prepared(Wide, q, e, wakeup, waking, now);
    assert u.thresh == q.thresh;
    LinkFrame(q4, e);
    hide UpdateCurr, Ok, Link, Prepared, Placed, Base, SetVr, SetOn, Vr, OnSet, OnRq;
    var r := Enqueue(Wide, q, e, wakeup, waking, now);
    var v := Placed(u, e, Base(q, wakeup, waking), wakeup);
    SetVrFrame(u, e, v);
    SetOnFrame(if q4.curr != Some(e) then Link(Wide, q4, e) else q4, e);
    QueuedAt(u, e, v, r);
  }

  lemma SetVrFrame(q: Queue, e: Id, v: int)
    ensures SetVr(q, e, v) == q.(ents := SetVr(q, e, v).ents)
  {
  }

  lemma SetOnFrame(q: Queue, e: Id)
    ensures SetOn(q, e, true) == q.(ents := q.ents[e := Ent(q, e).(onRq := true)])
  {
  }

  lemma QueuedAt(u: Queue, e: Id, v: int, r: Queue)
    requires e in u.ents
    requires var x := SetVr(u, e, v).ents; e in x && r.ents == x[e := x[e].(onRq := true)]
    ensures Vr(r, e) == v && OnSet(r) == OnSet(u) + {e} && forall x: Id :: x != e ==> Vr(r, x) == Vr(u, x)
  {
    assert r.ents == u.ents[e := u.ents[e].(vruntime := v, onRq := true)];
  }

  /** A wakeup keeps the bound, rebased or not, and never moves the entity back. */
  lemma WakeCredit(q: Queue, e: Id, waking: bool, now: int)
    requires Ok(q) && Credit(q) && e in q.ents && !OnRq(q, e)
    ensures Credit(Enqueue(Wide, q, e, true, waking, now))
    ensures Vr(Enqueue(Wide, q, e, true, waking, now), e) >= Vr(q, e) + Base(q, true, waking)
  {
    TickCredit(q, now);
    EnqueueIs(q, e, true, waking, now);
    hide UpdateCurr, Enqueue, Ok, OnSet, Vr;
  }

  lemma DetachedCredit(q: Queue, e: Id, now: int)
    requires Ok(q) && Credit(q) && e in q.ents && OnRq(q, e)
    ensures Credit(Detached(Wide, q, e, now))
  {
    TickOk(q, now);
    TickCredit(q, now);
    hide UpdateCurr, Ok, Without, Successor;
    var q0, r := UpdateCurr(Wide, q, now), Detached(Wide, q, e, now);
    assert forall x: Id :: x in OnSet(r) ==> x in OnSet(q0) && Vr(r, x) == Vr(q0, x);
    CreditSame(q0, r);
  }

  lemma DepartedCredit(q: Queue, e: Id, sleep: bool)
    requires Credit(q) && e !in OnSet(q) && e in q.ents
    ensures Credit(Departed(Wide, q, e, sleep)) && OnSet(Departed(Wide, q, e, sleep)) == OnSet(q)
  {
    var r := Departed(Wide, q, e, sleep);
    assert OnSet(r) == OnSet(q) && forall x: Id :: x != e ==> Vr(r, x) == Vr(q, x);
    CreditSame(q, r);
  }

  lemma DequeueCredit(q: Queue, e: Id, sleep: bool, now: int)
    requires Ok(q) && Credit(q) && e in q.ents && OnRq(q, e)
    ensures Credit(Dequeue(Wide, q, e, sleep, now))
  {
    OkStage(q);
    DetachedCredit(q, e, now);
    var O := OnSet(q);
    var L := O - CurrSet(q);
    hide Detached, Departed, UpdateMin, Ok, Credit, OnSet, Stage, Kept;
    DetachedStage(q, L, O, |O|, e, now);
    var q3 := Detached(Wide, q, e, now);
    StageCount(q3, L - {e}, O - {e}, |O|);
    KeptKeys(q, q3, L - {e});
    DepartedCredit(q3, e, sleep);
    DepartedStage(q3, L - {e}, O - {e}, |O|, e, sleep);
    var q5 := Departed(Wide, q3, e, sleep);
    StageTree(q5, L - {e}, O - {e}, |O| - 1);
    assert CurrSet(q5) == CurrSet(q);
    UpdateMinCredit(q5, L - {e});
  }

  lemma StageTree(q: Queue, L: set<Id>, O: set<Id>, n: int)
    requires Stage(q, L, O, n)
    ensures Tree(q, L) && OnSet(q) == O
  {
  }

  lemma PutPrevCredit(q: Queue, now: int)
    requires Ok(q) && Credit(q) && q.curr.Some?
    ensures Credit(PutPrev(Wide, q, q.curr.value, now))
  {
    TickOk(q, now);
    TickCredit(q, now);
    hide UpdateCurr, Ok, Insert, Key;
    var e := q.curr.value;
    var q1 := if OnRq(q, e) then UpdateCurr(Wide, q, now) else q;
    var r := PutPrev(Wide, q, e, now);
    assert r.ents == q1.ents;
    SameVr(q1, r);
    CreditSame(q1, r);
  }

  lemma PickFreshCredit(q: Queue, c: Clock, t: Tests)
    requires Credit(q)
    ensures Credit(PickFresh(Wide, q, c, t).q)
  {
    hide Chosen, Without, Successor;
    match Chosen(q, t)
    case None =>
    case Some(e) =>
      var r := PickFresh(Wide, q, c, t).q;
      assert forall x: Id :: x in OnSet(r) ==> x in OnSet(q) && Vr(r, x) == Vr(q, x);
      CreditSame(q, r);
  }

  lemma PickCredit(q: Queue, prevFair: bool, c: Clock, t: Tests)
    requires Ok(q) && Credit(q) && prevFair == q.curr.Some?
    ensures Credit(PickNext(Wide, q, prevFair, c, t).q)
  {
    hide Ok, Credit, OnSet, UpdateCurr, PutPrev, PickFresh, Key, OnRq, Kept;
    if q.nrRunning != 0 {
      if prevFair {
        var q1 := UpdateCurr(Wide, q, c.now);
        TickOk(q, c.now);
        TickCredit(q, c.now);
        PutPrevCredit(q1, c.put);
        PickFreshCredit(PutPrev(Wide, q1, q.curr.value, c.put), c, t);
      } else {
        PickFreshCredit(q, c, t);
      }
    }
  }

  predicate WakeupsOnly(ops: seq<Op>) {
    forall i :: 0 <= i < |ops| && ops[i].Enq? ==> ops[i].wakeup
  }

  lemma StepCredit(q: Queue, op: Op)
    requires Ok(q) && Credit(q) && Enabled(q, op) && (op.Enq? ==> op.wakeup)
    ensures Credit(Step(Wide, q, op))
  {
    if op.SetBuddy? {
      SameVr(q, Step(Wide, q, op));
      CreditSame(q, Step(Wide, q, op));
    } else {
      hide Ok, Credit, UpdateCurr, Enqueue, Dequeue, PutPrev, PickNext;
      match op
      case Tick(now) => TickCredit(q, now);
      case Enq(e, wakeup, waking, now) => WakeCredit(q, e, waking, now);
      case Deq(e, sleep, now) => DequeueCredit(q, e, sleep, now);
      case Pick(prevFair, clock, tests) => PickCredit(q, prevFair, clock, tests);
      case Put(now) => PutPrevCredit(q, now);
    }
  }

  /** The sleeper bound, over whole runs. */
  lemma {:induction false} SleeperBound(q: Queue, ops: seq<Op>)
    requires Ok(q) && Credit(q) && Runs(Wide, q, ops) && WakeupsOnly(ops)
    ensures Credit(After(Wide, q, ops))
    decreases ops
  {
    if ops != [] {
      assert ops[0].Enq? ==> ops[0].wakeup;
      assert WakeupsOnly(ops[1..]);
      hide Ok, Credit, Step, Enabled, WakeupsOnly;
      StepOk(q, ops[0]);
      StepCredit(q, ops[0]);
      SleeperBound(Step(Wide, q, ops[0]), ops[1..]);
    }
  }

  /**
   An enqueue that is not a wakeup rebases on a minimum the charge that follows may still advance. It keeps the
   bound exactly when the entity's relative vruntime, once charged, covers that advance up to the credit.
   */
  lemma RebaseCreditIff(q: Queue, e: Id, waking: bool, now: int)
    requires Ok(q) && Credit(q) && e in q.ents && !OnRq(q, e)
    ensures var u := UpdateCurr(Wide, q, now);
            Credit(Enqueue(Wide, q, e, false, waking, now))
            <==> Vr(u, e) >= u.minVruntime - q.minVruntime - q.thresh
  {
    TickCredit(q, now);
    EnqueueIs(q, e, false, waking, now);
    hide UpdateCurr, Enqueue, Ok, OnSet, Vr;
  }

  /** The witness: a newcomer at the minimum is overtaken by the charge of its own enqueue. */
  lemma RebaseBreaksCredit()
    ensures exists q: Queue :: Ok(q) && Credit(q) && 1 in q.ents && !OnRq(q, 1)
              && !Credit(Enqueue(Wide, q, 1, false, false, 10))
  {
    var ents: map<Id, Entity> := map[0 := Entity(0, 0, 0, 1024, true), 1 := Entity(0, 0, 0, 1024, false)];
    var q := Queue(ents, [], None, Some(0), 0, 1, 3, None, None, None);
    assert OnSet(q) == {0} && Vr(q, 0) == 0 && Vr(q, 1) == 0;
    assert Ok(q) && Credit(q);
    RebaseCreditIff(q, 1, false, 10);
    assert UpdateCurr(Wide, q, 10).minVruntime == 10;
  }
}
