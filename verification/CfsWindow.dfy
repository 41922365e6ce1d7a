/**
 When the 64-bit scheduler is the unbounded one: conditions on the queue, not on the code's own comparisons.
 Every queued vruntime stays within 2^63 of min_vruntime, the current entity within 2^63 of the leftmost, and a
 sleeper wakes within 2^63 of the floor place_entity raises it to. The last two are not implied by the first.
 */
module CfsWindow {
  import opened Common
  import opened FixedPoint
  import opened Cfs
  import opened CfsTimeline
  import opened CfsRuns
  import opened CfsSleepers
  import opened CfsWrap

  ghost predicate Window(q: Queue) {
    && (forall e: Id :: e in OnSet(q) ==> KeyFits(q, e))
    && (CurrOn(q) && q.leftmost.Some? ==> Fits64(Vr(q, q.leftmost.value) - Vr(q, q.curr.value)))
  }

  /** A charge at clock reading `now`: the time since the last one fits, and it ends inside the window. */
  ghost predicate ChargeFits(q: Queue, now: int) {
    (q.curr.Some? ==> Fits64(now - Ent(q, q.curr.value).execStart)) && Window(UpdateCurr(Wide, q, now))
  }

  /** A waking entity is within 2^63 of the floor, once the current entity is charged. */
  ghost predicate WakeFits(q: Queue, e: Id, waking: bool, now: int) {
    var u := UpdateCurr(Wide, q, now);
    Fits64(u.minVruntime - u.thresh - (Vr(u, e) + Base(q, true, waking)))
  }

  /** One operation inside the window: before, at every charge and after. */
  ghost predicate Steady(q: Queue, op: Op)
    requires Enabled(q, op)
  {
    var r := Step(Wide, q, op);
    && Window(r) && r.minVruntime - q.minVruntime < S63
    && match op
       case Tick(now) => ChargeFits(q, now)
       case Enq(e, wakeup, waking, now) => ChargeFits(q, now) && (wakeup ==> WakeFits(q, e, waking, now))
       case Deq(_, _, now) => ChargeFits(q, now)
       case Put(now) => CurrOn(q) ==> ChargeFits(q, now)
       case Pick(_, c, _) => q.nrRunning != 0 && q.curr.Some? ==> SteadyPick(q, q.curr.value, c)
       case SetBuddy(_, _) => true
  }

  ghost predicate SteadyPick(q: Queue, prev: Id, c: Clock) {
    var u := UpdateCurr(Wide, q, c.now);
    ChargeFits(q, c.now) && (OnRq(u, prev) && !Retains(Wide, u, prev) ==> ChargeFits(u, c.put))
  }

  // ----- the conditions cover every comparison

  lemma LeftmostQueued(q: Queue)
    requires Ok(q)
    ensures q.leftmost.Some? ==> q.leftmost.value in OnSet(q) && q.curr != q.leftmost
    ensures forall e: Id :: e in q.timeline ==> e in OnSet(q)
    ensures CurrOn(q) ==> q.curr.value in OnSet(q)
  {
    OkStage(q);
    hide Ok, OnSet;
    if q.leftmost.Some? { LeftmostIn(q); }
  }

  lemma LeftmostIn(q: Queue)
    requires Ok(q) && q.leftmost.Some?
    ensures q.leftmost.value in q.timeline
  {
  }

  /** update_min_vruntime inside the window. */
  lemma MinSafe(q: Queue)
    requires Window(UpdateMin(Wide, q)) && UpdateMin(Wide, q).minVruntime - q.minVruntime < S63
    requires q.leftmost.Some? ==> q.leftmost.value in OnSet(q)
    ensures SafeMin(q)
  {
    var r := UpdateMin(Wide, q);
    assert OnSet(r) == OnSet(q);
    SameVr(q, r);
    if CurrOn(q) { assert q.curr.value in OnSet(r); assert KeyFits(r, q.curr.value); }
    if q.leftmost.Some? { assert KeyFits(r, q.leftmost.value); }
    hide Vr, OnSet;
  }

  lemma TickSafe(q: Queue, now: int)
    requires Ok(q) && ChargeFits(q, now) && UpdateCurr(Wide, q, now).minVruntime - q.minVruntime < S63
    ensures SafeTick(q, now)
  {
    if q.curr.Some? && now > Ent(q, q.curr.value).execStart {
      var x := Charged(Wide, q, q.curr.value, now);
      assert UpdateCurr(Wide, q, now) == UpdateMin(Wide, x);
      LeftmostQueued(q);
      ChargedOn(q, q.curr.value, now);
      hide Ok, Charged, UpdateMin, UpdateCurr, SafeMin, Window, OnSet;
      MinSafe(x);
    }
  }

  lemma ChargedOn(q: Queue, e: Id, now: int)
    requires e in q.ents
    ensures OnSet(Charged(Wide, q, e, now)) == OnSet(q) && Charged(Wide, q, e, now).leftmost == q.leftmost
  {
    hide Charge;
  }

  /** Rebasing an entity off the queue changes nothing the window looks at. */
  lemma RebasedOk(q: Queue, e: Id, v: int)
    requires Ok(q) && e in q.ents && !OnRq(q, e)
    ensures Ok(SetVr(q, e, v))
  {
    OkStage(q);
    var O := OnSet(q);
    var L := O - CurrSet(q);
    hide Ok, Stage, OnSet, SetVr, OnRq;
    StageSetVr(q, L, O, |O|, e, v);
    StageOk(SetVr(q, e, v), L, O);
  }

  lemma RebasedWindow(q: Queue, e: Id, v: int)
    requires Window(q) && e in q.ents && !OnRq(q, e) && q.leftmost != Some(e)
    ensures Window(SetVr(q, e, v))
  {
    var r := SetVr(q, e, v);
    assert OnSet(r) == OnSet(q);
    assert forall x: Id :: x != e ==> Vr(r, x) == Vr(q, x);
    assert e !in OnSet(r);
    assert r.curr == q.curr && r.leftmost == q.leftmost && r.minVruntime == q.minVruntime;
    assert CurrOn(r) ==> CurrOn(q) && r.curr != Some(e);
    hide OnSet, Vr, SetVr;
  }

  lemma RebasedFits(q: Queue, e: Id, d: int, now: int)
    requires Ok(q) && e in q.ents && !OnRq(q, e) && ChargeFits(q, now)
    ensures ChargeFits(SetVr(q, e, Vr(q, e) + d), now)
    ensures UpdateCurr(Wide, SetVr(q, e, Vr(q, e) + d), now).minVruntime == UpdateCurr(Wide, q, now).minVruntime
    ensures Vr(UpdateCurr(Wide, SetVr(q, e, Vr(q, e) + d), now), e) == Vr(UpdateCurr(Wide, q, now), e) + d
  {
    RebaseTick(q, e, d, now);
    TickOk(q, now);
    var u := UpdateCurr(Wide, q, now);
    LeftmostQueued(u);
    assert e !in OnSet(u);
    hide UpdateCurr, Ok, Window, OnSet;
    RebasedWindow(u, e, Vr(u, e) + d);
    assert q.curr.Some? ==> Ent(SetVr(q, e, Vr(q, e) + d), q.curr.value).execStart == Ent(q, q.curr.value).execStart;
  }

  lemma RebasedIs(q: Queue, e: Id, wakeup: bool, waking: bool)
    requires e in q.ents
    ensures Rebased(q, e, wakeup, waking) == SetVr(q, e, Vr(q, e) + Base(q, wakeup, waking))
  {
    SetVrAgain(q, e, 0, 0);
  }

  lemma EnqueueSafe(q: Queue, e: Id, wakeup: bool, waking: bool, now: int)
    requires Ok(q) && Enabled(q, Enq(e, wakeup, waking, now)) && Steady(q, Enq(e, wakeup, waking, now))
    ensures SafeEnq(q, e, wakeup, waking, now)
  {
    hide UpdateCurr, Enqueue, Prepared, Ok, OnRq, SafeTick, SafeLink, OnSet, Rebased, SetVr, ChargeFits, Window, Vr, Base;
    var d, u := Base(q, wakeup, waking), UpdateCurr(Wide, q, now);
    var q1, r := Rebased(q, e, wakeup, waking), Enqueue(Wide, q, e, wakeup, waking, now);
    assert ChargeFits(q, now) && Window(r) && r.minVruntime - q.minVruntime < S63;
    assert wakeup ==> Fits64(u.minVruntime - u.thresh - (Vr(u, e) + d));
    hide Steady, Step, Fits64, Placed;
    EnqueueIs(q, e, wakeup, waking, now);
    RebasedIs(q, e, wakeup, waking);
    RebasedOk(q, e, Vr(q, e) + d);
    RebasedFits(q, e, d, now);
    BaseMin(q, e, Vr(q, e) + d, now);
    BaseMin(q1, e, 0, now);
    TickSafe(q1, now);
    if q.curr != Some(e) { LinkSafe(q, e, wakeup, waking, now); }
  }

  lemma BaseMin(q: Queue, e: Id, v: int, now: int)
    ensures SetVr(q, e, v).minVruntime == q.minVruntime && SetVr(q, e, v).thresh == q.thresh
    ensures UpdateCurr(Wide, q, now).thresh == q.thresh
  {
  }

  /** The descent of an enqueue compares only entities queued afterwards. */
  lemma LinkSafe(q: Queue, e: Id, wakeup: bool, waking: bool, now: int)
    requires Ok(q) && e in q.ents && !OnRq(q, e) && q.curr != Some(e)
    requires Window(Enqueue(Wide, q, e, wakeup, waking, now))
    ensures SafeLink(Prepared(Wide, q, e, wakeup, waking, now), e)
  {
    var x, r := Prepared(Wide, q, e, wakeup, waking, now), Enqueue(Wide, q, e, wakeup, waking, now);
    EnqueueIs(q, e, wakeup, waking, now);
    PreparedIs(q, e, wakeup, waking, now);
    var u := UpdateCurr(Wide, q, now);
    TickOk(q, now);
    LeftmostQueued(u);
    SameTimeline(q, now);
    var v := Placed(u, e, Base(q, wakeup, waking), wakeup);
    SetVrAt(u, e, v);
    hide UpdateCurr, Enqueue, Prepared, Ok, OnSet, SetVr, Vr, Placed, Base;
    SameVr(SetVr(u, e, v), x);
    assert forall y: Id :: y in x.timeline ==> y in OnSet(r);
    assert forall y: Id :: Vr(x, y) == Vr(r, y);
  }

  lemma SetVrAt(q: Queue, e: Id, v: int)
    ensures var r := SetVr(q, e, v);
            && r.timeline == q.timeline && r.minVruntime == q.minVruntime && Vr(r, e) == v
            && forall x: Id :: x != e ==> Vr(r, x) == Vr(q, x)
  {
  }

  lemma SameTimeline(q: Queue, now: int)
    ensures UpdateCurr(Wide, q, now).timeline == q.timeline
  {
  }

  lemma DequeueSafe(q: Queue, e: Id, sleep: bool, now: int)
    requires Ok(q) && Enabled(q, Deq(e, sleep, now)) && Steady(q, Deq(e, sleep, now))
    ensures SafeDeq(q, e, sleep, now)
  {
    var u, r := UpdateCurr(Wide, q, now), Dequeue(Wide, q, e, sleep, now);
    var x := Departed(Wide, Detached(Wide, q, e, now), e, sleep);
    assert x.minVruntime == u.minVruntime by { DepartedMin(q, e, sleep, now); }
    TickKept(q, now);
    DequeueOk(q, e, sleep, now);
    LeftmostQueued(r);
    assert r == UpdateMin(Wide, x);
    MinFrame(x);
    hide UpdateCurr, Dequeue, Departed, Detached, UpdateMin, Ok, SafeTick, SafeMin, OnSet, Window, ChargeFits, Kept;
    MinSafe(x);
    TickSafe(q, now);
  }

  lemma DepartedMin(q: Queue, e: Id, sleep: bool, now: int)
    ensures Departed(Wide, Detached(Wide, q, e, now), e, sleep).minVruntime == UpdateCurr(Wide, q, now).minVruntime
  {
    hide UpdateCurr, Without, Successor;
  }

  lemma MinFrame(q: Queue)
    ensures var r := UpdateMin(Wide, q);
            r.minVruntime >= q.minVruntime && OnSet(r) == OnSet(q) && r.leftmost == q.leftmost
  {
    hide Candidate;
  }

  lemma TickKept(q: Queue, now: int)
    requires Ok(q)
    ensures UpdateCurr(Wide, q, now).minVruntime >= q.minVruntime
  {
    hide UpdateCurr, OnSet;
    TickOk(q, now);
  }

  lemma PutSafe(q: Queue, now: int)
    requires Ok(q) && q.curr.Some?
    requires CurrOn(q) ==> ChargeFits(q, now) && UpdateCurr(Wide, q, now).minVruntime - q.minVruntime < S63
    ensures SafePut(q, q.curr.value, now)
  {
    if CurrOn(q) {
      var u := UpdateCurr(Wide, q, now);
      TickSafe(q, now);
      TickOk(q, now);
      LeftmostQueued(u);
      LeftmostQueued(q);
      hide UpdateCurr, Ok, SafeTick, OnSet, KeyFits;
    }
  }

  lemma PutMin(q: Queue, e: Id, now: int)
    ensures PutPrev(Wide, q, e, now).minVruntime == if OnRq(q, e) then UpdateCurr(Wide, q, now).minVruntime else q.minVruntime
  {
    hide UpdateCurr, Insert;
  }

  lemma FreshMin(q: Queue, c: Clock, t: Tests)
    ensures PickFresh(Wide, q, c, t).q.minVruntime == q.minVruntime
  {
    hide Chosen, Without, Successor;
  }

  lemma PickSafe(q: Queue, prevFair: bool, c: Clock, t: Tests)
    requires Ok(q) && Enabled(q, Pick(prevFair, c, t)) && Steady(q, Pick(prevFair, c, t))
    ensures SafePick(q, prevFair, c)
  {
    if q.nrRunning != 0 && q.curr.Some? {
      var prev, u := q.curr.value, UpdateCurr(Wide, q, c.now);
      TickOk(q, c.now);
      TickKept(q, c.now);
      TickKept(u, c.put);
      LeftmostQueued(u);
      PutMin(u, prev, c.put);
      FreshMin(PutPrev(Wide, u, prev, c.put), c, t);
      hide UpdateCurr, Ok, SafeTick, OnSet, KeyFits, PutPrev, PickFresh, SafePut, Kept, Retains, OnRq;
      TickSafe(q, c.now);
      if !Retains(Wide, u, prev) {
        PutSafe(u, c.put);
      }
    }
  }

  lemma StepSafe(q: Queue, op: Op)
    requires Ok(q) && Enabled(q, op) && Steady(q, op)
    ensures Safe(q, op)
  {
    match op
    case Tick(now) => hide UpdateCurr, Ok, Window, SafeTick; TickSafe(q, now);
    case Enq(e, wakeup, waking, now) => hide Enqueue, Ok, SafeEnq, Steady; EnqueueSafe(q, e, wakeup, waking, now);
    case Deq(e, sleep, now) => hide Dequeue, Ok, SafeDeq, Steady; DequeueSafe(q, e, sleep, now);
    case Pick(prevFair, c, t) => hide PickNext, Ok, SafePick, Steady; PickSafe(q, prevFair, c, t);
    case Put(now) =>
      PutMin(q, q.curr.value, now);
      hide PutPrev, UpdateCurr, Ok, Window, SafePut;
      PutSafe(q, now);
    case SetBuddy(which, e) =>
  }

  // ----- the order of wrapped keys

  ghost predicate KeySorted(q: Queue, s: seq<Id>) {
    forall i, j :: 0 <= i < j < |s| ==> Key(Wrap, q, s[i]) <= Key(Wrap, q, s[j])
  }

  /** The unbounded timeline invariant gives the order on wrapped keys, inside the window. */
  lemma KeysInOrder(q: Queue, s: seq<Id>)
    requires Sorted(q, s) && forall x :: x in s ==> KeyFits(q, x)
    ensures KeySorted(Norm(q), s)
  {
    forall x | x in s
      ensures Key(Wrap, Norm(q), x) == Vr(q, x) - q.minVruntime
    {
      KeyWrap(q, x);
    }
    hide Key, Vr, Norm, KeyFits;
  }

  /** Whenever the operation links an entity, the tree it descends is in key order. */
  ghost predicate Ready(w: Queue, op: Op) {
    match op
    case Enq(e, wakeup, waking, now) => w.curr != Some(e) ==> InKeyOrder(Prepared(Wrap, w, e, wakeup, waking, now))
    case Put(now) => CurrOn(w) ==> InKeyOrder(UpdateCurr(Wrap, w, now))
    case Pick(prevFair, c, _) => w.nrRunning != 0 && prevFair && w.curr.Some? ==> ReadyPick(w, w.curr.value, c)
    case _ => true
  }

  ghost predicate ReadyPick(w: Queue, prev: Id, c: Clock) {
    var u := UpdateCurr(Wrap, w, c.now);
    OnRq(u, prev) && !Retains(Wrap, u, prev) ==> InKeyOrder(UpdateCurr(Wrap, u, c.put))
  }

  ghost predicate InKeyOrder(q: Queue) {
    KeySorted(q, q.timeline)
  }

  lemma LinkReady(q: Queue, e: Id)
    requires Sorted(q, q.timeline) && SafeLink(q, e)
    ensures InKeyOrder(Norm(q))
  {
    hide KeySorted, KeyFits, Sorted;
    KeysInOrder(q, q.timeline);
  }

  lemma EnqueueReady(q: Queue, e: Id, wakeup: bool, waking: bool, now: int)
    requires Ok(q) && e in q.ents && !OnRq(q, e) && SafeEnq(q, e, wakeup, waking, now) && q.curr != Some(e)
    ensures InKeyOrder(Prepared(Wrap, Norm(q), e, wakeup, waking, now % U64))
  {
    PreparedWrap(q, e, wakeup, waking, now);
    OkStage(q);
    var L := OnSet(q) - CurrSet(q);
    hide Ok, OnSet, Prepared, UpdateCurr, InKeyOrder, Norm, SafeTick, SafeLink, OnRq, Vr;
    PreparedStage(q, L, OnSet(q), |OnSet(q)|, e, wakeup, waking, now);
    LinkReady(Prepared(Wide, q, e, wakeup, waking, now), e);
  }

  lemma PutReady(q: Queue, e: Id, now: int)
    requires Ok(q) && OnRq(q, e) && SafePut(q, e, now)
    ensures InKeyOrder(UpdateCurr(Wrap, Norm(q), now % U64))
  {
    UpdateCurrWrap(q, now);
    TickOk(q, now);
    var u := UpdateCurr(Wide, q, now);
    OkParts(u);
    hide Ok, UpdateCurr, InKeyOrder, Norm, SafeTick, SafeLink, OnSet;
    LinkReady(u, e);
  }

  lemma RetainsWrap(q: Queue, prev: Id)
    requires OnRq(q, prev) && q.leftmost.Some? ==> KeyFits(q, prev) && KeyFits(q, q.leftmost.value)
    ensures Retains(Wrap, Norm(q), prev) == Retains(Wide, q, prev)
  {
    NormLookup(q, prev);
    if OnRq(q, prev) && q.leftmost.Some? {
      KeyWrap(q, prev);
      KeyWrap(q, q.leftmost.value);
    }
  }

  lemma PickReady(q: Queue, c: Clock)
    requires Ok(q) && q.nrRunning != 0 && q.curr.Some? && SafePick(q, true, c)
    ensures ReadyPick(Norm(q), q.curr.value, NormClock(c))
  {
    var prev, u := q.curr.value, UpdateCurr(Wide, q, c.now);
    UpdateCurrWrap(q, c.now);
    NormLookup(u, prev);
    TickOk(q, c.now);
    hide Ok, UpdateCurr, InKeyOrder, Norm, SafeTick, SafeLink, OnSet, OnRq, Retains, SafePut, KeyFits;
    RetainsWrap(u, prev);
    if OnRq(u, prev) && !Retains(Wide, u, prev) { PutReady(u, prev, c.put); }
  }

  /** An operation inside the window always finds the tree it descends in key order. */
  lemma StepReady(q: Queue, op: Op)
    requires Ok(q) && Enabled(q, op) && Safe(q, op)
    ensures Ready(Norm(q), NormOp(op))
  {
    if op.Put? { NormLookup(q, q.curr.value); }
    hide Ok, SafeEnq, SafePut, SafePick, SafeTick, SafeDeq, Prepared, UpdateCurr, InKeyOrder, ReadyPick;
    match op
    case Enq(e, wakeup, waking, now) => if q.curr != Some(e) { EnqueueReady(q, e, wakeup, waking, now); }
    case Put(now) => if CurrOn(q) { PutReady(q, q.curr.value, now); }
    case Pick(prevFair, c, t) => if q.nrRunning != 0 && q.curr.Some? { PickReady(q, c); }
    case _ =>
  }

  // ----- runs

  /** The queue sched_init leaves, with every entity off it, is where runs may start. */
  lemma InitialQueue(ents: map<Id, Entity>, thresh: nat)
    requires forall e :: e in ents ==> !ents[e].onRq
    ensures var q := Queue(ents, [], None, None, 0, 0, thresh, None, None, None); Ok(q) && Window(q)
  {
    assert OnSet(Queue(ents, [], None, None, 0, 0, thresh, None, None, None)) == {};
  }

  ghost predicate SteadyRun(q: Queue, ops: seq<Op>)
    requires Runs(Wide, q, ops)
    decreases ops
  {
    ops == [] || (Steady(q, ops[0]) && SteadyRun(Step(Wide, q, ops[0]), ops[1..]))
  }

  lemma {:induction false} SteadyConcat(q: Queue, a: seq<Op>, b: seq<Op>)
    requires Runs(Wide, q, a) && SteadyRun(q, a) && Runs(Wide, After(Wide, q, a), b) && SteadyRun(After(Wide, q, a), b)
    ensures Runs(Wide, q, a + b) && SteadyRun(q, a + b)
    decreases a
  {
    RunConcat(q, a, b);
    hide Step, Enabled, Steady;
    if a == [] {
      assert a + b == b;
    } else {
      SteadyConcat(Step(Wide, q, a[0]), a[1..], b);
      assert (a + b)[1..] == a[1..] + b && (a + b)[0] == a[0];
    }
  }

  lemma SteadyOne(q: Queue, op: Op)
    requires Enabled(q, op) && Steady(q, op)
    ensures Runs(Wide, q, [op]) && SteadyRun(q, [op])
  {
    RunOne(q, op);
    hide Step, Enabled, Steady;
    assert [op][1..] == [];
    assert SteadyRun(Step(Wide, q, op), []);
  }

  lemma {:induction false} RunSafe(q: Queue, ops: seq<Op>)
    requires Ok(q) && Runs(Wide, q, ops) && SteadyRun(q, ops)
    ensures SafeRun(q, ops)
    decreases ops
  {
    hide Ok, Enabled, Safe, Steady, Step;
    if ops != [] {
      StepSafe(q, ops[0]);
      StepOk(q, ops[0]);
      RunSafe(Step(Wide, q, ops[0]), ops[1..]);
    }
  }

  /** The refinement from conditions on the queue: same insertions, same picks, every value modulo 2^64. */
  lemma WindowRun(q: Queue, ops: seq<Op>)
    requires Ok(q) && Runs(Wide, q, ops) && SteadyRun(q, ops)
    ensures Runs(Wrap, Norm(q), NormOps(ops))
    ensures After(Wrap, Norm(q), NormOps(ops)) == Norm(After(Wide, q, ops))
  {
    hide Ok, Runs, SteadyRun, SafeRun, After;
    RunSafe(q, ops);
    RunWrap(q, ops);
  }

  /**
   What the 64-bit queue itself keeps: the tree is exactly the queued entities other than the current one, in
   key order, and the cached leftmost is its first.
   */
  ghost predicate Sound(w: Queue) {
    && NoDup(w.timeline) && KeySorted(w, w.timeline) && w.leftmost == First(w.timeline)
    && forall e: Id :: e in w.timeline <==> e in w.ents && OnRq(w, e) && w.curr != Some(e)
  }

  /** Every state of the run is sound, and no step moves min_vruntime back, read as a signed difference. */
  ghost predicate SoundRun(w: Queue, ops: seq<Op>)
    requires Runs(Wrap, w, ops)
    decreases ops
  {
    && Sound(w)
    && (ops == [] || (var r := Step(Wrap, w, ops[0]);
                      Diff(Wrap, r.minVruntime, w.minVruntime) >= 0 && SoundRun(r, ops[1..])))
  }

  lemma SoundNorm(q: Queue)
    requires Ok(q) && Window(q)
    ensures Sound(Norm(q))
  {
    LeftmostQueued(q);
    OkStage(q);
    forall e: Id
      ensures OnRq(Norm(q), e) == OnRq(q, e)
    {
      NormLookup(q, e);
    }
    assert forall e: Id :: e in CurrSet(q) <==> q.curr == Some(e);
    hide OnRq, OnSet, KeySorted, KeyFits;
    KeysInOrder(q, q.timeline);
  }

  /** The timeline invariant and the direction of min_vruntime, for the 64-bit scheduler over whole runs. */
  lemma {:induction false} WrappedTimeline(q: Queue, ops: seq<Op>)
    requires Ok(q) && Window(q) && Runs(Wide, q, ops) && SteadyRun(q, ops)
    ensures Runs(Wrap, Norm(q), NormOps(ops)) && SoundRun(Norm(q), NormOps(ops))
    decreases ops
  {
    WindowRun(q, ops);
    hide Ok, Enabled, Safe, Step, Norm, NormOp, Window, Sound, Diff;
    SoundNorm(q);
    if ops != [] {
      var r := Step(Wide, q, ops[0]);
      StepSafe(q, ops[0]);
      StepWrap(q, ops[0]);
      StepOk(q, ops[0]);
      WrappedTimeline(r, ops[1..]);
      assert NormOps(ops)[1..] == NormOps(ops[1..]);
      DiffWrap(r.minVruntime, q.minVruntime);
      NormMin(q);
      NormMin(r);
    }
  }

  lemma NormMin(q: Queue)
    ensures Norm(q).minVruntime == q.minVruntime % U64
  {
  }

  // ----- why vruntimes near min_vruntime are not enough

  ghost predicate AllNear(q: Queue) {
    forall e: Id :: e in OnSet(q) ==> Near(q, e)
  }

  /**
   The first witness: every queued vruntime is near the minimum, before and after the charge, but the current
   entity is 2^63 ahead of the leftmost. The 64-bit minimum jumps ahead and the pick keeps the wrong task.
   */
  lemma WindowTooWide()
    ensures exists q: Queue, c: Clock, t: Tests ::
              && Ok(q) && q.curr.Some? && AllNear(q) && AllNear(UpdateCurr(Wide, q, c.now))
              && PickNext(Wrap, Norm(q), true, NormClock(c), t).task != PickNext(Wide, q, true, c, t).task
  {
    var q, c, t := FarApartQueue(), Clock(1, 1, 1), Tests(false, false, false);
    FarApartOk();
    FarApartWide();
    FarApartWrap();
    hide FarApartQueue, UpdateCurr, PutPrev, PickFresh, Retains, Norm, Ok, AllNear;
    var u := UpdateCurr(Wide, q, 1);
    assert PickNext(Wide, q, true, c, t) == PickFresh(Wide, PutPrev(Wide, u, 0, 1), c, t);
    assert PickNext(Wrap, Norm(q), true, NormClock(c), t).task == Some(0);
    PutPrevOk(u, 1);
    var p := PutPrev(Wide, u, 0, 1);
    ChosenQueued(p, t);
    PickFreshOk(p, c, t);
  }

  /** Entity 0 runs, 2^63 ahead of entity 1, the only one in the tree. */
  function FarApartQueue(): Queue {
    Queue(map[0 := Entity(S63 - 2, 0, 0, 1024, true), 1 := Entity(-2, 0, 0, 1024, true)],
          [1], Some(1), Some(0), 0, 2, 0, None, None, None)
  }

  lemma FarApartOk()
    ensures Ok(FarApartQueue()) && AllNear(FarApartQueue())
  {
    var q := FarApartQueue();
    assert OnSet(q) == {0, 1} && OnSet(q) - CurrSet(q) == {1};
  }

  lemma FarApartWide()
    ensures var q := FarApartQueue(); var u := UpdateCurr(Wide, q, 1);
            && Ok(u) && u.curr == Some(0) && AllNear(u) && !Retains(Wide, u, 0)
            && u.next.None? && u.last.None? && u.skip.None?
            && PutPrev(Wide, u, 0, 1).leftmost == Some(1)
  {
    var q := FarApartQueue();
    var u := UpdateCurr(Wide, q, 1);
    FarApartOk();
    TickOk(q, 1);
    assert Vr(u, 0) == S63 - 1 && Vr(u, 1) == -2 && u.minVruntime == 0 && OnSet(u) == {0, 1};
    assert UpdateCurr(Wide, u, 1) == u;
    assert u.timeline == [1] && u.leftmost == Some(1);
  }

  lemma FarApartNorm()
    ensures var q := FarApartQueue(); var w := Norm(q);
            && 0 in w.ents && w.ents[0] == Entity(S63 - 2, 0, 0, 1024, true)
            && 1 in w.ents && w.ents[1] == Entity(U64 - 2, 0, 0, 1024, true)
            && w == Queue(w.ents, [1], Some(1), Some(0), 0, 2, 0, None, None, None)
            && q == Queue(q.ents, [1], Some(1), Some(0), 0, 2, 0, None, None, None)
  {
  }

  lemma FarApartWrap()
    ensures var q := FarApartQueue();
            && Norm(q).nrRunning != 0 && Norm(q).curr == Some(0) && q.nrRunning != 0 && q.curr == Some(0)
            && Retains(Wrap, UpdateCurr(Wrap, Norm(q), 1), 0)
  {
    FarApartNorm();
    hide Norm, FarApartQueue;
    var w, u := Norm(FarApartQueue()), UpdateCurr(Wrap, Norm(FarApartQueue()), 1);
    var x := Charged(Wrap, w, 0, 1);
    assert x == SetVr(x, 0, S63 - 1) && Vr(x, 0) == S63 - 1 && Vr(x, 1) == U64 - 2;
    assert Candidate(Wrap, x) == S63 - 1;
    assert u == x.(minVruntime := S63 - 1);
    hide UpdateCurr, Charged, Candidate;
  }

  /**
   The second witness: nothing is current and every queued vruntime is at the minimum, but the sleeper that
   wakes is more than 2^63 behind the floor. It is left where it was, and linked last instead of first.
   */
  lemma SleeperTooFar()
    ensures exists q: Queue ::
              && Ok(q) && q.curr.None? && AllNear(q) && 1 in q.ents && !OnRq(q, 1)
              && Enqueue(Wide, q, 1, true, false, 0).leftmost == Some(1)
              && Enqueue(Wrap, Norm(q), 1, true, false, 0).leftmost == Some(0)
  {
    var q := SleeperQueue();
    assert OnSet(q) == {0};
    assert Ok(q) && AllNear(q);
    SleeperWide();
    SleeperWrap();
  }

  /** Entity 0 waits at the minimum; entity 1 has slept since the minimum was 0. */
  function SleeperQueue(): Queue {
    Queue(map[0 := Entity(S63 + 10, 0, 0, 1024, true), 1 := Entity(0, 0, 0, 1024, false)],
          [0], Some(0), None, S63 + 10, 1, 3, None, None, None)
  }

  lemma SleeperWide()
    ensures Enqueue(Wide, SleeperQueue(), 1, true, false, 0).leftmost == Some(1)
  {
    var q := SleeperQueue();
    var x := Prepared(Wide, q, 1, true, false, 0);
    assert UpdateCurr(Wide, q, 0) == q;
    assert Vr(x, 0) == S63 + 10 && Vr(x, 1) == S63 + 7 && x.minVruntime == S63 + 10 && x.timeline == [0];
    hide Prepared;
  }

  lemma SleeperNorm()
    ensures var w := Norm(SleeperQueue());
            && 0 in w.ents && w.ents[0] == Entity(S63 + 10, 0, 0, 1024, true)
            && 1 in w.ents && w.ents[1] == Entity(0, 0, 0, 1024, false)
            && w == Queue(w.ents, [0], Some(0), None, S63 + 10, 1, 3, None, None, None)
  {
  }

  lemma SleeperWrap()
    ensures Enqueue(Wrap, Norm(SleeperQueue()), 1, true, false, 0).leftmost == Some(0)
  {
    SleeperNorm();
    hide SleeperQueue, Norm;
    var w := Norm(SleeperQueue());
    var x := Prepared(Wrap, w, 1, true, false, 0);
    assert UpdateCurr(Wrap, w, 0) == w;
    assert Vr(x, 0) == S63 + 10 && Vr(x, 1) == 0 && x.minVruntime == S63 + 10 && x.timeline == [0];
    hide Prepared;
  }
}
