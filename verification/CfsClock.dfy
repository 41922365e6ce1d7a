/**
 CPU time is clock time. A stopwatch that knows only the clock readings and who is current says how much CPU time
 each entity has received; the code's per-entity exec_start and sum_exec_runtime agree with it over every run.
 */
module CfsClock {
  import opened Common
  import opened FixedPoint
  import opened Cfs
  import opened CfsTimeline
  import opened CfsRuns

  /** The latest of a starting point and some clock readings. */
  function Latest(start: int, readings: seq<int>): int
    decreases readings
  {
    if readings == [] then start
    else Latest(if readings[0] > start then readings[0] else start, readings[1..])
  }

  lemma {:induction false} LatestIs(start: int, readings: seq<int>)
    ensures Latest(start, readings) >= start && forall t :: t in readings ==> Latest(start, readings) >= t
    ensures Latest(start, readings) == start || Latest(start, readings) in readings
    decreases readings
  {
    if readings != [] {
      assert readings == [readings[0]] + readings[1..];
      LatestIs(if readings[0] > start then readings[0] else start, readings[1..]);
    }
  }

  function SumExec(q: Queue, e: Id): int {
    Ent(q, e).sumExec
  }

  /** When the current entity was last charged or set. */
  function Mark(q: Queue): int {
    if q.curr.Some? then Ent(q, q.curr.value).execStart else 0
  }

  // ----- between two picks

  function Ticks(q: Queue, ticks: seq<int>): Queue
    decreases ticks
  {
    if ticks == [] then q else Ticks(UpdateCurr(Wide, q, ticks[0]), ticks[1..])
  }

  /** One charge, on any queue: the current entity gets the time since its mark, and the mark moves along. */
  lemma TickClock(q: Queue, now: int)
    requires q.curr.Some? ==> q.curr.value in q.ents
    ensures var r := UpdateCurr(Wide, q, now);
            && r.curr == q.curr && r.ents.Keys == q.ents.Keys
            && (q.curr.Some? ==> Mark(r) == Latest(Mark(q), [now]))
            && forall e: Id :: SumExec(r, e) - SumExec(q, e) == (if q.curr == Some(e) then Mark(r) - Mark(q) else 0)
  {
    hide Charge, Candidate;
  }

  /**
   Any number of charges: the current entity receives exactly the time from its mark to the latest reading, once,
   or nothing if no reading is later; nobody else receives anything.
   */
  lemma {:induction false} TicksClock(q: Queue, ticks: seq<int>)
    requires q.curr.Some? && q.curr.value in q.ents
    ensures var r := Ticks(q, ticks);
            && r.curr == q.curr && r.ents.Keys == q.ents.Keys && Mark(r) == Latest(Mark(q), ticks)
            && forall e: Id :: SumExec(r, e) - SumExec(q, e) ==
                 (if q.curr == Some(e) then Latest(Mark(q), ticks) - Mark(q) else 0)
    decreases ticks
  {
    hide UpdateCurr, SumExec, Mark;
    if ticks != [] {
      TickClock(q, ticks[0]);
      assert [ticks[0]][1..] == [];
      TicksClock(UpdateCurr(Wide, q, ticks[0]), ticks[1..]);
    }
  }

  // ----- any operation

  /** The clock readings an operation charges the current entity at. */
  function Readings(q: Queue, op: Op): seq<int>
    requires Enabled(q, op)
  {
    match op
    case Tick(now) => [now]
    case Enq(_, _, _, now) => [now]
    case Deq(_, _, now) => [now]
    case Put(now) => if CurrOn(q) then [now] else []
    case SetBuddy(_, _) => []
    case Pick(prevFair, c, _) =>
      if q.nrRunning == 0 || q.curr.None? then []
      else [c.now] + (if CurrOn(q) && !Retains(Wide, UpdateCurr(Wide, q, c.now), q.curr.value) then [c.put] else [])
  }

  /** Whether the operation makes some entity current and starts its clock. */
  predicate Sets(q: Queue, op: Op) {
    op.Pick? && q.nrRunning != 0 && (q.curr.Some? ==> !Retains(Wide, UpdateCurr(Wide, q, op.clock.now), q.curr.value))
  }

  /** The two records a stopwatch compares: CPU times grown by `d` for `c` and nothing for anybody else. */
  ghost predicate Grew(q: Queue, r: Queue, c: Option<Id>, d: int) {
    forall e: Id :: SumExec(r, e) - SumExec(q, e) == if c == Some(e) then d else 0
  }

  /** What one operation does to CPU times and to the mark. */
  ghost predicate Clocked(q: Queue, r: Queue, last: int, sets: bool, at: int) {
    && Grew(q, r, q.curr, last - Mark(q)) && (r.curr.Some? ==> Mark(r) == if sets then at else last)
    && (r.curr.Some? && !sets ==> r.curr == q.curr)
  }

  lemma LatestTwo(m: int, a: int, b: int)
    ensures Latest(m, []) == m && Latest(m, [a]) == (if a > m then a else m)
    ensures Latest(m, [a, b]) == Latest(Latest(m, [a]), [b])
  {
    assert [a, b][1..] == [b] && [a][1..] == [] && [b][1..] == [];
  }

  lemma OkCurr(q: Queue)
    requires Ok(q)
    ensures q.curr.Some? ==> q.curr.value in q.ents
  {
    if q.curr.Some? { assert q.curr.value in CurrSet(q); }
  }

  /** Nothing a stopwatch looks at differs. */
  ghost predicate Still(q: Queue, r: Queue) {
    && r.curr == q.curr && Mark(r) == Mark(q) && q.ents.Keys <= r.ents.Keys
    && forall x: Id :: SumExec(r, x) == SumExec(q, x)
  }

  lemma SetVrStill(q: Queue, e: Id, v: int)
    ensures Still(q, SetVr(q, e, v))
  {
  }

  lemma SetOnStill(q: Queue, e: Id, on: bool)
    ensures Still(q, SetOn(q, e, on))
  {
  }

  lemma SameStill(q: Queue, r: Queue)
    requires r.ents == q.ents && r.curr == q.curr
    ensures Still(q, r)
  {
  }

  lemma StillTrans(q: Queue, r: Queue, w: Queue)
    requires Still(q, r) && Still(r, w)
    ensures Still(q, w)
  {
    hide SumExec, Mark;
  }

  /** One charge and nothing else a stopwatch looks at. */
  lemma ChargeClocked(q: Queue, q1: Queue, r: Queue, now: int)
    requires (q.curr.Some? ==> q.curr.value in q.ents) && Still(q, q1) && Still(UpdateCurr(Wide, q1, now), r)
    ensures r.curr == q.curr && Clocked(q, r, Latest(Mark(q), [now]), false, 0)
  {
    hide UpdateCurr, SumExec, Mark, Latest;
    TickClock(q1, now);
  }

  /** Accounting and placement after the charge. */
  lemma PlacedStill(q: Queue, e: Id, wakeup: bool)
    ensures var r := q.(nrRunning := q.nrRunning + 1); Still(q, if wakeup then Place(Wide, r, e) else r)
  {
    hide SetVr, Vr, MaxVr, Still;
    var r := q.(nrRunning := q.nrRunning + 1);
    SameStill(q, r);
    var x := MaxVr(Wide, Vr(r, e), Store(Wide, r.minVruntime - r.thresh));
    SetVrStill(r, e, x);
    StillTrans(q, r, SetVr(r, e, x));
  }

  lemma QueuedStill(q: Queue, e: Id)
    ensures Still(q, SetOn(if q.curr != Some(e) then Link(Wide, q, e) else q, e, true))
  {
    hide SetOn, Link, Still;
    SameStill(q, q);
    LinkStill(q, e);
    var r := if q.curr != Some(e) then Link(Wide, q, e) else q;
    SetOnStill(r, e, true);
    StillTrans(q, r, SetOn(r, e, true));
  }

  lemma PreparedStill(q: Queue, e: Id, wakeup: bool, waking: bool, now: int) returns (q1: Queue)
    ensures Still(q, q1) && Still(UpdateCurr(Wide, q1, now), Prepared(Wide, q, e, wakeup, waking, now))
  {
    hide UpdateCurr, SetVr, Place, Vr, Still;
    var v := Store(Wide, Vr(q, e) + q.minVruntime);
    SetVrStill(q, e, v);
    SameStill(q, q);
    q1 := if !wakeup || waking then SetVr(q, e, v) else q;
    PlacedStill(UpdateCurr(Wide, q1, now), e, wakeup);
  }

  lemma EnqueueClock(q: Queue, e: Id, wakeup: bool, waking: bool, now: int)
    requires Ok(q) && e in q.ents
    ensures Clocked(q, Enqueue(Wide, q, e, wakeup, waking, now), Latest(Mark(q), [now]), false, 0)
  {
    OkCurr(q);
    hide Ok, UpdateCurr, SetOn, Link, Prepared, Still, Latest, Clocked, Mark;
    var q1 := PreparedStill(q, e, wakeup, waking, now);
    var q4 := Prepared(Wide, q, e, wakeup, waking, now);
    QueuedStill(q4, e);
    StillTrans(UpdateCurr(Wide, q1, now), q4, Enqueue(Wide, q, e, wakeup, waking, now));
    ChargeClocked(q, q1, Enqueue(Wide, q, e, wakeup, waking, now), now);
  }

  lemma LinkStill(q: Queue, e: Id)
    ensures Still(q, Link(Wide, q, e))
  {
    LinkFrame(q, e);
    SameStill(q, Link(Wide, q, e));
  }

  lemma UnlinkStill(q: Queue, e: Id)
    ensures Still(q, Unlink(q, e))
  {
    UnlinkFrame(q, e);
    SameStill(q, Unlink(q, e));
  }

  lemma DetachedStill(q: Queue, e: Id, now: int)
    ensures Still(UpdateCurr(Wide, q, now), Detached(Wide, q, e, now))
  {
    hide UpdateCurr, SetOn, Unlink, Still;
    var q0 := UpdateCurr(Wide, q, now);
    var q1 := ClearBuddies(q0, e);
    SameStill(q0, q1);
    SameStill(q1, q1);
    UnlinkStill(q1, e);
    var q2 := if q1.curr != Some(e) then Unlink(q1, e) else q1;
    StillTrans(q0, q1, q2);
    SetOnStill(q2, e, false);
    StillTrans(q0, q2, SetOn(q2, e, false));
  }

  lemma DepartedStill(q: Queue, e: Id, sleep: bool)
    ensures Still(q, UpdateMin(Wide, Departed(Wide, q, e, sleep)))
  {
    hide SetVr, Vr, Still, Candidate, MaxVr;
    var q4 := q.(nrRunning := q.nrRunning - 1);
    SameStill(q, q4);
    var v := Store(Wide, Vr(q4, e) - q4.minVruntime);
    SetVrStill(q4, e, v);
    StillTrans(q, q4, SetVr(q4, e, v));
    var q5 := Departed(Wide, q, e, sleep);
    SameStill(q5, UpdateMin(Wide, q5));
    StillTrans(q, q5, UpdateMin(Wide, q5));
  }

  lemma DequeueClock(q: Queue, e: Id, sleep: bool, now: int)
    requires Ok(q) && e in q.ents
    ensures Clocked(q, Dequeue(Wide, q, e, sleep, now), Latest(Mark(q), [now]), false, 0)
  {
    OkCurr(q);
    hide Ok, UpdateCurr, Detached, Departed, UpdateMin, Still, Latest, Clocked, Mark;
    SameStill(q, q);
    DetachedStill(q, e, now);
    var q3 := Detached(Wide, q, e, now);
    DepartedStill(q3, e, sleep);
    StillTrans(UpdateCurr(Wide, q, now), q3, Dequeue(Wide, q, e, sleep, now));
    ChargeClocked(q, q, Dequeue(Wide, q, e, sleep, now), now);
  }

  /** A put: the outgoing entity is charged if it is still queued. */
  lemma PutClock(q: Queue, now: int)
    requires q.curr.Some? && q.curr.value in q.ents
    ensures var r := PutPrev(Wide, q, q.curr.value, now);
            && r.curr.None? && r.ents.Keys == q.ents.Keys
            && Grew(q, r, q.curr, (if CurrOn(q) then Latest(Mark(q), [now]) else Mark(q)) - Mark(q))
  {
    hide UpdateCurr, Insert, Key, SumExec, Mark, Latest, OnRq;
    TickClock(q, now);
    var e := q.curr.value;
    var q1 := if OnRq(q, e) then UpdateCurr(Wide, q, now) else q;
    LinkFrame(q1, e);
    var q2 := if OnRq(q1, e) then Link(Wide, q1, e) else q1;
    SameSums(q1, q2);
    assert q2.(curr := None).ents == q2.ents;
    SameSums(q2, q2.(curr := None));
  }

  lemma SameSums(q: Queue, r: Queue)
    requires r.ents == q.ents
    ensures forall x: Id :: SumExec(r, x) == SumExec(q, x)
  {
  }

  /** Choosing and setting: nobody receives anything, and the chosen entity's clock starts at the reading. */
  lemma FreshClock(q: Queue, c: Clock, t: Tests)
    requires q.curr.None?
    ensures var r := PickFresh(Wide, q, c, t).q; Clocked(q, r, Mark(q), true, c.set_)
  {
    hide Chosen, Without, Successor;
  }

  /** A pick that puts the charged current entity back and chooses again. */
  lemma SwitchClock(q: Queue, u: Queue, c: Clock, t: Tests, m: int)
    requires u.curr.Some? && u.curr == q.curr && u.curr.value in u.ents && Grew(q, u, q.curr, Mark(u) - m) && Mark(q) == m
    ensures var last := if CurrOn(u) then Latest(Mark(u), [c.put]) else Mark(u);
            Clocked(q, PickFresh(Wide, PutPrev(Wide, u, u.curr.value, c.put), c, t).q, last, true, c.set_)
  {
    hide UpdateCurr, PutPrev, PickFresh, SumExec, OnRq, Latest, Mark;
    var v := PutPrev(Wide, u, u.curr.value, c.put);
    PutClock(u, c.put);
    FreshClock(v, c, t);
  }

  lemma RetainClock(q: Queue, c: Clock)
    requires q.curr.Some? && q.curr.value in q.ents
    ensures var u := UpdateCurr(Wide, q, c.now);
            && u.curr == q.curr && u.curr.value in u.ents && Mark(u) == Latest(Mark(q), [c.now])
            && Grew(q, u, q.curr, Mark(u) - Mark(q)) && CurrOn(u) == CurrOn(q)
  {
    hide UpdateCurr, SumExec, Mark, Latest, OnRq;
    TickClock(q, c.now);
    TickOn(q, c.now);
  }

  lemma PickClock(q: Queue, prevFair: bool, c: Clock, t: Tests)
    requires Ok(q) && prevFair == q.curr.Some?
    ensures var op := Pick(prevFair, c, t);
            Clocked(q, PickNext(Wide, q, prevFair, c, t).q, Latest(Mark(q), Readings(q, op)), Sets(q, op), c.set_)
  {
    OkCurr(q);
    LatestTwo(Mark(q), c.now, c.put);
    if q.nrRunning != 0 && prevFair {
      hide Ok, UpdateCurr, PutPrev, PickFresh, Retains, SumExec, Mark, Latest, OnRq;
      var u := UpdateCurr(Wide, q, c.now);
      RetainClock(q, c);
      assert [c.now] + [c.put] == [c.now, c.put] && [c.now] + [] == [c.now];
      SwitchClock(q, u, c, t, Mark(q));
    } else {
      hide Ok, UpdateCurr, PutPrev, PickFresh, Retains, Latest;
      if q.nrRunning != 0 { FreshClock(q, c, t); }
    }
  }

  lemma TickOn(q: Queue, now: int)
    requires q.curr.Some?
    ensures CurrOn(UpdateCurr(Wide, q, now)) == CurrOn(q)
  {
    hide Candidate, Charge;
  }

  lemma StepClock(q: Queue, op: Op)
    requires Ok(q) && Enabled(q, op)
    ensures Clocked(q, Step(Wide, q, op), Latest(Mark(q), Readings(q, op)), Sets(q, op), if op.Pick? then op.clock.set_ else 0)
  {
    OkCurr(q);
    match op
    case Tick(now) =>
      SameStill(q, q);
      SameStill(UpdateCurr(Wide, q, now), UpdateCurr(Wide, q, now));
      hide Ok, UpdateCurr, Still, Latest, Clocked, Mark;
      ChargeClocked(q, q, UpdateCurr(Wide, q, now), now);
    case Enq(e, wakeup, waking, now) =>
      hide Ok, Enqueue, Latest, Clocked, Mark;
      EnqueueClock(q, e, wakeup, waking, now);
    case Deq(e, sleep, now) =>
      hide Ok, Dequeue, Latest, Clocked, Mark;
      DequeueClock(q, e, sleep, now);
    case Pick(prevFair, c, t) =>
      hide Ok, PickNext, Latest, Clocked, Mark, Readings, Sets;
      PickClock(q, prevFair, c, t);
    case Put(now) =>
      LatestTwo(Mark(q), now, now);
      hide Ok, PutPrev, Latest, Mark, SumExec;
      PutClock(q, now);
    case SetBuddy(which, e) =>
      SameStill(q, Step(Wide, q, op));
      hide Ok, SumExec;
  }

  // ----- runs

  /**
   The stopwatch: over a run, the time `e` was current, from where its clock was started or left (`mark`) to the
   latest reading, stint by stint. It looks at clock readings and at who is current, not at the entities' records.
   */
  function CpuTime(q: Queue, ops: seq<Op>, e: Id, mark: int): int
    requires Runs(Wide, q, ops)
    decreases ops
  {
    if ops == [] then 0
    else
      (if q.curr == Some(e) then Latest(mark, Readings(q, ops[0])) - mark else 0)
      + CpuTime(Step(Wide, q, ops[0]), ops[1..], e, NextMark(q, ops[0], mark))
  }

  function NextMark(q: Queue, op: Op, mark: int): int
    requires Enabled(q, op)
  {
    if Sets(q, op) then op.clock.set_ else Latest(mark, Readings(q, op))
  }

  /** The CPU time an entity has received between two states. */
  function Received(q: Queue, p: Queue, e: Id): int {
    SumExec(p, e) - SumExec(q, e)
  }

  /** In every run the CPU time each entity has received is the time on the stopwatch. */
  lemma {:induction false} RunClock(q: Queue, ops: seq<Op>, e: Id, mark: int)
    requires Ok(q) && Runs(Wide, q, ops) && (q.curr.Some? ==> mark == Mark(q))
    ensures Received(q, After(Wide, q, ops), e) == CpuTime(q, ops, e, mark)
    decreases ops
  {
    hide Ok, Step, Enabled, SumExec, Mark, Latest, Readings, UpdateCurr, Retains;
    if ops != [] {
      StepOk(q, ops[0]);
      StepClock(q, ops[0]);
      RunClock(Step(Wide, q, ops[0]), ops[1..], e, NextMark(q, ops[0], mark));
    }
  }

  /** The clock does not run back between a charge and the set that follows. */
  predicate Forward(q: Queue, ops: seq<Op>, mark: int)
    requires Runs(Wide, q, ops)
    decreases ops
  {
    ops == [] ||
    (&& (Sets(q, ops[0]) ==> Latest(mark, Readings(q, ops[0])) <= ops[0].clock.set_)
     && Forward(Step(Wide, q, ops[0]), ops[1..], NextMark(q, ops[0], mark)))
  }

  /** The stopwatch's mark after the run. */
  function LastMark(q: Queue, ops: seq<Op>, mark: int): int
    requires Runs(Wide, q, ops)
    decreases ops
  {
    if ops == [] then mark else LastMark(Step(Wide, q, ops[0]), ops[1..], NextMark(q, ops[0], mark))
  }

  /** No moment is handed out twice: what two entities receive together fits the time that has passed. */
  lemma {:induction false} OneAtATime(q: Queue, ops: seq<Op>, e: Id, f: Id, mark: int)
    requires Runs(Wide, q, ops) && Forward(q, ops, mark) && e != f
    ensures CpuTime(q, ops, e, mark) >= 0 && CpuTime(q, ops, f, mark) >= 0
    ensures CpuTime(q, ops, e, mark) + CpuTime(q, ops, f, mark) <= LastMark(q, ops, mark) - mark
    decreases ops
  {
    hide Step, Enabled, Latest, Readings, Sets;
    if ops != [] {
      LatestIs(mark, Readings(q, ops[0]));
      OneAtATime(Step(Wide, q, ops[0]), ops[1..], e, f, NextMark(q, ops[0], mark));
    }
  }
}
