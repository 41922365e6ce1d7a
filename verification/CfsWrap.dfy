/** The 64-bit scheduler with signed-difference keys refines the one over unbounded integers. */
module CfsWrap {
  import opened Common
  import opened FixedPoint
  import opened Cfs

  /** What a u64 keeps of an entity, a queue, an operation. */
  function NormEnt(x: Entity): Entity {
    x.(vruntime := x.vruntime % U64, execStart := x.execStart % U64, sumExec := x.sumExec % U64)
  }

  function Norm(q: Queue): Queue {
    q.(ents := map e | e in q.ents :: NormEnt(q.ents[e]), minVruntime := q.minVruntime % U64)
  }

  function NormOp(op: Op): Op {
    match op
    case Tick(now) => Tick(now % U64)
    case Enq(e, wakeup, waking, now) => Enq(e, wakeup, waking, now % U64)
    case Deq(e, sleep, now) => Deq(e, sleep, now % U64)
    case Pick(prevFair, c, t) => Pick(prevFair, NormClock(c), t)
    case Put(now) => Put(now % U64)
    case SetBuddy(which, e) => SetBuddy(which, e)
  }

  function NormClock(c: Clock): Clock {
    Clock(c.now % U64, c.put % U64, c.set_ % U64)
  }

  /** A difference a signed 64-bit integer can hold. */
  predicate Fits64(x: int) {
    -S63 <= x < S63
  }

  // ----- arithmetic

  lemma DiffWrap(x: int, y: int)
    requires Fits64(x - y)
    ensures Diff(Wrap, x % U64, y % U64) == x - y
  {
    ModDiff(x, y);
  }

  lemma ModDiff(x: int, y: int)
    ensures (x % U64 - y % U64) % U64 == (x - y) % U64
    ensures (x % U64 + y) % U64 == (x + y) % U64
  {
    var a, b := x / U64, y / U64;
    ModShift(x - y, b - a);
    ModShift(x + y, -a);
  }

  lemma ModShift(x: int, k: int)
    ensures (x + k * U64) % U64 == x % U64
  {
    var d := (x + k * U64) / U64 - x / U64 - k;
    var r := (x + k * U64) % U64 - x % U64;
    assert d * U64 + r == 0;
  }

  lemma SumWrap(x: int, y: int)
    ensures Store(Wrap, x % U64 + y) == (x + y) % U64
    ensures Store(Wrap, x % U64 + y % U64) == (x + y) % U64
    ensures Store(Wrap, x % U64 - y % U64) == (x - y) % U64
    ensures Store(Wrap, x % U64) == x % U64
  {
    ModDiff(x, y);
    ModDiff(y, x % U64);
  }

  // ----- primitives

  lemma NormLookup(q: Queue, e: Id)
    ensures Ent(Norm(q), e) == NormEnt(Ent(q, e)) && Vr(Norm(q), e) == Vr(q, e) % U64
    ensures OnRq(Norm(q), e) == OnRq(q, e)
  {
  }

  lemma NormSetEnt(q: Queue, e: Id, x: Entity)
    ensures SetEnt(Norm(q), e, NormEnt(x)) == Norm(SetEnt(q, e, x))
  {
    assert SetEnt(Norm(q), e, NormEnt(x)).ents == Norm(SetEnt(q, e, x)).ents;
  }

  lemma NormSetVr(q: Queue, e: Id, v: int)
    ensures SetVr(Norm(q), e, v % U64) == Norm(SetVr(q, e, v))
  {
    NormLookup(q, e);
    NormSetEnt(q, e, Ent(q, e).(vruntime := v));
  }

  lemma NormSetOn(q: Queue, e: Id, on: bool)
    ensures SetOn(Norm(q), e, on) == Norm(SetOn(q, e, on))
  {
    NormLookup(q, e);
    NormSetEnt(q, e, Ent(q, e).(onRq := on));
  }

  predicate KeyFits(q: Queue, e: Id) {
    Fits64(Vr(q, e) - q.minVruntime)
  }

  lemma KeyWrap(q: Queue, e: Id)
    requires KeyFits(q, e)
    ensures Key(Wrap, Norm(q), e) == Key(Wide, q, e)
  {
    NormLookup(q, e);
    DiffWrap(Vr(q, e), q.minVruntime);
  }

  lemma {:induction false} InsertWrap(q: Queue, s: seq<Id>, e: Id)
    requires KeyFits(q, e) && forall x :: x in s ==> KeyFits(q, x)
    ensures Insert(Wrap, Norm(q), s, e) == Insert(Wide, q, s, e)
  {
    hide Key, KeyFits, Norm;
    if s != [] {
      KeyWrap(q, e);
      KeyWrap(q, s[0]);
      InsertWrap(q, s[1..], e);
    }
  }

  /** Every key a tree descent compares fits. */
  predicate SafeLink(q: Queue, e: Id) {
    KeyFits(q, e) && forall x :: x in q.timeline ==> KeyFits(q, x)
  }

  lemma LinkWrap(q: Queue, e: Id)
    requires SafeLink(q, e)
    ensures Link(Wrap, Norm(q), e) == Norm(Link(Wide, q, e))
  {
    hide Key, KeyFits, Insert;
    KeyWrap(q, e);
    if q.timeline != [] { KeyWrap(q, q.timeline[0]); }
    InsertWrap(q, q.timeline, e);
  }

  /** The differences update_min_vruntime takes fit: current against leftmost, and the outcome against the minimum. */
  predicate SafeMin(q: Queue) {
    && (CurrOn(q) && q.leftmost.Some? ==> Fits64(Vr(q, q.leftmost.value) - Vr(q, q.curr.value)))
    && Fits64(Candidate(Wide, q) - q.minVruntime)
  }

  lemma CandidateWrap(q: Queue)
    requires CurrOn(q) && q.leftmost.Some? ==> Fits64(Vr(q, q.leftmost.value) - Vr(q, q.curr.value))
    ensures Candidate(Wrap, Norm(q)) == Candidate(Wide, q) % U64
  {
    if q.curr.Some? { NormLookup(q, q.curr.value); }
    if q.leftmost.Some? { NormLookup(q, q.leftmost.value); }
    if CurrOn(q) && q.leftmost.Some? { DiffWrap(Vr(q, q.leftmost.value), Vr(q, q.curr.value)); }
    hide Vr, OnRq, Diff;
  }

  lemma UpdateMinWrap(q: Queue)
    requires SafeMin(q)
    ensures UpdateMin(Wrap, Norm(q)) == Norm(UpdateMin(Wide, q))
  {
    CandidateWrap(q);
    DiffWrap(Candidate(Wide, q), q.minVruntime);
    hide Candidate;
  }

  /** Less than 2^63 from min_vruntime. */
  predicate Near(q: Queue, e: Id) {
    -S63 < Vr(q, e) - q.minVruntime < S63
  }

  /**
   Both vruntimes being within 2^63 of the minimum is still not enough: update_min_vruntime agrees with
   the unbounded one exactly when the current and the leftmost entity are also within 2^63 of each other.
   */
  lemma UpdateMinWrapIff(q: Queue)
    requires CurrOn(q) && q.leftmost.Some? && Near(q, q.curr.value) && Near(q, q.leftmost.value)
    ensures UpdateMin(Wrap, Norm(q)) == Norm(UpdateMin(Wide, q))
            <==> Fits64(Vr(q, q.leftmost.value) - Vr(q, q.curr.value))
  {
    var c, l, m := Vr(q, q.curr.value), Vr(q, q.leftmost.value), q.minVruntime;
    NormLookup(q, q.curr.value);
    NormLookup(q, q.leftmost.value);
    if Fits64(l - c) {
      UpdateMinWrap(q);
    } else {
      FarApart(c, l, m);
    }
  }

  lemma FarApart(c: int, l: int, m: int)
    requires -S63 < c - m < S63 && -S63 < l - m < S63 && !Fits64(l - c)
    ensures MaxVr(Wrap, m % U64, MinVr(Wrap, c % U64, l % U64)) != MaxVr(Wide, m, MinVr(Wide, c, l)) % U64
  {
    WrongSign(c, l);
    DiffWrap(c, m);
    DiffWrap(l, m);
    hide Diff;
    assert Diff(Wide, l, c) == l - c && Diff(Wide, c, m) == c - m && Diff(Wide, l, m) == l - m by { WideDiff(); }
    if c < l { ModDistinct(m, l); } else { ModDistinct(m, c); }
  }

  lemma WideDiff()
    ensures forall x: int, y: int :: Diff(Wide, x, y) == x - y
  {
  }

  /** A difference that does not fit is read with the opposite sign. */
  lemma WrongSign(c: int, l: int)
    requires !Fits64(l - c) && -2 * S63 < l - c < 2 * S63
    ensures (Diff(Wrap, l % U64, c % U64) < 0) <==> (l - c > 0)
    ensures Diff(Wrap, l % U64, c % U64) != 0
  {
    ModDiff(l, c);
    var d := (l - c) % U64;
    assert d == if l > c then l - c else l - c + U64;
  }

  lemma ModDistinct(x: int, y: int)
    requires y < x < y + U64 || x < y < x + U64
    ensures x % U64 != y % U64
  {
  }

  lemma ChargedEntWrap(x: Entity, now: int, delta: nat)
    ensures ChargedEnt(Wrap, NormEnt(x), now % U64, delta) == NormEnt(ChargedEnt(Wide, x, now, delta))
  {
    hide Charge;
    SumWrap(now, 0);
    SumWrap(x.sumExec, delta);
    SumWrap(x.vruntime, Charge(delta, x.weight));
  }

  lemma ChargedWrap(q: Queue, e: Id, now: int)
    requires Fits64(now - Ent(q, e).execStart)
    ensures Charged(Wrap, Norm(q), e, now % U64) == Norm(Charged(Wide, q, e, now))
    ensures Diff(Wrap, now % U64, Ent(Norm(q), e).execStart) == Diff(Wide, now, Ent(q, e).execStart)
  {
    var x := Ent(q, e);
    NormLookup(q, e);
    DiffWrap(now, x.execStart);
    hide ChargedEnt, Norm, Ent, SetEnt;
    var delta := now - x.execStart;
    if delta > 0 {
      ChargedEntWrap(x, now, delta);
      NormSetEnt(q, e, ChargedEnt(Wide, x, now, delta));
    }
  }

  predicate SafeTick(q: Queue, now: int) {
    q.curr.Some? ==>
      var e := q.curr.value;
      && Fits64(now - Ent(q, e).execStart)
      && (now > Ent(q, e).execStart ==> SafeMin(Charged(Wide, q, e, now)))
  }

  lemma UpdateCurrWrap(q: Queue, now: int)
    requires SafeTick(q, now)
    ensures UpdateCurr(Wrap, Norm(q), now % U64) == Norm(UpdateCurr(Wide, q, now))
  {
    if q.curr.Some? {
      var e := q.curr.value;
      ChargedWrap(q, e, now);
      if now > Ent(q, e).execStart {
        hide Charged, UpdateMin;
        UpdateMinWrap(Charged(Wide, q, e, now));
      }
    }
  }

  // ----- operations

  /** Rebasing a vruntime on the queue's minimum, or taking it off. */
  lemma RebaseWrap(q: Queue, e: Id)
    ensures SetVr(Norm(q), e, Store(Wrap, Vr(Norm(q), e) + Norm(q).minVruntime))
            == Norm(SetVr(q, e, Store(Wide, Vr(q, e) + q.minVruntime)))
    ensures SetVr(Norm(q), e, Store(Wrap, Vr(Norm(q), e) - Norm(q).minVruntime))
            == Norm(SetVr(q, e, Store(Wide, Vr(q, e) - q.minVruntime)))
  {
    hide SetVr, Vr, Ent;
    NormLookup(q, e);
    SumWrap(Vr(q, e), q.minVruntime);
    NormSetVr(q, e, Vr(q, e) + q.minVruntime);
    NormSetVr(q, e, Vr(q, e) - q.minVruntime);
  }

  lemma PlaceWrap(q: Queue, e: Id)
    requires Fits64(q.minVruntime - q.thresh - Vr(q, e))
    ensures Place(Wrap, Norm(q), e) == Norm(Place(Wide, q, e))
  {
    hide SetVr, Vr, Ent;
    NormLookup(q, e);
    SumWrap(q.minVruntime, -(q.thresh as int));
    DiffWrap(q.minVruntime - q.thresh, Vr(q, e));
    NormSetVr(q, e, MaxVr(Wide, Vr(q, e), q.minVruntime - q.thresh));
  }

  /** place_entity agrees with the unbounded one exactly when the sleeper is within 2^63 of the floor. */
  lemma PlaceWrapIff(q: Queue, e: Id)
    requires -2 * S63 < q.minVruntime - q.thresh - Vr(q, e) < 2 * S63
    ensures Place(Wrap, Norm(q), e) == Norm(Place(Wide, q, e)) <==> Fits64(q.minVruntime - q.thresh - Vr(q, e))
  {
    var v, f := Vr(q, e), q.minVruntime - q.thresh;
    if Fits64(f - v) {
      PlaceWrap(q, e);
    } else {
      WrongSign(v, f);
      ModDistinct(v, f);
      SumWrap(q.minVruntime, -(q.thresh as int));
      NormLookup(q, e);
      NormLookup(Place(Wide, q, e), e);
      hide Norm;
      assert Vr(Place(Wide, q, e), e) == if f > v then f else v;
      assert Vr(Place(Wrap, Norm(q), e), e) == if f > v then v % U64 else f % U64;
    }
  }

  function Rebased(q: Queue, e: Id, wakeup: bool, waking: bool): Queue {
    if !wakeup || waking then SetVr(q, e, Vr(q, e) + q.minVruntime) else q
  }

  predicate SafeEnq(q: Queue, e: Id, wakeup: bool, waking: bool, now: int) {
    var q1 := Rebased(q, e, wakeup, waking);
    var q2 := UpdateCurr(Wide, q1, now);
    && SafeTick(q1, now)
    && (wakeup ==> Fits64(q2.minVruntime - q2.thresh - Vr(q2, e)))
    && (q.curr != Some(e) ==> SafeLink(Prepared(Wide, q, e, wakeup, waking, now), e))
  }

  lemma PreparedWrap(q: Queue, e: Id, wakeup: bool, waking: bool, now: int)
    requires SafeEnq(q, e, wakeup, waking, now)
    ensures Prepared(Wrap, Norm(q), e, wakeup, waking, now % U64) == Norm(Prepared(Wide, q, e, wakeup, waking, now))
    ensures Prepared(Wide, q, e, wakeup, waking, now).curr == q.curr
  {
    hide UpdateCurr, SafeTick, SafeLink, Place, SetVr, Vr;
    var q1 := Rebased(q, e, wakeup, waking);
    var q2 := UpdateCurr(Wide, q1, now);
    RebaseWrap(q, e);
    UpdateCurrWrap(q1, now);
    CurrKept(q, e, Vr(q, e) + q.minVruntime, q1, now);
    var q3 := q2.(nrRunning := q2.nrRunning + 1);
    CountKept(q2, e);
    if wakeup { PlaceWrap(q3, e); }
  }

  lemma CurrKept(q: Queue, e: Id, v: int, q1: Queue, now: int)
    requires q1 == q || q1 == SetVr(q, e, v)
    ensures UpdateCurr(Wide, q1, now).curr == q.curr
  {
  }

  lemma CountKept(q: Queue, e: Id)
    ensures Vr(q.(nrRunning := q.nrRunning + 1), e) == Vr(q, e)
    ensures Place(Wide, q.(nrRunning := q.nrRunning + 1), e).curr == q.curr
  {
  }

  lemma EnqueueWrap(q: Queue, e: Id, wakeup: bool, waking: bool, now: int)
    requires SafeEnq(q, e, wakeup, waking, now)
    ensures Enqueue(Wrap, Norm(q), e, wakeup, waking, now % U64) == Norm(Enqueue(Wide, q, e, wakeup, waking, now))
  {
    PreparedWrap(q, e, wakeup, waking, now);
    hide Prepared, Link, SetOn, SafeLink;
    var q4 := Prepared(Wide, q, e, wakeup, waking, now);
    if q.curr != Some(e) {
      LinkWrap(q4, e);
      NormSetOn(Link(Wide, q4, e), e, true);
    } else {
      NormSetOn(q4, e, true);
    }
  }

  predicate SafeDeq(q: Queue, e: Id, sleep: bool, now: int) {
    SafeTick(q, now) && SafeMin(Departed(Wide, Detached(Wide, q, e, now), e, sleep))
  }

  lemma DequeueWrap(q: Queue, e: Id, sleep: bool, now: int)
    requires SafeDeq(q, e, sleep, now)
    ensures Dequeue(Wrap, Norm(q), e, sleep, now % U64) == Norm(Dequeue(Wide, q, e, sleep, now))
  {
    DetachedWrap(q, e, now);
    DepartedWrap(Detached(Wide, q, e, now), e, sleep);
    hide Detached, Departed, SafeMin;
    UpdateMinWrap(Departed(Wide, Detached(Wide, q, e, now), e, sleep));
  }

  lemma DetachedWrap(q: Queue, e: Id, now: int)
    requires SafeTick(q, now)
    ensures Detached(Wrap, Norm(q), e, now % U64) == Norm(Detached(Wide, q, e, now))
  {
    UpdateCurrWrap(q, now);
    hide UpdateCurr, SafeTick, Without, Successor, SetOn;
    var q1 := ClearBuddies(UpdateCurr(Wide, q, now), e);
    NormSetOn(if q1.curr != Some(e) then Unlink(q1, e) else q1, e, false);
  }

  lemma DepartedWrap(q: Queue, e: Id, sleep: bool)
    ensures Departed(Wrap, Norm(q), e, sleep) == Norm(Departed(Wide, q, e, sleep))
  {
    RebaseWrap(q.(nrRunning := q.nrRunning - 1), e);
  }

  predicate SafePut(q: Queue, e: Id, now: int) {
    OnRq(q, e) ==> SafeTick(q, now) && SafeLink(UpdateCurr(Wide, q, now), e)
  }

  lemma PutPrevWrap(q: Queue, e: Id, now: int)
    requires SafePut(q, e, now)
    ensures PutPrev(Wrap, Norm(q), e, now % U64) == Norm(PutPrev(Wide, q, e, now))
  {
    NormLookup(q, e);
    hide UpdateCurr, SafeTick, SafeLink, Link, OnRq;
    if OnRq(q, e) {
      UpdateCurrWrap(q, now);
      NormLookup(UpdateCurr(Wide, q, now), e);
      LinkWrap(UpdateCurr(Wide, q, now), e);
    }
  }

  lemma PickFreshWrap(q: Queue, c: Clock, t: Tests)
    ensures var p := PickFresh(Wide, q, c, t);
            PickFresh(Wrap, Norm(q), NormClock(c), t) == Picked(Norm(p.q), p.task)
  {
    assert Chosen(Norm(q), t) == Chosen(q, t);
    hide Chosen, SetNext;
    match Chosen(q, t)
    case None =>
    case Some(e) =>
      SetNextWrap(ClearBuddies(q, e), e, c.set_);
  }

  lemma SetNextWrap(q: Queue, e: Id, now: int)
    ensures SetNext(Wrap, Norm(q), e, now % U64) == Norm(SetNext(Wide, q, e, now))
  {
    NormLookup(q, e);
    SumWrap(now, 0);
    var q1 := if OnRq(q, e) then Unlink(q, e) else q;
    var q2 := q1.(curr := Some(e));
    NormLookup(q2, e);
    hide Without, Successor, Ent, OnRq;
    NormSetEnt(q2, e, Ent(q2, e).(execStart := now));
  }

  predicate SafePick(q: Queue, prevFair: bool, c: Clock) {
    q.nrRunning != 0 && prevFair && q.curr.Some? ==>
      var prev := q.curr.value;
      var q1 := UpdateCurr(Wide, q, c.now);
      && SafeTick(q, c.now)
      && (OnRq(q1, prev) && q1.leftmost.Some? ==> KeyFits(q1, prev) && KeyFits(q1, q1.leftmost.value))
      && (!Retains(Wide, q1, prev) ==> SafePut(q1, prev, c.put))
  }

  lemma PickNextWrap(q: Queue, prevFair: bool, c: Clock, t: Tests)
    requires SafePick(q, prevFair, c)
    ensures var p := PickNext(Wide, q, prevFair, c, t);
            PickNext(Wrap, Norm(q), prevFair, NormClock(c), t) == Picked(Norm(p.q), p.task)
  {
    PickFreshWrap(q, c, t);
    if q.nrRunning != 0 && prevFair && q.curr.Some? {
      var prev := q.curr.value;
      var q1 := UpdateCurr(Wide, q, c.now);
      UpdateCurrWrap(q, c.now);
      NormLookup(q1, prev);
      if OnRq(q1, prev) && q1.leftmost.Some? {
        KeyWrap(q1, prev);
        KeyWrap(q1, q1.leftmost.value);
      }
      if !Retains(Wide, q1, prev) {
        PutPrevWrap(q1, prev, c.put);
        PickFreshWrap(PutPrev(Wide, q1, prev, c.put), c, t);
      }
    }
    hide UpdateCurr, PutPrev, PickFresh, Key, KeyFits, SafeTick, SafePut, OnRq;
  }

  /** Every comparison the operation makes is between values less than 2^63 apart. */
  predicate Safe(q: Queue, op: Op)
    requires Enabled(q, op)
  {
    match op
    case Tick(now) => SafeTick(q, now)
    case Enq(e, wakeup, waking, now) => SafeEnq(q, e, wakeup, waking, now)
    case Deq(e, sleep, now) => SafeDeq(q, e, sleep, now)
    case Pick(prevFair, clock, tests) => SafePick(q, prevFair, clock)
    case Put(now) => SafePut(q, q.curr.value, now)
    case SetBuddy(which, e) => true
  }

  lemma StepWrap(q: Queue, op: Op)
    requires Enabled(q, op) && Safe(q, op)
    ensures Enabled(Norm(q), NormOp(op))
    ensures Step(Wrap, Norm(q), NormOp(op)) == Norm(Step(Wide, q, op))
  {
    if op.Enq? || op.Deq? || op.SetBuddy? { NormLookup(q, op.e); }
    hide UpdateCurr, Enqueue, Dequeue, PutPrev, PickNext, SafeTick, SafeEnq, SafeDeq, SafePick, SafePut, OnRq;
    match op
    case Tick(now) => UpdateCurrWrap(q, now);
    case Enq(e, wakeup, waking, now) => EnqueueWrap(q, e, wakeup, waking, now);
    case Deq(e, sleep, now) => DequeueWrap(q, e, sleep, now);
    case Pick(prevFair, clock, tests) => PickNextWrap(q, prevFair, clock, tests);
    case Put(now) => PutPrevWrap(q, q.curr.value, now);
    case SetBuddy(which, e) =>
  }

  function NormOps(ops: seq<Op>): seq<Op> {
    seq(|ops|, i requires 0 <= i < |ops| => NormOp(ops[i]))
  }

  predicate SafeRun(q: Queue, ops: seq<Op>)
    requires Runs(Wide, q, ops)
    decreases ops
  {
    ops == [] || (Safe(q, ops[0]) && SafeRun(Step(Wide, q, ops[0]), ops[1..]))
  }

  /** Whole runs: the wrapping scheduler is the unbounded one modulo 2^64, insertion for insertion, pick for pick. */
  lemma {:induction false} RunWrap(q: Queue, ops: seq<Op>)
    requires Runs(Wide, q, ops) && SafeRun(q, ops)
    ensures Runs(Wrap, Norm(q), NormOps(ops))
    ensures After(Wrap, Norm(q), NormOps(ops)) == Norm(After(Wide, q, ops))
    decreases ops
  {
    hide Enabled, Safe, Step, Norm, NormOp;
    if ops != [] {
      StepWrap(q, ops[0]);
      RunWrap(Step(Wide, q, ops[0]), ops[1..]);
      assert NormOps(ops)[1..] == NormOps(ops[1..]);
    }
  }
}
