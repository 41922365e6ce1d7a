/**
 Weighted fairness of the 64-bit scheduler. A fair run keeps itself inside the window in which the 64-bit code is
 the unbounded one: all it needs is that the initial spread, the slices and the clock steps stay below 2^63.
 */
module CfsFairWindow {
  import opened Common
  import opened FixedPoint
  import opened Cfs
  import opened CfsTimeline
  import opened CfsRuns
  import opened CfsWrap
  import opened CfsWindow
  import opened CfsClock
  import opened CfsFairness

  /** The CPU time as the difference of two 64-bit counters, if the true one fits. */
  lemma ReceivedWrap(p: Queue, q: Queue, e: Id)
    requires 0 <= Received(q, p, e) < U64
    ensures Store(Wrap, Received(Norm(q), Norm(p), e)) == Received(q, p, e)
  {
    NormLookup(p, e);
    NormLookup(q, e);
    SumWrap(Ent(p, e).sumExec, Ent(q, e).sumExec);
    hide Norm, Ent;
  }

  // ----- a fair run stays inside the window

  /** min_vruntime is the least vruntime of all. */
  ghost predicate MinLeast(q: Queue) {
    && (exists e :: e in q.ents && Vr(q, e) == q.minVruntime)
    && (forall e :: e in q.ents ==> Vr(q, e) >= q.minVruntime)
  }

  predicate ClockFits(q: Queue, now: int) {
    q.curr.Some? ==> Fits64(now - Ent(q, q.curr.value).execStart)
  }

  predicate TickClocks(q: Queue, ticks: seq<int>)
    decreases ticks
  {
    ticks == [] || (ClockFits(q, ticks[0]) && TickClocks(UpdateCurr(Wide, q, ticks[0]), ticks[1..]))
  }

  predicate PickClocks(q: Queue, c: Clock) {
    ClockFits(q, c.now) && ClockFits(UpdateCurr(Wide, q, c.now), c.put)
  }

  /** Every clock reading is within 2^63 of the running entity's last one. */
  predicate PlayClocks(q: Queue, rounds: seq<Round>)
    decreases rounds
  {
    rounds == [] ||
    (&& TickClocks(q, rounds[0].ticks) && PickClocks(Ticks(q, rounds[0].ticks), rounds[0].clock)
     && PlayClocks(PlayRound(q, rounds[0]), rounds[1..]))
  }

  lemma TightWindow(q: Queue, b: int)
    requires Fair(q) && MinLeast(q) && Spread(q, b) && b < S63
    ensures Window(q)
  {
    LeftmostQueued(q);
    FairOn(q);
    var e :| e in q.ents && Vr(q, e) == q.minVruntime;
    assert forall x: Id :: x in OnSet(q) ==> x in q.ents;
    hide OnSet, Ok, Vr;
    assert forall x: Id :: x in OnSet(q) ==> Vr(q, x) - Vr(q, e) <= b;
  }

  /** A charge keeps min_vruntime the least and moves it no further than the charged entity. */
  lemma ChargeTight(q: Queue, now: int)
    requires Fair(q) && MinLeast(q)
    ensures var u := UpdateCurr(Wide, q, now);
            && MinLeast(u) && q.curr.Some?
            && u.minVruntime - q.minVruntime <= Vr(u, q.curr.value) - Vr(q, q.curr.value)
  {
    FairOn(q);
    var c, u := q.curr.value, UpdateCurr(Wide, q, now);
    ChargeOnly(q, now);
    if now > Ent(q, c).execStart {
      var x := Charged(Wide, q, c, now);
      ChargedLeast(q, x, u, now);
    }
  }

  lemma ChargeOnly(q: Queue, now: int)
    requires Fair(q)
    ensures var u := UpdateCurr(Wide, q, now); Fair(u) && u.curr == q.curr && OnlyCurr(q, u)
  {
    FairOn(q);
    var e := q.curr.value;
    hide Fair, Accounts, UpdateCurr, OnlyCurr;
    AccountsInitial(q, e);
    TickFair(q.ents[e], e, q, 0, now);
  }

  lemma ChargedLeast(q: Queue, x: Queue, u: Queue, now: int)
    requires Fair(q) && MinLeast(q) && q.curr.Some? && now > Ent(q, q.curr.value).execStart
    requires x == Charged(Wide, q, q.curr.value, now) && u == UpdateCurr(Wide, q, now) && Fair(u) && OnlyCurr(q, u)
    ensures MinLeast(u) && u.minVruntime - q.minVruntime <= Vr(u, q.curr.value) - Vr(q, q.curr.value)
  {
    var c := q.curr.value;
    FairOn(q);
    FairOn(u);
    LeftmostLeast(u);
    assert u == x.(minVruntime := MaxVr(Wide, q.minVruntime, Candidate(Wide, x)));
    SameVr(x, u);
    assert CurrOn(x) == CurrOn(u);
    var e0 :| e0 in q.ents && Vr(q, e0) == q.minVruntime;
    hide Ok, Charged, UpdateCurr, OnSet, Vr, OnRq;
    assert Vr(u, e0) >= u.minVruntime;
  }

  /** The setting of a round that began in `q0`: `q` is a state on the way to `p`, whose slice is within `b`. */
  ghost predicate Midway(q0: Queue, q: Queue, p: Queue, b: int) {
    && q0.curr.Some? && Least(q0) && Spread(q0, b) && b < S63 && q0.curr.value in q0.ents
    && q.curr == q0.curr && Fair(q) && MinLeast(q) && OnlyCurr(q0, q) && OnlyCurr(q, p)
    && Vr(p, q0.curr.value) - Vr(q0, q0.curr.value) <= b
  }

  /** On the way, the spread is within the bound, and so is what is left of the slice. */
  lemma MidwaySpread(q0: Queue, q: Queue, p: Queue, b: int)
    requires Midway(q0, q, p, b)
    ensures Spread(q, b) && Window(q) && Vr(p, q.curr.value) - Vr(q, q.curr.value) <= b
  {
    hide Fair, Vr, MinLeast, Window, Spread, Least;
    RoundSpread(q0, q, b);
    TightWindow(q, b);
  }

  lemma MidwayCharge(q0: Queue, q: Queue, p: Queue, b: int, now: int)
    requires Midway(q0, q, p, b) && OnlyCurr(UpdateCurr(Wide, q, now), p)
    ensures Midway(q0, UpdateCurr(Wide, q, now), p, b)
  {
    hide Fair, Vr, MinLeast, OnlyCurr, UpdateCurr, Least, Spread;
    ChargeOnly(q, now);
    ChargeTight(q, now);
    OnlyCurrTrans(q0, q, UpdateCurr(Wide, q, now));
  }

  lemma CurrBound(q: Queue, u: Queue, p: Queue)
    requires OnlyCurr(u, p) && u.curr.Some? && u.curr == q.curr
    ensures Vr(u, q.curr.value) <= Vr(p, q.curr.value)
  {
  }

  lemma TickSteady(q0: Queue, q: Queue, p: Queue, b: int, now: int)
    requires Midway(q0, q, p, b) && OnlyCurr(UpdateCurr(Wide, q, now), p) && ClockFits(q, now)
    ensures Enabled(q, Tick(now)) && Steady(q, Tick(now)) && Midway(q0, UpdateCurr(Wide, q, now), p, b)
    ensures Step(Wide, q, Tick(now)) == UpdateCurr(Wide, q, now)
  {
    hide Vr, UpdateCurr, Window, MinLeast, Fair, Spread, OnlyCurr, Least;
    var u := UpdateCurr(Wide, q, now);
    MidwayCharge(q0, q, p, b, now);
    MidwaySpread(q0, u, p, b);
    MidwaySpread(q0, q, p, b);
    ChargeTight(q, now);
    CurrBound(q, u, p);
  }

  /** Putting the running entity back and picking another changes no vruntime after the charge. */
  lemma SwitchedSame(q: Queue, c: Clock, t: Tests)
    requires Fair(q) && MinLeast(UpdateCurr(Wide, q, c.put))
    ensures var u, p := UpdateCurr(Wide, q, c.put), PickFresh(Wide, PutPrev(Wide, q, q.curr.value, c.put), c, t).q;
            && Fair(p) && MinLeast(p) && OnlyCurr(q, p) && OnlyCurr(u, p) && p.minVruntime == u.minVruntime
            && forall y :: y in u.ents ==> Vr(p, y) == Vr(u, y)
  {
    FairOn(q);
    var e, u, v := q.curr.value, UpdateCurr(Wide, q, c.put), PutPrev(Wide, q, q.curr.value, c.put);
    ChargeOnly(q, c.put);
    FairOn(u);
    PutMin(q, e, c.put);
    FreshMin(v, c, t);
    PutIs(q, c.put);
    PutPrevOk(q, c.put);
    PutBuddies(q, c.put);
    AccountsInitial(u, e);
    hide UpdateCurr, PutPrev, PickFresh, Ok, Account, OnRq, Kept, OnSet;
    FreshLeast(u.ents[e], e, u, v, 0, c, t);
    var p := PickFresh(Wide, v, c, t).q;
    SameLeast(u, p);
    OnlyCurrTrans(q, u, p);
  }

  lemma PutBuddies(q: Queue, now: int)
    requires Fair(q)
    ensures var v := PutPrev(Wide, q, q.curr.value, now); v.next.None? && v.last.None? && v.skip.None?
  {
    hide UpdateCurr;
    PutPrevOk(q, now);
  }

  lemma SameLeast(u: Queue, p: Queue)
    requires MinLeast(u) && p.ents.Keys == u.ents.Keys && p.minVruntime == u.minVruntime
    requires forall y :: y in u.ents ==> Vr(p, y) == Vr(u, y)
    requires u.curr.Some? && u.curr.value in u.ents
    ensures MinLeast(p) && OnlyCurr(u, p)
  {
    hide Vr;
    var e :| e in u.ents && Vr(u, e) == u.minVruntime;
    assert e in p.ents && Vr(p, e) == p.minVruntime;
  }

  /** A pick that puts the running entity back. */
  lemma SwitchSteady(q0: Queue, q: Queue, b: int, c: Clock, t: Tests)
    requires q.curr.Some?
    requires var p := PickFresh(Wide, PutPrev(Wide, q, q.curr.value, c.put), c, t).q; Midway(q0, q, p, b)
    ensures var u, p := UpdateCurr(Wide, q, c.put), PickFresh(Wide, PutPrev(Wide, q, q.curr.value, c.put), c, t).q;
            && Window(u) && Window(p) && MinLeast(p)
            && p.minVruntime - q.minVruntime <= Vr(p, q.curr.value) - Vr(q, q.curr.value)
  {
    hide Vr, UpdateCurr, PutPrev, PickFresh, Window, MinLeast, Fair, Spread, OnlyCurr, Least;
    var e, u, p := q.curr.value, UpdateCurr(Wide, q, c.put), PickFresh(Wide, PutPrev(Wide, q, q.curr.value, c.put), c, t).q;
    ChargeTight(q, c.put);
    SwitchedSame(q, c, t);
    MidwayCharge(q0, q, p, b, c.put);
    MidwaySpread(q0, u, p, b);
    FairOn(u);
    OnlyCurrTrans(q0, q, p);
    RoundSpread(q0, p, b);
    TightWindow(p, b);
  }

  lemma PickSteady(q0: Queue, q: Queue, b: int, c: Clock, t: Tests)
    requires var p := PickNext(Wide, q, true, c, t).q; Midway(q0, q, p, b) && PickClocks(q, c)
    requires OnlyCurr(UpdateCurr(Wide, q, c.now), PickNext(Wide, q, true, c, t).q)
    ensures Enabled(q, Pick(true, c, t)) && Steady(q, Pick(true, c, t)) && MinLeast(PickNext(Wide, q, true, c, t).q)
  {
    hide Vr, UpdateCurr, PutPrev, PickFresh, Window, MinLeast, Fair, Spread, OnlyCurr, Least, Retains, OnRq;
    var p, u := PickNext(Wide, q, true, c, t).q, UpdateCurr(Wide, q, c.now);
    FairOn(q);
    MidwayCharge(q0, q, p, b, c.now);
    MidwaySpread(q0, u, p, b);
    MidwaySpread(q0, q, p, b);
    ChargeTight(q, c.now);
    CurrBound(q, u, p);
    if !Retains(Wide, u, q.curr.value) { SwitchSteady(q0, u, b, c, t); }
  }

  /** After a charge the rest of the round still moves the running entity only. */
  lemma AfterTick(q: Queue, now: int, r: Round)
    requires Fair(q)
    ensures OnlyCurr(UpdateCurr(Wide, q, now), PlayRound(UpdateCurr(Wide, q, now), r))
  {
    ChargeOnly(q, now);
    var u := UpdateCurr(Wide, q, now);
    FairOn(u);
    var e := u.curr.value;
    hide Fair, Accounts, UpdateCurr, PlayRound, Least, OnlyCurr;
    AccountsInitial(u, e);
    RoundFair(u.ents[e], e, u, 0, r);
  }

  lemma AfterPickCharge(q: Queue, c: Clock, t: Tests)
    requires Fair(q)
    ensures OnlyCurr(UpdateCurr(Wide, q, c.now), PickNext(Wide, q, true, c, t).q)
  {
    var u := UpdateCurr(Wide, q, c.now);
    FairOn(q);
    ChargeOnly(q, c.now);
    FairOn(u);
    var e := u.curr.value;
    OnlyCurrRefl(u);
    hide Fair, Accounts, UpdateCurr, Least, OnlyCurr, PutPrev, PickFresh, Retains, OnRq;
    AccountsInitial(u, e);
    SwitchedLeast(u.ents[e], e, u, 0, c, t);
  }

  /** A whole round, from any state on the way. */
  lemma {:induction false} RoundSteady(q0: Queue, q: Queue, r: Round, b: int)
    requires Midway(q0, q, PlayRound(q, r), b)
    requires TickClocks(q, r.ticks) && PickClocks(Ticks(q, r.ticks), r.clock)
    ensures Runs(Wide, q, RoundOps(r)) && SteadyRun(q, RoundOps(r)) && MinLeast(PlayRound(q, r))
    decreases r.ticks
  {
    hide Midway, Steady, Enabled, Step, PickNext, UpdateCurr, MinLeast, OnlyCurr;
    if r.ticks == [] {
      MidwayFair(q0, q, PlayRound(q, r), b);
      AfterPickCharge(q, r.clock, r.tests);
      PickSteady(q0, q, b, r.clock, r.tests);
      assert RoundOps(r) == [Pick(true, r.clock, r.tests)];
      SteadyOne(q, Pick(true, r.clock, r.tests));
    } else {
      var u, s := UpdateCurr(Wide, q, r.ticks[0]), r.(ticks := r.ticks[1..]);
      MidwayFair(q0, q, PlayRound(q, r), b);
      AfterTick(q, r.ticks[0], s);
      TickSteady(q0, q, PlayRound(u, s), b, r.ticks[0]);
      RoundSteady(q0, u, s, b);
      SteadyOne(q, Tick(r.ticks[0]));
      RunOne(q, Tick(r.ticks[0]));
      SteadyConcat(q, [Tick(r.ticks[0])], RoundOps(s));
      assert RoundOps(r) == [Tick(r.ticks[0])] + RoundOps(s);
    }
  }

  lemma MidwayFair(q0: Queue, q: Queue, p: Queue, b: int)
    requires Midway(q0, q, p, b)
    ensures Fair(q)
  {
  }

  lemma RoundStarts(q: Queue, r: Round, s: int, b: int)
    requires Fair(q) && Least(q) && MinLeast(q) && Spread(q, b) && s <= b < S63
    requires q.curr.Some? && Vr(PlayRound(q, r), q.curr.value) - Vr(q, q.curr.value) <= s
    ensures Midway(q, q, PlayRound(q, r), b)
    ensures Fair(PlayRound(q, r)) && Least(PlayRound(q, r)) && Spread(PlayRound(q, r), b)
  {
    FairOn(q);
    var e := q.curr.value;
    OnlyCurrRefl(q);
    hide Fair, Least, MinLeast, Spread, Vr, OnlyCurr, Accounts, PlayRound;
    AccountsInitial(q, e);
    RoundFair(q.ents[e], e, q, 0, r);
    RoundSpread(q, PlayRound(q, r), b);
  }

  /** A fair run whose spread, slices and clock steps stay below 2^63 never leaves the window. */
  lemma {:induction false} PlaySteady(q: Queue, rounds: seq<Round>, s: int, b: int)
    requires Fair(q) && Least(q) && MinLeast(q) && Spread(q, b) && SlicesWithin(q, rounds, s) && s <= b < S63
    requires PlayClocks(q, rounds)
    ensures Runs(Wide, q, PlayOps(rounds)) && SteadyRun(q, PlayOps(rounds))
    decreases rounds
  {
    if rounds != [] {
      hide Fair, Least, MinLeast, Spread, Vr, OnlyCurr, PlayRound, Runs, After, SteadyRun, RoundOps, TickClocks, PickClocks;
      var p := PlayRound(q, rounds[0]);
      RoundStarts(q, rounds[0], s, b);
      RoundSteady(q, q, rounds[0], b);
      RoundStays(q, rounds[0]);
      RoundRun(q, rounds[0]);
      PlaySteady(p, rounds[1..], s, b);
      SteadyConcat(q, RoundOps(rounds[0]), PlayOps(rounds[1..]));
    }
  }

  /**
   Weighted fairness of the kernel's own arithmetic. If the run starts with min_vruntime the least vruntime, and
   the initial spread, the slices and the clock steps stay below 2^63, then the 64-bit vruntimes, compared by
   signed difference, stay within the same spread for ever, and the CPU times the 64-bit counters report, as long
   as they fit, are the times on the stopwatch and satisfy the same bound.
   */
  lemma WrappedFairness(q: Queue, rounds: seq<Round>, i: int, s: int, e: Id, f: Id)
    requires Fair(q) && Least(q) && MinLeast(q) && Spread(q, i) && SlicesWithin(q, rounds, s) && Larger(i, s) < S63
    requires PlayClocks(q, rounds) && e in q.ents && f in q.ents
    requires Received(q, Play(q, rounds), e) < U64 && Received(q, Play(q, rounds), f) < U64
    ensures Runs(Wrap, Norm(q), NormOps(PlayOps(rounds)))
    ensures var w := After(Wrap, Norm(q), NormOps(PlayOps(rounds)));
            var d, g := Store(Wrap, Received(Norm(q), w, e)), Store(Wrap, Received(Norm(q), w, f));
            && Diff(Wrap, Vr(w, e), Vr(w, f)) <= Larger(i, s)
            && Runs(Wide, q, PlayOps(rounds)) && d == CpuTime(q, PlayOps(rounds), e, Mark(q))
            && Lead(q, e, f, d, g) <= (i + Larger(i, s)) as real + Rounding(Charges(q, rounds, e), d)
  {
    var p := Play(q, rounds);
    FairOk(q);
    SpreadMore(q, i, Larger(i, s));
    hide Fair, Least, MinLeast, SlicesWithin, PlayClocks, Charges, Runs, SteadyRun, After, PlayOps, Play, Norm, NormOps,
      CpuTime, Mark, Received, Lead, Rounding, Ok;
    PlaySteady(q, rounds, s, Larger(i, s));
    PlayRuns(q, rounds);
    WindowRun(q, PlayOps(rounds));
    WeightedFairness(q, rounds, i, s, e, f);
    assert Vr(p, e) - Vr(p, f) <= Larger(i, s) && Vr(p, f) - Vr(p, e) <= Larger(i, s);
    hide Spread, Diff;
    DiffWrap(Vr(p, e), Vr(p, f));
    NormLookup(p, e);
    NormLookup(p, f);
    ReceivedWrap(p, q, e);
    ReceivedWrap(p, q, f);
  }
}
