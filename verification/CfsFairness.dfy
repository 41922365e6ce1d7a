/** Weighted fairness over unbounded runs of a fixed set of always-queued entities. */
module CfsFairness {
  import opened Common
  import opened FixedPoint
  import opened Cfs
  import opened CfsTimeline
  import opened CfsRuns
  import opened CfsClock

  /** Everything is queued, one entity runs, no buddies are set, and every weight is in range. */
  ghost predicate Fair(q: Queue) {
    && Ok(q) && q.curr.Some? && q.next.None? && q.last.None? && q.skip.None?
    && forall e :: e in q.ents ==> q.ents[e].onRq && 1 <= q.ents[e].weight < WMULT_CONST
  }

  /** The running entity is one of those with the least vruntime. */
  ghost predicate Least(q: Queue) {
    q.curr.Some? && forall e :: e in q.ents ==> Vr(q, q.curr.value) <= Vr(q, e)
  }

  ghost predicate Spread(q: Queue, s: int) {
    forall e, f :: e in q.ents && f in q.ents ==> Vr(q, e) - Vr(q, f) <= s
  }

  /** Between two picks: any number of ticks, then pick_next_task_fair. */
  datatype Round = Round(ticks: seq<int>, clock: Clock, tests: Tests)

  function PlayRound(q: Queue, r: Round): Queue {
    PickNext(Wide, Ticks(q, r.ticks), true, r.clock, r.tests).q
  }

  function Play(q: Queue, rounds: seq<Round>): Queue
    decreases rounds
  {
    if rounds == [] then q else Play(PlayRound(q, rounds[0]), rounds[1..])
  }

  /** How often `e` may have been charged: each tick while it runs, and twice inside the pick that follows. */
  function Charges(q: Queue, rounds: seq<Round>, e: Id): nat
    decreases rounds
  {
    if rounds == [] then 0
    else Slice(q, e, |rounds[0].ticks| + 2) + Charges(PlayRound(q, rounds[0]), rounds[1..], e)
  }

  function Slice(q: Queue, e: Id, k: nat): nat {
    if q.curr == Some(e) then k else 0
  }

  /** No slice between two picks charges the running entity more than `s`. */
  ghost predicate SlicesWithin(q: Queue, rounds: seq<Round>, s: int)
    decreases rounds
  {
    rounds == [] ||
    (var p := PlayRound(q, rounds[0]);
     && q.curr.Some? && Vr(p, q.curr.value) - Vr(q, q.curr.value) <= s
     && SlicesWithin(p, rounds[1..], s))
  }

  // ----- what charging does to an entity

  /** `x` was charged at most `n` times, for `y`'s extra CPU time, within the rounding of the charge. */
  ghost predicate Account(x: Entity, y: Entity, n: nat) {
    && y.weight == x.weight && 1 <= x.weight < WMULT_CONST && y.onRq == x.onRq
    && y.sumExec >= x.sumExec && y.vruntime >= x.vruntime
    && var d := y.sumExec - x.sumExec;
       0.0 <= Scaled(d, x.weight) - (y.vruntime - x.vruntime) as real <= n as real + d as real / UNIT as real
  }

  /** CPU time scaled by 1024 over the weight. */
  function Scaled(d: int, w: nat): real
    requires w >= 1
  {
    (d * NICE_0_LOAD) as real / w as real
  }

  lemma ScaledAdd(a: int, b: int, w: nat)
    requires w >= 1
    ensures Scaled(a + b, w) == Scaled(a, w) + Scaled(b, w)
  {
    var x, y, z := (a * NICE_0_LOAD) as real, (b * NICE_0_LOAD) as real, w as real;
    assert ((a + b) * NICE_0_LOAD) as real == x + y;
    assert (x + y) / z == x / z + y / z;
  }

  lemma AccountCharge(x: Entity, y: Entity, n: nat, now: int, delta: nat)
    requires Account(x, y, n)
    ensures Account(x, ChargedEnt(Wide, y, now, delta), n + 1)
  {
    var d := y.sumExec - x.sumExec;
    ChargeError(delta, x.weight);
    ScaledAdd(d, delta, x.weight);
    assert (d + delta) as real / UNIT as real == d as real / UNIT as real + delta as real / UNIT as real;
    hide Charge;
  }

  lemma AccountMore(x: Entity, y: Entity, n: nat, m: nat)
    requires Account(x, y, n) && n <= m
    ensures Account(x, y, m)
  {
  }

  /** The account of `e`, since it was `x`. */
  ghost predicate Accounts(x: Entity, e: Id, q: Queue, n: nat) {
    e in q.ents && Account(x, q.ents[e], n)
  }

  lemma AccountsTick(x: Entity, e: Id, q: Queue, n: nat, now: int)
    requires Accounts(x, e, q, n)
    ensures Accounts(x, e, UpdateCurr(Wide, q, now), n + Slice(q, e, 1))
  {
    hide Account, Candidate, ChargedEnt, MaxVr;
    AccountMore(x, q.ents[e], n, n + 1);
    var delta := now - q.ents[e].execStart;
    if delta > 0 { AccountCharge(x, q.ents[e], n, now, delta); }
  }

  lemma AccountsSame(x: Entity, e: Id, q: Queue, r: Queue, n: nat)
    requires Accounts(x, e, q, n) && e in r.ents && r.ents[e] == q.ents[e].(execStart := r.ents[e].execStart)
    ensures Accounts(x, e, r, n)
  {
  }

  lemma AccountsInitial(q: Queue, e: Id)
    requires Fair(q) && e in q.ents
    ensures Accounts(q.ents[e], e, q, 0)
  {
    assert Scaled(0, q.ents[e].weight) == 0.0;
  }

  // ----- one round

  /** Only the running entity's vruntime has moved, and not down. */
  ghost predicate OnlyCurr(q: Queue, r: Queue) {
    && r.ents.Keys == q.ents.Keys
    && (forall e :: e in q.ents && q.curr != Some(e) ==> Vr(r, e) == Vr(q, e))
    && (q.curr.Some? ==> Vr(r, q.curr.value) >= Vr(q, q.curr.value))
  }

  lemma OnlyCurrTrans(q: Queue, r: Queue, p: Queue)
    requires OnlyCurr(q, r) && OnlyCurr(r, p) && r.curr == q.curr
    ensures OnlyCurr(q, p)
  {
    hide Vr;
  }

  lemma OnlyCurrRefl(q: Queue)
    ensures OnlyCurr(q, q)
  {
  }

  /** Ticks charge the running entity only. */
  lemma {:induction false} TicksFair(x: Entity, e: Id, q: Queue, n: nat, ticks: seq<int>)
    requires Fair(q) && Accounts(x, e, q, n)
    ensures var r := Ticks(q, ticks);
            && Fair(r) && Accounts(x, e, r, n + Slice(q, e, |ticks|)) && r.curr == q.curr && OnlyCurr(q, r)
    decreases ticks
  {
    hide Fair, Accounts, UpdateCurr, OnlyCurr;
    OnlyCurrRefl(q);
    if ticks != [] {
      var r := UpdateCurr(Wide, q, ticks[0]);
      TickFair(x, e, q, n, ticks[0]);
      TicksFair(x, e, r, n + Slice(q, e, 1), ticks[1..]);
      OnlyCurrTrans(q, r, Ticks(r, ticks[1..]));
    }
  }

  lemma TickFair(x: Entity, e: Id, q: Queue, n: nat, now: int)
    requires Fair(q) && Accounts(x, e, q, n)
    ensures var r := UpdateCurr(Wide, q, now);
            && Fair(r) && Accounts(x, e, r, n + Slice(q, e, 1)) && r.curr == q.curr && OnlyCurr(q, r)
  {
    var r := UpdateCurr(Wide, q, now);
    TickOk(q, now);
    AccountsTick(x, e, q, n, now);
    hide Ok, Account, Candidate, MaxVr, Charge;
    assert r.ents.Keys == q.ents.Keys;
    assert forall e :: e in r.ents ==> r.ents[e].onRq == q.ents[e].onRq && r.ents[e].weight == q.ents[e].weight;
  }

  lemma LeftmostLeast(q: Queue)
    requires Ok(q)
    ensures q.leftmost.Some? ==> q.leftmost.value in q.ents
    ensures q.leftmost.Some? ==>
              forall e: Id :: e in OnSet(q) && q.curr != Some(e) ==> Vr(q, q.leftmost.value) <= Vr(q, e)
    ensures q.leftmost.None? ==> forall e: Id :: e in OnSet(q) ==> q.curr == Some(e)
  {
    hide Vr;
    forall e: Id | e in OnSet(q) && q.curr != Some(e)
      ensures q.leftmost.Some? && Vr(q, q.leftmost.value) <= Vr(q, e)
    {
      assert e in OnSet(q) - CurrSet(q);
      assert e in q.timeline;
      var i :| 0 <= i < |q.timeline| && q.timeline[i] == e;
    }
    if q.leftmost.Some? { assert q.timeline[0] in q.timeline; }
  }

  /** Keeping the previous task: it is still one of the least. */
  lemma RetainedLeast(q: Queue)
    requires Fair(q) && q.leftmost.Some? && Key(Wide, q, q.curr.value) <= Key(Wide, q, q.leftmost.value)
    ensures Least(q)
  {
    LeftmostLeast(q);
    FairOn(q);
    hide Vr, Ok, OnSet;
  }

  lemma FairOn(q: Queue)
    requires Fair(q)
    ensures forall e :: e in q.ents ==> e in OnSet(q)
    ensures q.curr.Some? && q.curr.value in q.ents && q.nrRunning > 0 && OnRq(q, q.curr.value)
  {
    assert q.curr.value in OnSet(q);
  }

  /** Putting the previous task back and picking the leftmost: the new running entity is one of the least. */
  lemma SwitchedLeast(x: Entity, e: Id, q: Queue, n: nat, c: Clock, t: Tests)
    requires Fair(q) && Accounts(x, e, q, n)
    ensures var r := PickFresh(Wide, PutPrev(Wide, q, q.curr.value, c.put), c, t).q;
            && Fair(r) && Least(r) && Accounts(x, e, r, n + Slice(q, e, 1)) && OnlyCurr(q, r)
  {
    var q1 := UpdateCurr(Wide, q, c.put);
    TickFair(x, e, q, n, c.put);
    FairOn(q);
    FairOn(q1);
    var q2 := PutPrev(Wide, q, q.curr.value, c.put);
    PutIs(q, c.put);
    PutPrevOk(q, c.put);
    FreshLeast(x, e, q1, q2, n + Slice(q, e, 1), c, t);
  }

  lemma PutIs(q: Queue, now: int)
    requires Fair(q)
    ensures PutPrev(Wide, q, q.curr.value, now).ents == UpdateCurr(Wide, q, now).ents
  {
    FairOn(q);
    hide UpdateCurr, Link, Ok;
    LinkFrame(UpdateCurr(Wide, q, now), q.curr.value);
  }

  lemma FreshLeast(x: Entity, e: Id, q1: Queue, q2: Queue, n: nat, c: Clock, t: Tests)
    requires Fair(q1) && Accounts(x, e, q1, n)
    requires Ok(q2) && q2.curr.None? && q2.ents == q1.ents && q2.next.None? && q2.last.None? && q2.skip.None?
    ensures var r := PickFresh(Wide, q2, c, t).q;
            && Fair(r) && Least(r) && Accounts(x, e, r, n) && r.ents.Keys == q1.ents.Keys
            && forall y :: y in q1.ents ==> Vr(r, y) == Vr(q1, y)
  {
    FairOn(q1);
    PickFreshOk(q2, c, t);
    ChosenQueued(q2, t);
    LeftmostLeast(q2);
    assert OnSet(q2) == OnSet(q1);
    SameVr(q1, q2);
    var r := PickFresh(Wide, q2, c, t).q;
    FreshEnts(q2, c, t, q2.leftmost.value);
    AccountsSame(x, e, q1, r, n);
    hide Ok, Account, Chosen, PickFresh, OnSet, Kept;
  }

  lemma FreshEnts(q: Queue, c: Clock, t: Tests, e: Id)
    requires Chosen(q, t) == Some(e) && e in q.ents
    ensures var r := PickFresh(Wide, q, c, t).q;
            && r.ents == q.ents[e := q.ents[e].(execStart := c.set_)]
            && r.next == ClearBuddies(q, e).next && r.last == ClearBuddies(q, e).last && r.skip == ClearBuddies(q, e).skip
            && r.curr == Some(e)
  {
    hide Chosen, Without, Successor;
  }

  /** One round keeps the setting, leaves all but the running entity's vruntime alone, and ends on a least one. */
  lemma RoundFair(x: Entity, e: Id, q: Queue, n: nat, r: Round)
    requires Fair(q) && Accounts(x, e, q, n)
    ensures var p := PlayRound(q, r);
            && Fair(p) && Least(p) && Accounts(x, e, p, n + Slice(q, e, |r.ticks| + 2)) && OnlyCurr(q, p)
  {
    hide Fair, UpdateCurr, PutPrev, PickFresh, Ticks, Accounts, Vr, OnlyCurr, OnRq, Key;
    TicksFair(x, e, q, n, r.ticks);
    var q1 := Ticks(q, r.ticks);
    var m, k := n + Slice(q, e, |r.ticks|), Slice(q, e, 1);
    TickFair(x, e, q1, m, r.clock.now);
    var q2 := UpdateCurr(Wide, q1, r.clock.now);
    OnlyCurrTrans(q, q1, q2);
    FairOn(q1);
    FairOn(q2);
    FairCurr(q);
    if q2.leftmost.Some? && Key(Wide, q2, q.curr.value) <= Key(Wide, q2, q2.leftmost.value) {
      RetainedLeast(q2);
      AccountsMore(x, e, q2, m + k, m + k + k);
    } else {
      SwitchedLeast(x, e, q2, m + k, r.clock, r.tests);
      OnlyCurrTrans(q, q2, PickFresh(Wide, PutPrev(Wide, q2, q.curr.value, r.clock.put), r.clock, r.tests).q);
    }
  }

  lemma FairCurr(q: Queue)
    requires Fair(q)
    ensures q.curr.Some?
  {
  }

  lemma AccountsMore(x: Entity, e: Id, q: Queue, n: nat, m: nat)
    requires Accounts(x, e, q, n) && n <= m
    ensures Accounts(x, e, q, m)
  {
  }

  /** The spread never exceeds the larger of what it was and the slice just charged. */
  lemma RoundSpread(q: Queue, p: Queue, s: int)
    requires q.curr.Some? && q.curr.value in q.ents && Least(q) && Spread(q, s) && OnlyCurr(q, p)
    requires Vr(p, q.curr.value) - Vr(q, q.curr.value) <= s
    ensures Spread(p, s)
  {
    hide Vr;
    var c := q.curr.value;
    forall e, f | e in p.ents && f in p.ents
      ensures Vr(p, e) - Vr(p, f) <= s
    {
      assert Vr(q, c) <= Vr(q, f) && Vr(q, e) - Vr(q, f) <= s;
    }
  }

  lemma {:induction false} PlayFair(x: Entity, e: Id, q: Queue, n: nat, rounds: seq<Round>, s: int, b: int)
    requires Fair(q) && Least(q) && Spread(q, b) && Accounts(x, e, q, n) && SlicesWithin(q, rounds, s) && s <= b
    ensures var p := Play(q, rounds);
            Fair(p) && Least(p) && Spread(p, b) && Accounts(x, e, p, n + Charges(q, rounds, e))
    decreases rounds
  {
    hide Fair, Least, Spread, Accounts, PlayRound, Vr, OnlyCurr;
    if rounds != [] {
      RoundFair(x, e, q, n, rounds[0]);
      FairOn(q);
      var p := PlayRound(q, rounds[0]);
      RoundSpread(q, p, b);
      PlayFair(x, e, p, n + Slice(q, e, |rounds[0].ticks| + 2), rounds[1..], s, b);
    }
  }

  function Larger(a: int, b: int): int {
    if a < b then b else a
  }

  // ----- rounds as operations

  function TickOps(ticks: seq<int>): seq<Op> {
    if ticks == [] then [] else [Tick(ticks[0])] + TickOps(ticks[1..])
  }

  /** The rounds as operations of the run queue. */
  function RoundOps(r: Round): seq<Op> {
    TickOps(r.ticks) + [Pick(true, r.clock, r.tests)]
  }

  function PlayOps(rounds: seq<Round>): seq<Op> {
    if rounds == [] then [] else RoundOps(rounds[0]) + PlayOps(rounds[1..])
  }

  lemma {:induction false} TicksRun(q: Queue, ticks: seq<int>)
    ensures Runs(Wide, q, TickOps(ticks)) && After(Wide, q, TickOps(ticks)) == Ticks(q, ticks)
    decreases ticks
  {
    hide UpdateCurr;
    if ticks != [] {
      TicksRun(UpdateCurr(Wide, q, ticks[0]), ticks[1..]);
      assert TickOps(ticks)[1..] == TickOps(ticks[1..]);
    }
  }

  lemma RoundRun(q: Queue, r: Round)
    requires Ticks(q, r.ticks).curr.Some?
    ensures Runs(Wide, q, RoundOps(r)) && After(Wide, q, RoundOps(r)) == PlayRound(q, r)
  {
    hide Ticks, TickOps, PickNext, Runs, After;
    TicksRun(q, r.ticks);
    RunOne(Ticks(q, r.ticks), Pick(true, r.clock, r.tests));
    RunConcat(q, TickOps(r.ticks), [Pick(true, r.clock, r.tests)]);
  }

  lemma RoundStays(q: Queue, r: Round)
    requires Fair(q)
    ensures Ticks(q, r.ticks).curr.Some? && Fair(PlayRound(q, r))
  {
    FairOn(q);
    var e := q.curr.value;
    hide Fair, Accounts, Ticks, PlayRound, Least, OnlyCurr;
    AccountsInitial(q, e);
    TicksFair(q.ents[e], e, q, 0, r.ticks);
    RoundFair(q.ents[e], e, q, 0, r);
  }

  lemma {:induction false} PlayRuns(q: Queue, rounds: seq<Round>)
    requires Fair(q)
    ensures Runs(Wide, q, PlayOps(rounds)) && After(Wide, q, PlayOps(rounds)) == Play(q, rounds)
    decreases rounds
  {
    if rounds != [] {
      hide Fair, Runs, After, PlayRound, RoundOps, Ticks;
      RoundStays(q, rounds[0]);
      RoundRun(q, rounds[0]);
      PlayRuns(PlayRound(q, rounds[0]), rounds[1..]);
      RunConcat(q, RoundOps(rounds[0]), PlayOps(rounds[1..]));
    }
  }

  // ----- fairness

  /** What `n` charges for `d` of CPU time may round away: less than 1 + delta / 2^22 each. */
  function Rounding(n: nat, d: int): real {
    n as real + d as real / UNIT as real
  }

  /** How far the weighted CPU time `e` received is ahead of what `f` received. */
  function Lead(q: Queue, e: Id, f: Id, d: int, g: int): real
    requires Ent(q, e).weight >= 1 && Ent(q, f).weight >= 1
  {
    Scaled(d, Ent(q, e).weight) - Scaled(g, Ent(q, f).weight)
  }

  /**
   Weighted fairness: however long the run, the spread of vruntimes stays within the larger of the initial
   spread `i` and the largest slice `s`, and the CPU times any two entities received, each scaled by 1024 over
   its weight, differ by at most the initial and any final spread plus the rounding of the charges of the one
   ahead. The CPU time is the time on the stopwatch.
   */
  lemma WeightedFairness(q: Queue, rounds: seq<Round>, i: int, s: int, e: Id, f: Id)
    requires Fair(q) && Least(q) && Spread(q, i) && SlicesWithin(q, rounds, s) && e in q.ents && f in q.ents
    ensures Fair(Play(q, rounds)) && Spread(Play(q, rounds), Larger(i, s)) && Runs(Wide, q, PlayOps(rounds))
    ensures var p := Play(q, rounds); var d, g := Received(q, p, e), Received(q, p, f);
            && e in p.ents && f in p.ents && d >= 0 && g >= 0
            && d == CpuTime(q, PlayOps(rounds), e, Mark(q)) && g == CpuTime(q, PlayOps(rounds), f, Mark(q))
            && forall t: int :: Spread(p, t) ==>
                 Lead(q, e, f, d, g) <= (i + t) as real + Rounding(Charges(q, rounds, e), d)
  {
    FairOk(q);
    hide Fair, Ok, Least, Spread, SlicesWithin, Play, PlayOps, Runs, After, CpuTime, Charges, Accounts, Received, Lead, Rounding;
    var p := Play(q, rounds);
    PlayRuns(q, rounds);
    RunClock(q, PlayOps(rounds), e, Mark(q));
    RunClock(q, PlayOps(rounds), f, Mark(q));
    PlayAccount(q, rounds, i, s, e);
    PlayAccount(q, rounds, i, s, f);
    forall t: int | Spread(p, t)
      ensures var d, g := Received(q, p, e), Received(q, p, f);
              Lead(q, e, f, d, g) <= (i + t) as real + Rounding(Charges(q, rounds, e), d)
    {
      LeadBound(q, p, e, f, Charges(q, rounds, e), Charges(q, rounds, f), i, t);
    }
  }

  /** One entity's account over the whole run. */
  lemma PlayAccount(q: Queue, rounds: seq<Round>, i: int, s: int, e: Id)
    requires Fair(q) && Least(q) && Spread(q, i) && SlicesWithin(q, rounds, s) && e in q.ents
    ensures var p := Play(q, rounds);
            && Fair(p) && Spread(p, Larger(i, s)) && e in p.ents && Received(q, p, e) >= 0
            && Accounts(q.ents[e], e, p, Charges(q, rounds, e)) && 1 <= Ent(q, e).weight
  {
    hide Fair, Least, Spread, SlicesWithin, Play, Charges, Account;
    AccountsInitial(q, e);
    SpreadMore(q, i, Larger(i, s));
    PlayFair(q.ents[e], e, q, 0, rounds, s, Larger(i, s));
    Grown(q.ents[e], Play(q, rounds).ents[e], Charges(q, rounds, e));
  }

  lemma Grown(x: Entity, y: Entity, n: nat)
    requires Account(x, y, n)
    ensures y.sumExec >= x.sumExec && x.weight >= 1
  {
    hide Scaled;
  }

  lemma SpreadMore(q: Queue, i: int, b: int)
    requires Spread(q, i) && i <= b
    ensures Spread(q, b)
  {
  }

  lemma LeadBound(q: Queue, p: Queue, e: Id, f: Id, n: nat, m: nat, i: int, t: int)
    requires e in q.ents && f in q.ents && Accounts(q.ents[e], e, p, n) && Accounts(q.ents[f], f, p, m)
    requires Spread(q, i) && Spread(p, t)
    ensures var d, g := Received(q, p, e), Received(q, p, f);
            && Ent(q, e).weight >= 1 && Ent(q, f).weight >= 1
            && Lead(q, e, f, d, g) <= (i + t) as real + Rounding(n, d)
  {
    hide Scaled;
    assert Vr(p, e) - Vr(p, f) <= t && Vr(q, f) - Vr(q, e) <= i;
    Compare(q.ents[e], p.ents[e], q.ents[f], p.ents[f], n, m, i, t);
  }

  /** Two accounts whose vruntimes start within `i` and end within `t` of each other. */
  lemma Compare(x: Entity, x': Entity, y: Entity, y': Entity, n: nat, m: nat, i: int, t: int)
    requires Account(x, x', n) && Account(y, y', m)
    requires y.vruntime - x.vruntime <= i && x'.vruntime - y'.vruntime <= t
    ensures var d, g := x'.sumExec - x.sumExec, y'.sumExec - y.sumExec;
            Scaled(d, x.weight) - Scaled(g, y.weight) <= (i + t) as real + n as real + d as real / UNIT as real
  {
    hide Scaled;
    var v, w := x'.vruntime - x.vruntime, y'.vruntime - y.vruntime;
    assert (v - w) as real == v as real - w as real;
    assert (v - w) as real <= (i + t) as real;
  }

  lemma FairOk(q: Queue)
    requires Fair(q)
    ensures Ok(q)
  {
  }
}
