/** What the reader/writer lock gives: a free lock is acquired, and whoever is turned away met the reason. */
module RwProgress {
  import opened Common
  import opened RwLock

  /** No writer has registered or holds the word. */
  predicate NoWriter(s: State) {
    s.lock == 0 && s.waiting == 0
  }

  // ----- a free lock is acquired

  /** The steps a reader on its way in still takes if no writer shows up. */
  function Distance(at: Pc): nat {
    match at
    case RUndo => 6
    case RSpinWaiting => 5
    case TSpinWaiting => 5
    case RSpinLock => 4
    case TSpinLock => 4
    case RAdd => 3
    case TAdd => 3
    case RCheckWaiting => 2
    case TCheckWaiting => 2
    case RCheckLock => 1
    case TCheckLock => 1
    case _ => 0
  }

  predicate Entering(at: Pc) {
    Distance(at) > 0 || at.Reading?
  }

  /** Every step of the schedule finds no writer. */
  predicate NoWriterThroughout(s: State, sched: Schedule)
    requires Runs(s, sched)
    decreases sched
  {
    sched == [] || (NoWriter(s) && NoWriterThroughout(Step(s, sched[0].0, sched[0].1), sched[1..]))
  }

  function StepsOf(sched: Schedule, t: nat): nat {
    if sched == [] then 0 else (if sched[0].0 == t then 1 else 0) + StepsOf(sched[1..], t)
  }

  /** The reader count never wraps: a reader about to count itself is not among those counted. */
  lemma CountFits(s: State, t: nat)
    requires Inv(s) && t in s.pc && !In(s.pc[t], Counted)
    ensures Inc(s.readers) != 0
  {
    hide Owned, Excludes, In;
    ThreadsSize(s.pc, t, s.pc[t], Counted);
    hide Threads;
  }

  lemma EnteringStep(s: State, t: nat, call: Call)
    requires Inv(s) && NoWriter(s) && t in s.pc && Distance(s.pc[t]) > 0
    ensures var at := NextPc(s, s.pc[t], call); Entering(at) && Distance(at) == Distance(s.pc[t]) - 1
  {
    if s.pc[t].RAdd? || s.pc[t].TAdd? { CountFits(s, t); }
    hide Inv, Inc;
  }

  /**
   Reader progress: as long as no writer shows up, a reader on its way in gets in with a fixed number of its own
   steps, at most five from the start of its call, however the other threads are scheduled in between.
   */
  lemma {:induction false} ReaderProgress(s: State, sched: Schedule, t: nat)
    requires Inv(s) && Runs(s, sched) && NoWriterThroughout(s, sched) && t in s.pc && Entering(s.pc[t])
    requires StepsOf(sched, t) <= Distance(s.pc[t])
    ensures var e := After(s, sched);
            t in e.pc && Entering(e.pc[t]) && Distance(e.pc[t]) == Distance(s.pc[t]) - StepsOf(sched, t)
    ensures StepsOf(sched, t) == Distance(s.pc[t]) ==> After(s, sched).pc[t] == Reading
    decreases sched
  {
    if sched != [] {
      hide Inv, NextPc, NextLock, NextReaders, NextWaiting, NoWriter;
      var (u, call) := sched[0];
      if u == t { EnteringStep(s, t, call); }
      StepInv(s, u, call);
      ReaderProgress(Step(s, u, call), sched[1..], t);
    }
  }

  /** Thread `t` alone, `n` steps. */
  function Solo(s: State, t: nat, call: Call, n: nat): State
    requires t in s.pc
    decreases n
  {
    if n == 0 then s else Solo(Step(s, t, call), t, call, n - 1)
  }

  /** A reader that finds no writer and is left alone reads after five steps, whether it waits or only tries. */
  lemma {:induction false} ReaderAlone(s: State, t: nat, call: Call, n: nat)
    requires Inv(s) && NoWriter(s) && t in s.pc && Entering(s.pc[t]) && n <= Distance(s.pc[t])
    ensures var e := Solo(s, t, call, n);
            && t in e.pc && Entering(e.pc[t]) && Distance(e.pc[t]) == Distance(s.pc[t]) - n
            && (n == Distance(s.pc[t]) ==> e.pc[t] == Reading)
    decreases n
  {
    if n > 0 {
      EnteringStep(s, t, call);
      StepInv(s, t, call);
      assert NoWriter(Step(s, t, call));
      hide Inv, Step;
      ReaderAlone(Step(s, t, call), t, call, n - 1);
    }
  }

  /** A writer that finds the word clear and no reader counted, and is left alone, holds the lock. */
  lemma WriterAlone(s: State, t: nat, call: Call)
    requires Inv(s) && s.lock == 0 && s.readers == 0 && t in s.pc
    ensures s.pc[t] == WRegister ==> Solo(s, t, call, 4).pc == s.pc[t := Writing]
    ensures s.pc[t] == XSwap ==> Solo(s, t, call, 2).pc == s.pc[t := Writing]
  {
    var s1 := Step(s, t, call);
    var s2 := Step(s1, t, call);
    var s3 := Step(s2, t, call);
    hide Step, Inv;
    assert Solo(s, t, call, 2) == Solo(s1, t, call, 1) == Solo(s2, t, call, 0);
    assert Solo(s, t, call, 4) == Solo(s1, t, call, 3) == Solo(s2, t, call, 2) == Solo(s3, t, call, 1);
    assert Solo(s3, t, call, 1) == Solo(Step(s3, t, call), t, call, 0);
  }

  /** The word stays a writer's until the unlock clears it for everybody. */
  lemma ReleaseFrees(s: State, t: nat, call: Call)
    requires Inv(s) && t in s.pc && s.pc[t] == Writing
    ensures var e := Step(s, t, call); e.lock == 0 && e.pc[t] == Idle && Threads(e.pc, Owner) == {}
  {
    StepInv(s, t, call);
    hide Counts, Excludes;
  }

  // ----- whoever is turned away met the reason

  /** What a trylock may be refused for. */
  predicate Refusing(s: State, writer: bool) {
    if writer then s.lock != 0 || s.readers > 0 else s.lock != 0 || s.waiting != 0
  }

  predicate Trying(at: Pc, writer: bool) {
    if writer then at.XSwap? || at.XCheck? || at.XRelease?
    else at.TSpinWaiting? || at.TSpinLock? || at.TAdd? || at.TCheckWaiting? || at.TCheckLock? || at.TUndo?
  }

  /** Thread `t` is inside one trylock call in every state but the last. */
  predicate TryingThroughout(s: State, sched: Schedule, t: nat, writer: bool)
    requires Runs(s, sched)
    decreases sched
  {
    && t in s.pc
    && (sched == [] ||
        (Trying(s.pc[t], writer) && TryingThroughout(Step(s, sched[0].0, sched[0].1), sched[1..], t, writer)))
  }

  /** Some state before the last had a reason to refuse. */
  predicate MetReason(s: State, sched: Schedule, writer: bool)
    requires Runs(s, sched)
    decreases sched
  {
    sched != [] && (Refusing(s, writer) || MetReason(Step(s, sched[0].0, sched[0].1), sched[1..], writer))
  }

  lemma TryStep(s: State, t: nat, call: Call, writer: bool)
    requires Inv(s) && t in s.pc && Trying(s.pc[t], writer)
    ensures var at := NextPc(s, s.pc[t], call);
            at.Idle? || at.TUndo? || at.XRelease? ==> Refusing(s, writer) || s.pc[t].TUndo? || s.pc[t].XRelease?
  {
    if s.pc[t].TAdd? { CountFits(s, t); }
    hide Inv, Inc;
  }

  /**
   A trylock that returns without the lock was refused for a reason: at some moment of its call the word was
   taken, or a writer was waiting (for a reader), or a reader was counted (for a writer).
   */
  lemma {:induction false} RefusedForReason(s: State, sched: Schedule, t: nat, writer: bool)
    requires Inv(s) && Runs(s, sched) && TryingThroughout(s, sched, t, writer) && sched != []
    requires var e := After(s, sched); t in e.pc && e.pc[t] == Idle
    ensures MetReason(s, sched, writer) || s.pc[t].TUndo? || s.pc[t].XRelease?
    decreases sched
  {
    hide Inv, NextPc, NextLock, NextReaders, NextWaiting, Refusing;
    var (u, call) := sched[0];
    var r := Step(s, u, call);
    if u == t { TryStep(s, t, call, writer); }
    StepInv(s, u, call);
    if sched[1..] != [] { RefusedForReason(r, sched[1..], t, writer); }
  }

  /** From the first access of the call on. */
  lemma TrylockRefused(s: State, sched: Schedule, t: nat, writer: bool)
    requires Inv(s) && Runs(s, sched) && TryingThroughout(s, sched, t, writer) && sched != []
    requires s.pc[t] == (if writer then XSwap else TSpinWaiting)
    requires var e := After(s, sched); t in e.pc && e.pc[t] == Idle
    ensures MetReason(s, sched, writer)
  {
    hide Inv, Runs, After, TryingThroughout, MetReason;
    RefusedForReason(s, sched, t, writer);
  }

  // ----- what a call does until it returns

  /** The thread is inside call `call`, without the lock so far. */
  predicate Serving(at: Pc, call: Call) {
    match call
    case ReadLock => at.RSpinWaiting? || at.RSpinLock? || at.RAdd? || at.RCheckWaiting? || at.RCheckLock? || at.RUndo?
    case ReadTrylock => Trying(at, false)
    case WriteLock => at.WRegister? || at.WSwap? || at.WDrain? || at.WUnregister?
    case WriteTrylock => Trying(at, true)
  }

  /** What the call is after. */
  function Held(call: Call): Pc {
    if call.ReadLock? || call.ReadTrylock? then Reading else Writing
  }

  /** How many more of its own steps a trylock can take. */
  function TryRank(at: Pc): nat {
    match at
    case TSpinWaiting => 6
    case TSpinLock => 5
    case TAdd => 4
    case TCheckWaiting => 3
    case TCheckLock => 2
    case TUndo => 1
    case XSwap => 3
    case XCheck => 2
    case XRelease => 1
    case _ => 0
  }

  lemma ServingStep(s: State, at: Pc, call: Call, next: Call)
    requires Serving(at, call)
    ensures var to := NextPc(s, at, next);
            && (Serving(to, call) || to == Held(call) || (to == Idle && (call.ReadTrylock? || call.WriteTrylock?)))
            && (call.ReadTrylock? || call.WriteTrylock? ==> TryRank(to) < TryRank(at))
  {
    hide Inc;
  }

  /** In every state but the last the thread is inside the call, without the lock. */
  predicate ServingThroughout(s: State, sched: Schedule, t: nat, call: Call)
    requires Runs(s, sched)
    decreases sched
  {
    && t in s.pc
    && (sched == [] ||
        (Serving(s.pc[t], call) && ServingThroughout(Step(s, sched[0].0, sched[0].1), sched[1..], t, call)))
  }

  /**
   What a call does, however it is interleaved: the blocking calls come back only with the lock, and the trylocks
   come back, with the lock or without, after at most six steps of their own.
   */
  lemma {:induction false} CallReturns(s: State, sched: Schedule, t: nat, call: Call)
    requires Runs(s, sched) && ServingThroughout(s, sched, t, call) && t in s.pc && Serving(s.pc[t], call)
    ensures var e := After(s, sched);
            && t in e.pc
            && (Serving(e.pc[t], call) || e.pc[t] == Held(call)
                || (e.pc[t] == Idle && (call.ReadTrylock? || call.WriteTrylock?)))
            && (call.ReadTrylock? || call.WriteTrylock? ==> TryRank(e.pc[t]) + StepsOf(sched, t) <= TryRank(s.pc[t]) <= 6)
    decreases sched
  {
    TryRankBound(s.pc[t]);
    hide NextPc, NextLock, NextReaders, NextWaiting, Serving, Held, TryRank;
    if sched != [] {
      var (u, next) := sched[0];
      var r := Step(s, u, next);
      if u == t { ServingStep(s, s.pc[t], call, next); }
      if Serving(r.pc[t], call) {
        CallReturns(r, sched[1..], t, call);
      } else {
        assert sched[1..] == [];
      }
    }
  }

  lemma TryRankBound(at: Pc)
    ensures TryRank(at) <= 6
  {
  }

  /** A call starts inside itself; a release comes back. */
  lemma CallStarts(s: State, t: nat, call: Call)
    requires t in s.pc && s.pc[t] == Idle
    ensures var e := Step(s, t, call);
            && Serving(e.pc[t], call) && e.lock == s.lock && e.readers == s.readers && e.waiting == s.waiting
  {
  }
}
