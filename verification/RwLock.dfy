/**
 The reader/writer lock of kernel/include/spinlock.h as a transition system: any number of threads,
 one step per atomic access, every interleaving.
 */
module RwLock {
  import opened Common

  const RWLOCK_WRITE_BIAS: nat := 0x01000000
  const U32: nat := 0x1_0000_0000

  /** The program counter of a thread: the access it performs next. */
  datatype Pc =
    | Idle
    // read_lock: wait loop, count, recheck, back off
    | RSpinWaiting | RSpinLock | RAdd | RCheckWaiting | RCheckLock | RUndo
    // read_trylock
    | TSpinWaiting | TSpinLock | TAdd | TCheckWaiting | TCheckLock | TUndo
    // between acquisition and read_unlock
    | Reading
    // write_lock
    | WRegister | WSwap | WDrain | WUnregister
    // write_trylock
    | XSwap | XCheck | XRelease
    // between acquisition and write_unlock
    | Writing

  /** What an idle thread calls next. */
  datatype Call = ReadLock | ReadTrylock | WriteLock | WriteTrylock

  datatype State = State(lock: nat, readers: nat, waiting: nat, pc: map<nat, Pc>)

  predicate Biased(word: nat) {
    (word / RWLOCK_WRITE_BIAS) % 2 == 1
  }

  function Inc(x: nat): nat {
    (x + 1) % U32
  }

  function Dec(x: nat): nat {
    (x + U32 - 1) % U32
  }

  function Entry(call: Call): Pc {
    match call
    case ReadLock => RSpinWaiting
    case ReadTrylock => TSpinWaiting
    case WriteLock => WRegister
    case WriteTrylock => XSwap
  }

  /** Where the next access of a thread takes it. */
  function NextPc(s: State, at: Pc, call: Call): Pc {
    match at
    case Idle => Entry(call)
    case RSpinWaiting => if s.waiting != 0 then RSpinWaiting else RSpinLock
    case RSpinLock => if Biased(s.lock) then RSpinWaiting else RAdd
    case RAdd => if Inc(s.readers) != 0 then RCheckWaiting else RSpinWaiting
    case RCheckWaiting => if s.waiting != 0 then RUndo else RCheckLock
    case RCheckLock => if Biased(s.lock) then RUndo else Reading
    case RUndo => RSpinWaiting
    case TSpinWaiting => if s.waiting != 0 then Idle else TSpinLock
    case TSpinLock => if Biased(s.lock) then Idle else TAdd
    case TAdd => if Inc(s.readers) != 0 then TCheckWaiting else Idle
    case TCheckWaiting => if s.waiting != 0 then TUndo else TCheckLock
    case TCheckLock => if Biased(s.lock) then TUndo else Reading
    case TUndo => Idle
    case Reading => Idle
    case WRegister => WSwap
    case WSwap => if s.lock == 0 then WDrain else WSwap
    case WDrain => if s.readers > 0 then WDrain else WUnregister
    case WUnregister => Writing
    case XSwap => if s.lock == 0 then XCheck else Idle
    case XCheck => if s.readers > 0 then XRelease else Writing
    case XRelease => Idle
    case Writing => Idle
  }

  function NextLock(s: State, at: Pc): nat {
    match at
    case WSwap => if s.lock == 0 then RWLOCK_WRITE_BIAS else s.lock
    case XSwap => if s.lock == 0 then RWLOCK_WRITE_BIAS else s.lock
    case XRelease => 0
    case Writing => 0
    case _ => s.lock
  }

  function NextReaders(s: State, at: Pc): nat {
    match at
    case RAdd => Inc(s.readers)
    case TAdd => Inc(s.readers)
    case RUndo => Dec(s.readers)
    case TUndo => Dec(s.readers)
    case Reading => Dec(s.readers)
    case _ => s.readers
  }

  function NextWaiting(s: State, at: Pc): nat {
    match at
    case WRegister => Inc(s.waiting)
    case WUnregister => Dec(s.waiting)
    case _ => s.waiting
  }

  /** Thread `t` performs its next access. */
  function Step(s: State, t: nat, call: Call): State
    requires t in s.pc
  {
    var at := s.pc[t];
    State(NextLock(s, at), NextReaders(s, at), NextWaiting(s, at), s.pc[t := NextPc(s, at, call)])
  }

  /** A schedule: which thread moves, and what it calls if it is idle. */
  type Schedule = seq<(nat, Call)>

  predicate Runs(s: State, sched: Schedule)
    decreases sched
  {
    sched == [] || (sched[0].0 in s.pc && Runs(Step(s, sched[0].0, sched[0].1), sched[1..]))
  }

  function After(s: State, sched: Schedule): State
    requires Runs(s, sched)
    decreases sched
  {
    if sched == [] then s else After(Step(s, sched[0].0, sched[0].1), sched[1..])
  }

  // ----- groups of threads

  /**
   Counted: between the reader's add and its subtract. Registered: between the writer's add and its subtract.
   Owner: between winning the swap and clearing the word. Inside: holding the lock for writing.
   Committed: past the recheck of writer_waiting, or reading. AtLeast(k): a reader `k` or more steps from rest.
   */
  datatype Group = Counted | Registered | Owner | Inside | Readers | Committed | AtLeast(k: nat)

  /** The steps a reader still takes before it rests, while a writer waits for readers to leave. */
  function Rank(at: Pc): nat {
    match at
    case RAdd => 4
    case TAdd => 4
    case RCheckWaiting => 3
    case TCheckWaiting => 3
    case RCheckLock => 2
    case TCheckLock => 2
    case RSpinLock => 1
    case TSpinLock => 1
    case RUndo => 1
    case TUndo => 1
    case Reading => 1
    case _ => 0
  }

  predicate In(at: Pc, g: Group) {
    match g
    case Counted => at.RCheckWaiting? || at.RCheckLock? || at.RUndo? || at.TCheckWaiting? || at.TCheckLock?
                    || at.TUndo? || at.Reading?
    case Registered => at.WSwap? || at.WDrain? || at.WUnregister?
    case Owner => at.WDrain? || at.WUnregister? || at.XCheck? || at.XRelease? || at.Writing?
    case Inside => at.WUnregister? || at.Writing?
    case Readers => at.Reading?
    case Committed => at.Reading? || at.RCheckLock? || at.TCheckLock?
    case AtLeast(k) => Rank(at) >= k
  }

  function Threads(pc: map<nat, Pc>, g: Group): set<nat> {
    set t | t in pc && In(pc[t], g)
  }

  lemma ThreadsUpdate(pc: map<nat, Pc>, t: nat, at: Pc, g: Group)
    requires t in pc
    ensures Threads(pc[t := at], g) == if In(at, g) then Threads(pc, g) + {t} else Threads(pc, g) - {t}
    ensures t in Threads(pc, g) <==> In(pc[t], g)
  {
    hide In;
  }

  lemma ThreadsSize(pc: map<nat, Pc>, t: nat, at: Pc, g: Group)
    requires t in pc
    ensures |Threads(pc[t := at], g)| == |Threads(pc, g)| + One(In(at, g)) - One(In(pc[t], g))
    ensures One(In(pc[t], g)) <= |Threads(pc, g)| <= |pc| - 1 + One(In(pc[t], g))
    ensures |pc[t := at]| == |pc|
  {
    hide In;
    ThreadsUpdate(pc, t, at, g);
    var S := Threads(pc, g);
    assert S - {t} <= pc.Keys - {t} && (t in S <==> In(pc[t], g)) && pc[t := at].Keys == pc.Keys;
    hide Threads;
    SubsetSize(S - {t}, pc.Keys - {t});
    TogglesSize(S, t);
    TogglesSize(pc.Keys, t);
  }

  lemma TogglesSize(S: set<nat>, t: nat)
    ensures |S - {t}| == |S| - One(t in S) && |S + {t}| == |S - {t}| + 1
  {
    assert S + {t} == (S - {t}) + {t};
  }

  lemma {:induction false} SubsetSize<T>(a: set<T>, b: set<T>)
    requires a <= b
    ensures |a| <= |b|
  {
    if a != {} {
      var x :| x in a;
      SubsetSize(a - {x}, b - {x});
    }
  }

  // ----- the invariant

  /** The counters count, and stay clear of 2^32. */
  ghost predicate Counts(s: State) {
    && s.readers == |Threads(s.pc, Counted)|
    && s.waiting == |Threads(s.pc, Registered)|
    && |s.pc| < U32
  }

  /** The lock word is the bias exactly when one thread owns it, and then only one does. */
  ghost predicate Owned(s: State) {
    && (s.lock == 0 || s.lock == RWLOCK_WRITE_BIAS)
    && |Threads(s.pc, Owner)| == One(s.lock != 0)
  }

  /** No reader is inside with a writer. */
  ghost predicate Excludes(s: State) {
    Threads(s.pc, Inside) == {} || Threads(s.pc, Readers) == {}
  }

  ghost predicate Inv(s: State) {
    Counts(s) && Owned(s) && Excludes(s)
  }

  lemma ReadersDelta(s: State, at: Pc, call: Call)
    requires One(In(at, Counted)) <= s.readers <= U32 - 2 + One(In(at, Counted))
    ensures NextReaders(s, at) == s.readers + One(In(NextPc(s, at, call), Counted)) - One(In(at, Counted))
  {
    hide Biased;
  }

  lemma WaitingDelta(s: State, at: Pc, call: Call)
    requires One(In(at, Registered)) <= s.waiting <= U32 - 2 + One(In(at, Registered))
    ensures NextWaiting(s, at) == s.waiting + One(In(NextPc(s, at, call), Registered)) - One(In(at, Registered))
  {
    hide Biased;
  }

  lemma CountsStep(s: State, t: nat, call: Call)
    requires Counts(s) && t in s.pc
    ensures Counts(Step(s, t, call))
  {
    hide Threads, In, NextPc, NextReaders, NextWaiting, NextLock, One;
    var at := s.pc[t];
    var to := NextPc(s, at, call);
    ThreadsSize(s.pc, t, to, Counted);
    ThreadsSize(s.pc, t, to, Registered);
    ReadersDelta(s, at, call);
    WaitingDelta(s, at, call);
  }

  /** The word changes exactly with the ownership of the thread that moves. */
  lemma OwnerDelta(s: State, at: Pc, call: Call)
    requires s.lock == 0 || s.lock == RWLOCK_WRITE_BIAS
    ensures var to := NextPc(s, at, call);
            && (In(at, Owner) && !In(to, Owner) ==> NextLock(s, at) == 0)
            && (!In(at, Owner) && In(to, Owner) ==> s.lock == 0 && NextLock(s, at) == RWLOCK_WRITE_BIAS)
            && (In(at, Owner) == In(to, Owner) ==> NextLock(s, at) == s.lock)
  {
    hide Biased;
  }

  lemma OwnedStep(s: State, t: nat, call: Call)
    requires Owned(s) && t in s.pc
    ensures Owned(Step(s, t, call))
  {
    hide Threads, In, NextPc, NextReaders, NextWaiting, NextLock;
    OwnerDelta(s, s.pc[t], call);
    ThreadsSize(s.pc, t, NextPc(s, s.pc[t], call), Owner);
  }

  lemma ExcludesStep(s: State, t: nat, call: Call)
    requires Inv(s) && t in s.pc
    ensures Excludes(Step(s, t, call))
  {
    var at := s.pc[t];
    var to := NextPc(s, at, call);
    GroupInclusion(s.pc, Inside, Owner);
    GroupInclusion(s.pc, Readers, Counted);
    EntryGuards(s, at, call);
    hide Threads, In, NextPc, NextReaders, NextWaiting, NextLock;
    ThreadsUpdate(s.pc, t, to, Inside);
    ThreadsUpdate(s.pc, t, to, Readers);
  }

  /** A writer gets inside only on a zero count, a reader only on a clear word. */
  lemma EntryGuards(s: State, at: Pc, call: Call)
    requires s.lock == 0 || s.lock == RWLOCK_WRITE_BIAS
    ensures var to := NextPc(s, at, call);
            && (In(to, Inside) && !In(at, Inside) ==> s.readers == 0 && !In(to, Readers))
            && (In(to, Readers) && !In(at, Readers) ==> s.lock == 0 && !In(to, Inside))
            && !(In(to, Inside) && In(to, Readers))
  {
  }

  lemma GroupInclusion(pc: map<nat, Pc>, g: Group, h: Group)
    requires forall at :: In(at, g) ==> In(at, h)
    ensures Threads(pc, g) <= Threads(pc, h)
    ensures |Threads(pc, g)| <= |Threads(pc, h)|
  {
    SubsetSize(Threads(pc, g), Threads(pc, h));
  }

  lemma StepInv(s: State, t: nat, call: Call)
    requires Inv(s) && t in s.pc
    ensures Inv(Step(s, t, call))
  {
    hide Counts, Owned, Excludes, Step;
    CountsStep(s, t, call);
    OwnedStep(s, t, call);
    ExcludesStep(s, t, call);
  }

  /** rwlock_init, with every thread idle. */
  ghost predicate Initial(s: State) {
    s.lock == 0 && s.readers == 0 && s.waiting == 0 && |s.pc| < U32 && forall t :: t in s.pc ==> s.pc[t] == Idle
  }

  lemma InitialInv(s: State)
    requires Initial(s)
    ensures Inv(s)
  {
    assert Threads(s.pc, Counted) == {} && Threads(s.pc, Registered) == {};
    assert Threads(s.pc, Owner) == {} && Threads(s.pc, Inside) == {};
  }

  lemma {:induction false} RunInv(s: State, sched: Schedule)
    requires Inv(s) && Runs(s, sched)
    ensures Inv(After(s, sched))
    decreases sched
  {
    hide Inv, Step;
    if sched != [] {
      StepInv(s, sched[0].0, sched[0].1);
      RunInv(Step(s, sched[0].0, sched[0].1), sched[1..]);
    }
  }

  /**
   Exclusion, in every run from an initialised lock: a thread holding the lock for writing excludes every
   reader and every other writer, and reader_count counts the readers between their add and their subtract.
   */
  lemma Exclusion(s: State, sched: Schedule)
    requires Initial(s) && Runs(s, sched)
    ensures var e := After(s, sched);
            && (forall w, t :: w in e.pc && t in e.pc && In(e.pc[w], Inside) && t != w
                  ==> e.pc[t] != Reading && !In(e.pc[t], Owner))
            && e.readers == |Threads(e.pc, Counted)| && e.waiting == |Threads(e.pc, Registered)|
  {
    InitialInv(s);
    RunInv(s, sched);
    Separated(After(s, sched));
  }

  lemma Separated(e: State)
    requires Inv(e)
    ensures forall w, t :: w in e.pc && t in e.pc && In(e.pc[w], Inside) && t != w
              ==> e.pc[t] != Reading && !In(e.pc[t], Owner)
  {
    forall w, t | w in e.pc && t in e.pc && In(e.pc[w], Inside) && t != w
      ensures e.pc[t] != Reading && !In(e.pc[t], Owner)
    {
      assert w in Threads(e.pc, Inside) && w in Threads(e.pc, Owner);
      assert t in Threads(e.pc, Readers) <==> e.pc[t] == Reading;
      SubsetSize({w, t} * Threads(e.pc, Owner), Threads(e.pc, Owner));
      assert t in Threads(e.pc, Owner) ==> {w, t} * Threads(e.pc, Owner) == {w, t};
    }
  }

  // ----- writer preference

  /** `w` has registered as a waiting writer and does not hold the lock yet. */
  predicate Queued(s: State, w: nat) {
    w in s.pc && (s.pc[w] == WSwap || s.pc[w] == WDrain)
  }

  predicate QueuedThroughout(s: State, sched: Schedule, w: nat)
    requires Runs(s, sched)
    decreases sched
  {
    Queued(s, w) && (sched == [] || QueuedThroughout(Step(s, sched[0].0, sched[0].1), sched[1..], w))
  }

  lemma CommittedStep(s: State, t: nat, call: Call, w: nat)
    requires Inv(s) && Queued(s, w) && t in s.pc
    ensures Threads(Step(s, t, call).pc, Committed) <= Threads(s.pc, Committed)
  {
    hide Owned, Excludes, Biased;
    assert w in Threads(s.pc, Registered);
    assert s.waiting != 0;
    hide Threads;
    ThreadsUpdate(s.pc, t, NextPc(s, s.pc[t], call), Committed);
  }

  /** While a writer is queued, the set of readers that are inside or can still get in never grows. */
  lemma {:induction false} CommittedShrinks(s: State, sched: Schedule, w: nat)
    requires Inv(s) && Runs(s, sched) && QueuedThroughout(s, sched, w)
    ensures Threads(After(s, sched).pc, Committed) <= Threads(s.pc, Committed)
    decreases sched
  {
    hide Inv, Step, Queued, Threads;
    if sched != [] {
      CommittedStep(s, sched[0].0, sched[0].1, w);
      StepInv(s, sched[0].0, sched[0].1);
      CommittedShrinks(Step(s, sched[0].0, sched[0].1), sched[1..], w);
    }
  }

  /**
   Writer preference: while `w` is queued, a thread can only come to read if it was, when `w` registered,
   already between its two rechecks; a reader that had yet to count itself never gets in before `w`.
   */
  lemma WriterPreference(s: State, sched: Schedule, w: nat, r: nat)
    requires Inv(s) && Runs(s, sched) && QueuedThroughout(s, sched, w)
    requires r in s.pc && r in After(s, sched).pc && After(s, sched).pc[r] == Reading
    ensures s.pc[r] == Reading || s.pc[r] == RCheckLock || s.pc[r] == TCheckLock
  {
    hide Inv, Runs, After, QueuedThroughout;
    CommittedShrinks(s, sched, w);
    assert r in Threads(After(s, sched).pc, Committed);
  }

  // ----- reader drain

  /** How many reader steps are left before the readers are gone. */
  function Pending(pc: map<nat, Pc>): nat {
    |Threads(pc, AtLeast(1))| + |Threads(pc, AtLeast(2))| + |Threads(pc, AtLeast(3))| + |Threads(pc, AtLeast(4))|
  }

  predicate DrainingThroughout(s: State, sched: Schedule, w: nat)
    requires Runs(s, sched)
    decreases sched
  {
    && w in s.pc && s.pc[w] == WDrain
    && (sched == [] || DrainingThroughout(Step(s, sched[0].0, sched[0].1), sched[1..], w))
  }

  /** The steps of a schedule taken by readers that are not at rest. */
  function ReaderSteps(s: State, sched: Schedule): nat
    requires Runs(s, sched)
    decreases sched
  {
    if sched == [] then 0
    else
      (if Rank(s.pc[sched[0].0]) > 0 then 1 else 0) + ReaderSteps(Step(s, sched[0].0, sched[0].1), sched[1..])
  }

  lemma PendingStep(pc: map<nat, Pc>, t: nat, at: Pc)
    requires t in pc
    ensures Pending(pc[t := at]) == Pending(pc) - Rank(pc[t]) + Rank(at)
  {
    hide Threads, Rank;
    ThreadsSize(pc, t, at, AtLeast(1));
    ThreadsSize(pc, t, at, AtLeast(2));
    ThreadsSize(pc, t, at, AtLeast(3));
    ThreadsSize(pc, t, at, AtLeast(4));
    RankBound(pc[t]);
    RankBound(at);
  }

  lemma RankBound(at: Pc)
    ensures Rank(at) <= 4
  {
  }

  /** While the winner of the swap waits, each step of an active reader lowers its rank and nobody gets in. */
  lemma DrainStep(s: State, t: nat, call: Call, w: nat)
    requires Inv(s) && w in s.pc && s.pc[w] == WDrain && t in s.pc
    ensures var at := NextPc(s, s.pc[t], call);
            && Rank(at) <= Rank(s.pc[t]) && (Rank(s.pc[t]) > 0 ==> Rank(at) < Rank(s.pc[t]))
            && (at == Reading ==> s.pc[t] == Reading)
  {
    assert w in Threads(s.pc, Registered) && w in Threads(s.pc, Owner);
    assert s.waiting != 0 && s.lock != 0;
  }

  lemma {:induction false} DrainRun(s: State, sched: Schedule, w: nat)
    requires Inv(s) && Runs(s, sched) && DrainingThroughout(s, sched, w)
    ensures Pending(After(s, sched).pc) + ReaderSteps(s, sched) <= Pending(s.pc)
    ensures Threads(After(s, sched).pc, Readers) <= Threads(s.pc, Readers)
    decreases sched
  {
    hide Inv, Pending, Threads, Rank, NextPc, NextLock, NextReaders, NextWaiting;
    if sched != [] {
      var (t, call) := sched[0];
      DrainStep(s, t, call, w);
      PendingStep(s.pc, t, NextPc(s, s.pc[t], call));
      ThreadsUpdate(s.pc, t, NextPc(s, s.pc[t], call), Readers);
      StepInv(s, t, call);
      DrainRun(Step(s, t, call), sched[1..], w);
    }
  }

  /**
   Reader drain: with a writer draining, no reader gets in, readers take at most `Pending` steps in all, and
   once they have taken them the count is zero and the writer's next read of it acquires the lock.
   */
  lemma ReaderDrain(s: State, sched: Schedule, w: nat, call: Call)
    requires Inv(s) && Runs(s, sched) && DrainingThroughout(s, sched, w)
    ensures Threads(After(s, sched).pc, Readers) <= Threads(s.pc, Readers)
    ensures ReaderSteps(s, sched) <= Pending(s.pc)
    ensures ReaderSteps(s, sched) == Pending(s.pc) ==>
              var e := After(s, sched);
              e.readers == 0 && w in e.pc && Step(e, w, call).pc[w] == WUnregister
  {
    hide Step, Threads, Runs;
    DrainRun(s, sched, w);
    RunInv(s, sched);
    DrainingEnd(s, sched, w);
    CountedPending(After(s, sched));
    if ReaderSteps(s, sched) == Pending(s.pc) { Acquires(After(s, sched), w, call); }
  }

  lemma Acquires(s: State, w: nat, call: Call)
    requires w in s.pc && s.pc[w] == WDrain && s.readers == 0
    ensures Step(s, w, call).pc[w] == WUnregister
  {
  }

  lemma {:induction false} DrainingEnd(s: State, sched: Schedule, w: nat)
    requires Runs(s, sched) && DrainingThroughout(s, sched, w)
    ensures w in After(s, sched).pc && After(s, sched).pc[w] == WDrain
    decreases sched
  {
    hide Step;
    if sched != [] { DrainingEnd(Step(s, sched[0].0, sched[0].1), sched[1..], w); }
  }

  lemma CountedPending(s: State)
    requires Inv(s)
    ensures s.readers <= Pending(s.pc)
  {
    hide Threads;
    GroupInclusion(s.pc, Counted, AtLeast(1));
  }

  /** Every reader that is not at rest can move, so a nonzero count always has a step that lowers `Pending`. */
  lemma DrainProgress(s: State, w: nat) returns (t: nat)
    requires Inv(s) && w in s.pc && s.pc[w] == WDrain && s.readers > 0
    ensures t in s.pc && forall call :: Pending(Step(s, t, call).pc) < Pending(s.pc)
  {
    hide Pending, Owned, Excludes, Rank;
    var S := Threads(s.pc, Counted);
    assert S != {};
    t :| t in S;
    RankPositive(s.pc[t]);
    forall call
      ensures Pending(Step(s, t, call).pc) < Pending(s.pc)
    {
      DrainStep(s, t, call, w);
      PendingStep(s.pc, t, NextPc(s, s.pc[t], call));
    }
  }

  lemma RankPositive(at: Pc)
    requires In(at, Counted)
    ensures Rank(at) > 0
  {
  }
}
