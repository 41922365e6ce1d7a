/**
 Borrowed address spaces across context switches (kernel/core/sched/sched.c): kernel threads run on the address
 space of whoever ran before them, under a reference count that is taken in one place and dropped in another.
 */
module LazyMm {
  import opened Common

  type Tid = nat
  type Mm = nat

  /** `mm` is a task's own address space, `active` the one it runs on. */
  datatype Task = Task(mm: Option<Mm>, active: Option<Mm>)

  /** A run queue: the running task and the address space finish_task_switch still has to drop. */
  datatype Cpu = Cpu(curr: Tid, prevMm: Option<Mm>)

  /** `count` is mm_count; `owned` the address spaces whose user tasks hold their one reference. */
  datatype Machine = Machine(tasks: map<Tid, Task>, cpus: map<nat, Cpu>, count: map<Mm, int>, owned: set<Mm>)

  function Count(s: Machine, m: Mm): int {
    if m in s.count then s.count[m] else 0
  }

  function Counted(s: Machine, m: Option<Mm>, d: int): Machine {
    if m.None? then s else s.(count := s.count[m.value := Count(s, m.value) + d])
  }

  /** The kernel-thread branch of sched_fork, run on `cpu`. */
  function Fork(s: Machine, cpu: nat, p: Tid): Machine
    requires cpu in s.cpus && s.cpus[cpu].curr in s.tasks
  {
    var active := s.tasks[s.cpus[cpu].curr].active;
    Counted(s.(tasks := s.tasks[p := Task(None, active)]), active, 1)
  }

  /** context_switch on `cpu` up to the stack switch. */
  function Switch(s: Machine, cpu: nat, next: Tid): Machine
    requires cpu in s.cpus && s.cpus[cpu].curr in s.tasks && next in s.tasks
  {
    var prev := s.cpus[cpu].curr;
    var oldmm := s.tasks[prev].active;
    var s1 := if s.tasks[next].mm.None?
              then Counted(s.(tasks := s.tasks[next := s.tasks[next].(active := oldmm)]), oldmm, 1) else s;
    var s2 := if s.tasks[prev].mm.None?
              then s1.(tasks := s1.tasks[prev := s.tasks[prev].(active := None)],
                       cpus := s1.cpus[cpu := s1.cpus[cpu].(prevMm := oldmm)]) else s1;
    s2.(cpus := s2.cpus[cpu := s2.cpus[cpu].(curr := next)])
  }

  /** finish_task_switch on `cpu`. */
  function Finish(s: Machine, cpu: nat): Machine
    requires cpu in s.cpus
  {
    Counted(s.(cpus := s.cpus[cpu := s.cpus[cpu].(prevMm := None)]), s.cpus[cpu].prevMm, -1)
  }

  datatype Op = ForkOp(cpu: nat, p: Tid) | SwitchOp(cpu: nat, next: Tid) | FinishOp(cpu: nat)

  ghost predicate Running(s: Machine, t: Tid) {
    exists c :: c in s.cpus && s.cpus[c].curr == t
  }

  ghost predicate Enabled(s: Machine, op: Op) {
    match op
    case ForkOp(cpu, p) => cpu in s.cpus && p !in s.tasks
    case SwitchOp(cpu, next) => cpu in s.cpus && next in s.tasks && !Running(s, next)
    case FinishOp(cpu) => cpu in s.cpus
  }

  /** Running tasks exist and run on something; user tasks run on their own, owned address space. */
  ghost predicate Wf(s: Machine) {
    && (forall c :: c in s.cpus ==> s.cpus[c].curr in s.tasks && s.tasks[s.cpus[c].curr].active.Some?)
    && (forall c, d :: c in s.cpus && d in s.cpus && c != d ==> s.cpus[c].curr != s.cpus[d].curr)
    && (forall t :: t in s.tasks && s.tasks[t].mm.Some? ==> s.tasks[t].active == s.tasks[t].mm && s.tasks[t].mm.value in s.owned)
  }

  function Step(s: Machine, op: Op): Machine
    requires Wf(s) && Enabled(s, op)
  {
    match op
    case ForkOp(cpu, p) => Fork(s, cpu, p)
    case SwitchOp(cpu, next) => Switch(s, cpu, next)
    case FinishOp(cpu) => Finish(s, cpu)
  }

  // ----- who refers to an address space

  predicate Borrows(x: Task, m: Mm) {
    x.mm.None? && x.active == Some(m)
  }

  /** Tasks without an address space of their own that have borrowed `m`. */
  function Borrowers(tasks: map<Tid, Task>, m: Mm): set<Tid> {
    set t | t in tasks && Borrows(tasks[t], m)
  }

  /** The run queues that still have to drop `m`. */
  function Pending(cpus: map<nat, Cpu>, m: Mm): set<nat> {
    set c | c in cpus && cpus[c].prevMm == Some(m)
  }

  /** References counted beyond those anybody holds. */
  function Excess(s: Machine, m: Mm): int {
    Count(s, m) - One(m in s.owned) - |Borrowers(s.tasks, m)| - |Pending(s.cpus, m)|
  }

  lemma BorrowersSize(tasks: map<Tid, Task>, t: Tid, x: Task, m: Mm)
    ensures |Borrowers(tasks[t := x], m)| ==
            |Borrowers(tasks, m)| + One(Borrows(x, m)) - One(t in tasks && Borrows(tasks[t], m))
  {
    hide Borrows;
    var B := Borrowers(tasks, m);
    assert Borrowers(tasks[t := x], m) == if Borrows(x, m) then B + {t} else B - {t};
    assert t in B <==> t in tasks && Borrows(tasks[t], m);
  }

  lemma PendingSize(cpus: map<nat, Cpu>, c: nat, x: Cpu, m: Mm)
    requires c in cpus
    ensures |Pending(cpus[c := x], m)| ==
            |Pending(cpus, m)| + One(x.prevMm == Some(m)) - One(cpus[c].prevMm == Some(m))
  {
    var P := Pending(cpus, m);
    assert Pending(cpus[c := x], m) == if x.prevMm == Some(m) then P + {c} else P - {c};
    assert c in P <==> cpus[c].prevMm == Some(m);
  }

  // ----- exact accounting of each step

  lemma ForkExcess(s: Machine, cpu: nat, p: Tid, m: Mm)
    requires Wf(s) && Enabled(s, ForkOp(cpu, p))
    ensures Excess(Fork(s, cpu, p), m) == Excess(s, m)
  {
    BorrowersSize(s.tasks, p, Task(None, s.tasks[s.cpus[cpu].curr].active), m);
    hide Borrowers, Pending;
  }

  lemma FinishExcess(s: Machine, cpu: nat, m: Mm)
    requires cpu in s.cpus
    ensures Excess(Finish(s, cpu), m) == Excess(s, m)
  {
    PendingSize(s.cpus, cpu, s.cpus[cpu].(prevMm := None), m);
    hide Borrowers, Pending;
  }

  /**
   A switch loses a reference in exactly two ways: the incoming kernel thread already referred to an address
   space, or the outgoing one overwrites a drop that was still pending.
   */
  lemma SwitchExcess(s: Machine, cpu: nat, next: Tid, m: Mm)
    requires Wf(s) && Enabled(s, SwitchOp(cpu, next))
    ensures Excess(Switch(s, cpu, next), m) == Excess(s, m)
              + One(Borrows(s.tasks[next], m))
              + One(s.tasks[s.cpus[cpu].curr].mm.None? && s.cpus[cpu].prevMm == Some(m))
  {
    var prev := s.cpus[cpu].curr;
    assert prev != next by { assert Running(s, prev); }
    var oldmm := s.tasks[prev].active;
    var x := s.tasks[next].(active := oldmm);
    var T1 := if s.tasks[next].mm.None? then s.tasks[next := x] else s.tasks;
    BorrowersSize(s.tasks, next, x, m);
    var y := s.tasks[prev].(active := None);
    BorrowersSize(T1, prev, y, m);
    var C1 := if s.tasks[prev].mm.None? then s.cpus[cpu := s.cpus[cpu].(prevMm := oldmm)] else s.cpus;
    PendingSize(s.cpus, cpu, s.cpus[cpu].(prevMm := oldmm), m);
    PendingSize(C1, cpu, C1[cpu].(curr := next), m);
    hide Borrowers, Pending, Running, Wf;
    var r := Switch(s, cpu, next);
    assert r.tasks == (if s.tasks[prev].mm.None? then T1[prev := y] else T1);
    assert r.cpus == C1[cpu := C1[cpu].(curr := next)];
    assert Count(r, m) == Count(s, m) + One(s.tasks[next].mm.None? && oldmm == Some(m));
  }

  lemma StepWf(s: Machine, op: Op)
    requires Wf(s) && Enabled(s, op)
    ensures Wf(Step(s, op)) && Step(s, op).owned == s.owned
  {
    match op
    case ForkOp(cpu, p) =>
    case FinishOp(cpu) =>
    case SwitchOp(cpu, next) => SwitchWf(s, cpu, next);
  }

  lemma SwitchWf(s: Machine, cpu: nat, next: Tid)
    requires Wf(s) && Enabled(s, SwitchOp(cpu, next))
    ensures Wf(Switch(s, cpu, next)) && Switch(s, cpu, next).owned == s.owned
  {
    var prev := s.cpus[cpu].curr;
    var r := Switch(s, cpu, next);
    assert Running(s, prev);
    forall c | c in r.cpus
      ensures r.cpus[c].curr in r.tasks && r.tasks[r.cpus[c].curr].active.Some?
    {
      if c != cpu { assert s.cpus[c].curr != prev && s.cpus[c].curr != next by { assert Running(s, s.cpus[c].curr); } }
    }
    forall c, d | c in r.cpus && d in r.cpus && c != d
      ensures r.cpus[c].curr != r.cpus[d].curr
    {
      assert Running(s, s.cpus[c].curr) && Running(s, s.cpus[d].curr);
    }
  }

  // ----- runs

  ghost predicate Runs(s: Machine, ops: seq<Op>)
    requires Wf(s)
    decreases ops
  {
    ops == [] || (Enabled(s, ops[0]) && (StepWf(s, ops[0]); Runs(Step(s, ops[0]), ops[1..])))
  }

  ghost function After(s: Machine, ops: seq<Op>): Machine
    requires Wf(s) && Runs(s, ops)
    decreases ops
  {
    if ops == [] then s else
      StepWf(s, ops[0]);
      After(Step(s, ops[0]), ops[1..])
  }

  /** Every address space is counted at least as often as it is referred to. */
  ghost predicate Covered(s: Machine) {
    forall m :: Excess(s, m) >= 0
  }

  lemma StepCovered(s: Machine, op: Op)
    requires Wf(s) && Enabled(s, op) && Covered(s)
    ensures Covered(Step(s, op))
  {
    hide Excess, Fork, Switch, Finish, Borrows;
    forall m
      ensures Excess(Step(s, op), m) >= 0
    {
      match op
      case ForkOp(cpu, p) => ForkExcess(s, cpu, p, m);
      case SwitchOp(cpu, next) => SwitchExcess(s, cpu, next, m);
      case FinishOp(cpu) => FinishExcess(s, cpu, m);
    }
  }

  /** No address space is dropped early, in any run of forks, switches and finishes. */
  lemma {:induction false} NeverDroppedEarly(s: Machine, ops: seq<Op>)
    requires Wf(s) && Covered(s) && Runs(s, ops)
    ensures Wf(After(s, ops)) && Covered(After(s, ops))
    decreases ops
  {
    hide Covered, Enabled, Step;
    if ops != [] {
      StepWf(s, ops[0]);
      StepCovered(s, ops[0]);
      NeverDroppedEarly(Step(s, ops[0]), ops[1..]);
    }
  }

  /** Whatever a task borrows, a user task owns or a queue still has to drop has a positive count. */
  lemma ReferredIsAlive(s: Machine, m: Mm)
    requires Covered(s)
    requires m in s.owned || (exists t :: t in s.tasks && Borrows(s.tasks[t], m))
             || exists c :: c in s.cpus && s.cpus[c].prevMm == Some(m)
    ensures Count(s, m) >= 1
  {
    assert Excess(s, m) >= 0;
    if t :| t in s.tasks && Borrows(s.tasks[t], m) { assert t in Borrowers(s.tasks, m); }
    if c :| c in s.cpus && s.cpus[c].prevMm == Some(m) { assert c in Pending(s.cpus, m); }
  }

  // ----- equality

  /** Counts are exact, and a kernel thread refers to something only while it runs. */
  ghost predicate Exact(s: Machine) {
    && Balanced(s)
    && (forall t :: t in s.tasks && s.tasks[t].mm.None? && s.tasks[t].active.Some? ==> Running(s, t))
  }

  /** No kernel thread is forked, and a switch only starts once the last one on its queue has finished. */
  predicate Orderly(s: Machine, op: Op) {
    match op
    case ForkOp(_, _) => false
    case SwitchOp(cpu, _) => cpu in s.cpus && s.cpus[cpu].prevMm.None?
    case FinishOp(_) => true
  }

  lemma StepExact(s: Machine, op: Op)
    requires Wf(s) && Enabled(s, op) && Exact(s) && Orderly(s, op)
    ensures Exact(Step(s, op))
  {
    var r := Step(s, op);
    forall m
      ensures Excess(r, m) == 0
    {
      match op
      case SwitchOp(cpu, next) => SwitchExcess(s, cpu, next, m);
      case FinishOp(cpu) => FinishExcess(s, cpu, m);
    }
    hide Excess;
    forall t | t in r.tasks && r.tasks[t].mm.None? && r.tasks[t].active.Some?
      ensures Running(r, t)
    {
      match op
      case SwitchOp(cpu, next) => IdleBorrowsNothing(s, cpu, next, t);
      case FinishOp(cpu) =>
        var c :| c in s.cpus && s.cpus[c].curr == t;
        assert c in r.cpus && r.cpus[c].curr == t;
    }
  }

  lemma IdleBorrowsNothing(s: Machine, cpu: nat, next: Tid, t: Tid)
    requires Wf(s) && Enabled(s, SwitchOp(cpu, next)) && Exact(s)
    requires var r := Switch(s, cpu, next); t in r.tasks && r.tasks[t].mm.None? && r.tasks[t].active.Some?
    ensures Running(Switch(s, cpu, next), t)
  {
    hide Excess;
    var r := Switch(s, cpu, next);
    if t == next {
      assert cpu in r.cpus && r.cpus[cpu].curr == t;
    } else {
      assert s.tasks[t].mm.None? && s.tasks[t].active.Some?;
      var c :| c in s.cpus && s.cpus[c].curr == t;
      assert c != cpu;
      assert c in r.cpus && r.cpus[c].curr == t;
    }
  }

  ghost predicate OrderlyRun(s: Machine, ops: seq<Op>)
    requires Wf(s) && Runs(s, ops)
    decreases ops
  {
    ops == [] || (Orderly(s, ops[0]) && (StepWf(s, ops[0]); OrderlyRun(Step(s, ops[0]), ops[1..])))
  }

  /** Runs without kernel-thread forks whose switches all finish keep every count exact. */
  lemma {:induction false} OrderlyRunsExact(s: Machine, ops: seq<Op>)
    requires Wf(s) && Exact(s) && Runs(s, ops) && OrderlyRun(s, ops)
    ensures Exact(After(s, ops))
    decreases ops
  {
    hide Exact, Enabled, Step, Orderly;
    if ops != [] {
      StepWf(s, ops[0]);
      StepExact(s, ops[0]);
      OrderlyRunsExact(Step(s, ops[0]), ops[1..]);
    }
  }

  // ----- what is lost

  /** The references to `m` one operation loses: the two cases of a switch. */
  function LostBy(s: Machine, op: Op, m: Mm): nat
    requires Wf(s) && Enabled(s, op)
  {
    match op
    case SwitchOp(cpu, next) =>
      One(Borrows(s.tasks[next], m)) + One(s.tasks[s.cpus[cpu].curr].mm.None? && s.cpus[cpu].prevMm == Some(m))
    case _ => 0
  }

  ghost function Lost(s: Machine, ops: seq<Op>, m: Mm): nat
    requires Wf(s) && Runs(s, ops)
    decreases ops
  {
    if ops == [] then 0
    else
      StepWf(s, ops[0]);
      LostBy(s, ops[0], m) + Lost(Step(s, ops[0]), ops[1..], m)
  }

  lemma StepExcess(s: Machine, op: Op, m: Mm)
    requires Wf(s) && Enabled(s, op)
    ensures Excess(Step(s, op), m) == Excess(s, m) + LostBy(s, op, m)
  {
    hide Excess, Fork, Switch, Finish, Borrows, Wf;
    match op
    case ForkOp(cpu, p) => ForkExcess(s, cpu, p, m);
    case SwitchOp(cpu, next) => SwitchExcess(s, cpu, next, m);
    case FinishOp(cpu) => FinishExcess(s, cpu, m);
  }

  /** The books of a whole run: what is counted beyond what is held grows by exactly what the run loses. */
  lemma {:induction false} RunExcess(s: Machine, ops: seq<Op>, m: Mm)
    requires Wf(s) && Runs(s, ops)
    ensures Wf(After(s, ops)) && Excess(After(s, ops), m) == Excess(s, m) + Lost(s, ops, m)
    decreases ops
  {
    hide Excess, Enabled, Step, LostBy, Wf;
    if ops != [] {
      StepWf(s, ops[0]);
      StepExcess(s, ops[0], m);
      RunExcess(Step(s, ops[0]), ops[1..], m);
    }
  }

  ghost predicate Balanced(s: Machine) {
    forall m: Mm :: Excess(s, m) == 0
  }

  ghost predicate LosesNothing(s: Machine, ops: seq<Op>)
    requires Wf(s) && Runs(s, ops)
  {
    forall m: Mm :: Lost(s, ops, m) == 0
  }

  /** Exact counts stay exact exactly when the run loses nothing. */
  lemma ExactIffNothingLost(s: Machine, ops: seq<Op>)
    requires Wf(s) && Runs(s, ops) && Balanced(s)
    ensures Balanced(After(s, ops)) <==> LosesNothing(s, ops)
  {
    hide Excess;
    if Balanced(After(s, ops)) {
      forall m: Mm
        ensures Lost(s, ops, m) == 0
      {
        RunExcess(s, ops, m);
      }
    }
    if LosesNothing(s, ops) {
      forall m: Mm
        ensures Excess(After(s, ops), m) == 0
      {
        RunExcess(s, ops, m);
      }
    }
  }

  ghost predicate Scheduled(ops: seq<Op>, p: Tid) {
    exists i :: 0 <= i < |ops| && ops[i].SwitchOp? && ops[i].next == p
  }

  /** Until it is first scheduled, a forked kernel thread still refers to what it was forked on. */
  lemma StepWaits(s: Machine, op: Op, p: Tid, m: Mm)
    requires Wf(s) && Enabled(s, op) && p in s.tasks && Borrows(s.tasks[p], m) && !Running(s, p)
    requires !(op.SwitchOp? && op.next == p)
    ensures var r := Step(s, op); p in r.tasks && Borrows(r.tasks[p], m) && !Running(r, p)
  {
    var r := Step(s, op);
    forall c | c in r.cpus
      ensures r.cpus[c].curr != p
    {
      assert c in s.cpus && s.cpus[c].curr != p;
    }
  }

  lemma {:induction false} WaiterLost(s: Machine, ops: seq<Op>, p: Tid, m: Mm)
    requires Wf(s) && Runs(s, ops) && Scheduled(ops, p) && p in s.tasks && Borrows(s.tasks[p], m) && !Running(s, p)
    ensures Lost(s, ops, m) >= 1
    decreases ops
  {
    StepWf(s, ops[0]);
    if !(ops[0].SwitchOp? && ops[0].next == p) {
      StepWaits(s, ops[0], p, m);
      var i :| 0 <= i < |ops| && ops[i].SwitchOp? && ops[i].next == p;
      assert ops[1..][i - 1] == ops[i];
      hide Wf, Step, Running, LostBy;
      WaiterLost(Step(s, ops[0]), ops[1..], p, m);
    }
  }

  /**
   The reference a kernel-thread fork takes is never given back: once the thread has been scheduled, however
   the run goes on, the address space it was forked on is counted once more than anybody holds it.
   */
  lemma ForkLeaks(s: Machine, cpu: nat, p: Tid, m: Mm, ops: seq<Op>)
    requires Wf(s) && Enabled(s, ForkOp(cpu, p)) && s.tasks[s.cpus[cpu].curr].active == Some(m)
    requires Wf(Fork(s, cpu, p)) && Runs(Fork(s, cpu, p), ops) && Scheduled(ops, p)
    ensures Excess(After(Fork(s, cpu, p), ops), m) >= Excess(s, m) + 1
  {
    var f := Fork(s, cpu, p);
    assert forall c :: c in f.cpus ==> s.cpus[c].curr in s.tasks;
    assert f.tasks[p] == Task(None, Some(m)) && !Running(f, p);
    ForkExcess(s, cpu, p, m);
    hide Excess, Lost, After, Runs, Wf, Fork;
    RunExcess(f, ops, m);
    WaiterLost(f, ops, p, m);
  }

  // ----- what each operation does, and on which address space tasks run

  /**
   A switch: the next task runs. A kernel thread takes the address space of its predecessor, which gives it up if
   it only borrowed it and leaves the drop to the queue. Nobody else is touched.
   */
  lemma SwitchFrame(s: Machine, cpu: nat, next: Tid)
    requires Wf(s) && Enabled(s, SwitchOp(cpu, next))
    ensures var r, prev := Switch(s, cpu, next), s.cpus[cpu].curr;
            && r.tasks.Keys == s.tasks.Keys && r.cpus.Keys == s.cpus.Keys && r.owned == s.owned && prev != next
            && r.cpus[cpu].curr == next
            && r.tasks[next].mm == s.tasks[next].mm
            && r.tasks[next].active == (if s.tasks[next].mm.Some? then s.tasks[next].mm else s.tasks[prev].active)
            && r.tasks[prev].mm == s.tasks[prev].mm
            && r.tasks[prev].active == (if s.tasks[prev].mm.Some? then s.tasks[prev].mm else None)
            && r.cpus[cpu].prevMm == (if s.tasks[prev].mm.Some? then s.cpus[cpu].prevMm else s.tasks[prev].active)
            && (forall t :: t in s.tasks && t != prev && t != next ==> r.tasks[t] == s.tasks[t])
            && (forall c :: c in s.cpus && c != cpu ==> r.cpus[c] == s.cpus[c])
  {
    assert Running(s, s.cpus[cpu].curr);
  }

  /** A fork: the new kernel thread shares, and counts, what its creator runs on. */
  lemma ForkFrame(s: Machine, cpu: nat, p: Tid)
    requires Wf(s) && Enabled(s, ForkOp(cpu, p))
    ensures var r, active := Fork(s, cpu, p), s.tasks[s.cpus[cpu].curr].active;
            && r.tasks == s.tasks[p := Task(None, active)] && r.cpus == s.cpus && r.owned == s.owned
            && forall m: Mm :: Count(r, m) == Count(s, m) + One(active == Some(m))
  {
  }

  /** Finishing a switch drops what the queue was left to drop, once, and nothing else. */
  lemma FinishFrame(s: Machine, cpu: nat)
    requires cpu in s.cpus
    ensures var r := Finish(s, cpu);
            && r.tasks == s.tasks && r.cpus == s.cpus[cpu := s.cpus[cpu].(prevMm := None)]
            && forall m: Mm :: Count(r, m) == Count(s, m) - One(s.cpus[cpu].prevMm == Some(m))
  {
  }

  /** The address space loaded on each queue's processor: it changes only when a user task comes in. */
  function Reloaded(s: Machine, op: Op, loaded: map<nat, Mm>): map<nat, Mm> {
    if op.SwitchOp? && op.next in s.tasks && s.tasks[op.next].mm.Some?
    then loaded[op.cpu := s.tasks[op.next].mm.value] else loaded
  }

  ghost function LoadedAfter(s: Machine, ops: seq<Op>, loaded: map<nat, Mm>): map<nat, Mm>
    requires Wf(s) && Runs(s, ops)
    decreases ops
  {
    if ops == [] then loaded
    else
      StepWf(s, ops[0]);
      LoadedAfter(Step(s, ops[0]), ops[1..], Reloaded(s, ops[0], loaded))
  }

  /** Whoever runs, runs on what is loaded. */
  ghost predicate OnLoaded(s: Machine, loaded: map<nat, Mm>)
    requires Wf(s)
  {
    forall c :: c in s.cpus ==> c in loaded && s.tasks[s.cpus[c].curr].active == Some(loaded[c])
  }

  lemma StepOnLoaded(s: Machine, op: Op, loaded: map<nat, Mm>)
    requires Wf(s) && Enabled(s, op) && OnLoaded(s, loaded)
    ensures Wf(Step(s, op)) && OnLoaded(Step(s, op), Reloaded(s, op, loaded))
  {
    StepWf(s, op);
    match op
    case ForkOp(cpu, p) =>
      assert forall c :: c in s.cpus ==> s.cpus[c].curr in s.tasks;
    case FinishOp(cpu) => FinishFrame(s, cpu);
    case SwitchOp(cpu, next) => SwitchOnLoaded(s, cpu, next, loaded);
  }

  lemma SwitchOnLoaded(s: Machine, cpu: nat, next: Tid, loaded: map<nat, Mm>)
    requires Wf(s) && Enabled(s, SwitchOp(cpu, next)) && OnLoaded(s, loaded) && Wf(Switch(s, cpu, next))
    ensures OnLoaded(Switch(s, cpu, next), Reloaded(s, SwitchOp(cpu, next), loaded))
  {
    SwitchFrame(s, cpu, next);
    hide Switch;
    var r := Switch(s, cpu, next);
    forall c | c in r.cpus && c != cpu
      ensures r.tasks[r.cpus[c].curr] == s.tasks[s.cpus[c].curr]
    {
      assert Running(s, s.cpus[c].curr);
      assert s.cpus[c].curr != s.cpus[cpu].curr && s.cpus[c].curr != next;
    }
  }

  /**
   In every run each processor's task runs on the address space loaded there, which is that of the last user task
   that ran there: a kernel thread never runs on an address space that is not in place.
   */
  lemma {:induction false} RunsOnLoaded(s: Machine, ops: seq<Op>, loaded: map<nat, Mm>)
    requires Wf(s) && Runs(s, ops) && OnLoaded(s, loaded)
    ensures Wf(After(s, ops)) && OnLoaded(After(s, ops), LoadedAfter(s, ops, loaded))
    decreases ops
  {
    hide OnLoaded, Enabled, Step, Reloaded, Wf;
    if ops != [] {
      StepWf(s, ops[0]);
      StepOnLoaded(s, ops[0], loaded);
      RunsOnLoaded(Step(s, ops[0]), ops[1..], Reloaded(s, ops[0], loaded));
    }
  }

  // ----- the same, in place

  class Scheduler {
    var tasks: map<Tid, Task>
    var cpus: map<nat, Cpu>
    var count: map<Mm, int>
    const owned: set<Mm>

    ghost function State(): Machine
      reads this
    {
      Machine(tasks, cpus, count, owned)
    }

    /** atomic_inc of, or mmdrop on, mm_count. */
    method AddCount(m: Mm, d: int)
      modifies this`count
      ensures State() == Counted(old(State()), Some(m), d)
    {
      count := count[m := (if m in count then count[m] else 0) + d];
    }

    /** The kernel-thread branch of sched_fork. */
    method SchedForkKthread(cpu: nat, p: Tid)
      requires cpu in cpus && cpus[cpu].curr in tasks
      modifies this
      ensures State() == Fork(old(State()), cpu, p)
    {
      var active := tasks[cpus[cpu].curr].active;
      tasks := tasks[p := Task(None, active)];
      if active.Some? {
        AddCount(active.value, 1);
      }
    }

    /** context_switch; a running task always has an active address space. */
    method ContextSwitch(cpu: nat, next: Tid)
      requires Wf(State()) && Enabled(State(), SwitchOp(cpu, next))
      modifies this
      ensures State() == Switch(old(State()), cpu, next)
    {
      assert Running(State(), cpus[cpu].curr);
      var prev := cpus[cpu].curr;
      var mm, oldmm := tasks[next].mm, tasks[prev].active;
      if mm.None? {
        tasks := tasks[next := tasks[next].(active := oldmm)];
        AddCount(oldmm.value, 1);
      }
      if tasks[prev].mm.None? {
        tasks := tasks[prev := tasks[prev].(active := None)];
        cpus := cpus[cpu := cpus[cpu].(prevMm := oldmm)];
      }
      cpus := cpus[cpu := cpus[cpu].(curr := next)];
    }

    /** finish_task_switch. */
    method FinishTaskSwitch(cpu: nat)
      requires cpu in cpus
      modifies this
      ensures State() == Finish(old(State()), cpu)
    {
      var mm := cpus[cpu].prevMm;
      cpus := cpus[cpu := cpus[cpu].(prevMm := None)];
      if mm.Some? {
        AddCount(mm.value, -1);
      }
    }
  }
}
