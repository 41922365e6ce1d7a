/**
 Hierarchical run queues: enqueue_task_fair and dequeue_task_fair walk from a task to the root in two loops,
 and every queue's h_nr_running stays the number of queued tasks below it. No queue is throttled.
 */
module Hierarchy {

  type Id = nat

  /** A run queue: the root's, or the one a group entity owns. */
  datatype QueueId = Root | Of(group: Id)

  datatype Cursor = End | Here(e: Id)

  /** The fixed tree of entities: `parent` of those not at the top, and a depth that falls towards the root. */
  datatype Forest = Forest(parent: map<Id, Id>, depth: map<Id, nat>, tasks: set<Id>)

  datatype Rq = Rq(onRq: set<Id>, hNr: map<QueueId, int>)

  function Depth(f: Forest, e: Id): nat {
    if e in f.depth then f.depth[e] else 0
  }

  /** Parents are group entities, one level up or more. */
  ghost predicate Shape(f: Forest) {
    forall e :: e in f.parent ==> Depth(f, f.parent[e]) < Depth(f, e) && f.parent[e] !in f.tasks
  }

  /** cfs_rq_of. */
  function QueueOf(f: Forest, e: Id): QueueId {
    if e in f.parent then Of(f.parent[e]) else Root
  }

  /** parent_entity. */
  function Up(f: Forest, e: Id): Cursor {
    if e in f.parent then Here(f.parent[e]) else End
  }

  function Nr(r: Rq, q: QueueId): int {
    if q in r.hNr then r.hNr[q] else 0
  }

  function Bump(r: Rq, q: QueueId, d: int): Rq {
    r.(hNr := r.hNr[q := Nr(r, q) + d])
  }

  function Height(f: Forest, c: Cursor): nat {
    match c
    case End => 0
    case Here(e) => Depth(f, e) + 1
  }

  datatype Walk = Walk(r: Rq, at: Cursor)

  /** The first loop of enqueue_task_fair: queue entities up to the first that already is. */
  function EnqueueClimb(f: Forest, r: Rq, c: Cursor): Walk
    requires Shape(f)
    decreases Height(f, c)
  {
    match c
    case End => Walk(r, End)
    case Here(e) =>
      if e in r.onRq then Walk(r, c)
      else EnqueueClimb(f, Bump(r.(onRq := r.onRq + {e}), QueueOf(f, e), 1), Up(f, e))
  }

  /** The second loop of either function: only count. */
  function CountUp(f: Forest, r: Rq, c: Cursor, d: int): Rq
    requires Shape(f)
    decreases Height(f, c)
  {
    match c
    case End => r
    case Here(e) => CountUp(f, Bump(r, QueueOf(f, e), d), Up(f, e), d)
  }

  function EnqueueTask(f: Forest, r: Rq, t: Id): Rq
    requires Shape(f)
  {
    var w := EnqueueClimb(f, r, Here(t));
    CountUp(f, w.r, w.at, 1)
  }

  /** The queue of `e` still has load: some entity is queued on it. Weights are positive. */
  predicate Loaded(f: Forest, on: set<Id>, q: QueueId) {
    exists x :: x in on && QueueOf(f, x) == q
  }

  /** The first loop of dequeue_task_fair: take entities off until a queue keeps some load. */
  function DequeueClimb(f: Forest, r: Rq, c: Cursor): Walk
    requires Shape(f)
    decreases Height(f, c)
  {
    match c
    case End => Walk(r, End)
    case Here(e) =>
      var r1 := Bump(r.(onRq := r.onRq - {e}), QueueOf(f, e), -1);
      if Loaded(f, r1.onRq, QueueOf(f, e)) then Walk(r1, Up(f, e)) else DequeueClimb(f, r1, Up(f, e))
  }

  function DequeueTask(f: Forest, r: Rq, t: Id): Rq
    requires Shape(f)
  {
    var w := DequeueClimb(f, r, Here(t));
    CountUp(f, w.r, w.at, -1)
  }

  // ----- the specification

  /** The queues on the way from an entity to the root. */
  function PathQueues(f: Forest, c: Cursor): set<QueueId>
    requires Shape(f)
    decreases Height(f, c)
  {
    match c
    case End => {}
    case Here(e) => {QueueOf(f, e)} + PathQueues(f, Up(f, e))
  }

  /** The queued tasks below a queue. */
  ghost function Below(f: Forest, r: Rq, q: QueueId): set<Id>
    requires Shape(f)
  {
    set t | t in r.onRq && t in f.tasks && q in PathQueues(f, Here(t))
  }

  /** Each h_nr_running counts the queued tasks below; a group is queued exactly when its own queue has something. */
  ghost predicate Ok(f: Forest, r: Rq)
    requires Shape(f)
  {
    && (forall q :: Nr(r, q) == |Below(f, r, q)|)
    && Groups(f, r.onRq)
  }

  // ----- counting along the path

  lemma {:induction false} PathHigher(f: Forest, c: Cursor, g: Id)
    requires Shape(f) && Of(g) in PathQueues(f, c)
    ensures Depth(f, g) + 1 < Height(f, c)
    decreases Height(f, c)
  {
    var e := c.e;
    if QueueOf(f, e) != Of(g) { PathHigher(f, Up(f, e), g); }
  }

  lemma QueueOnce(f: Forest, e: Id)
    requires Shape(f)
    ensures QueueOf(f, e) !in PathQueues(f, Up(f, e))
  {
    if e in f.parent && Of(f.parent[e]) in PathQueues(f, Here(f.parent[e])) {
      PathHigher(f, Here(f.parent[e]), f.parent[e]);
    }
  }

  /** Adding `d` to exactly the queues on a path. */
  ghost predicate Counted(f: Forest, r: Rq, r': Rq, c: Cursor, d: int)
    requires Shape(f)
  {
    forall q :: Nr(r', q) == Nr(r, q) + (if q in PathQueues(f, c) then d else 0)
  }

  lemma BumpNr(r: Rq, q: QueueId, d: int)
    ensures forall p :: Nr(Bump(r, q, d), p) == Nr(r, p) + (if p == q then d else 0)
  {
  }

  /** One step of a walk, then the rest of it, counts the whole path once. */
  lemma CountedStep(f: Forest, r: Rq, s: Rq, r': Rq, e: Id, d: int)
    requires Shape(f) && s.hNr == Bump(r, QueueOf(f, e), d).hNr && Counted(f, s, r', Up(f, e), d)
    ensures Counted(f, r, r', Here(e), d)
  {
    QueueOnce(f, e);
    BumpNr(r, QueueOf(f, e), d);
    assert forall q :: Nr(s, q) == Nr(Bump(r, QueueOf(f, e), d), q);
    hide Bump, QueueOf, Nr, Up;
  }

  lemma {:induction false} CountUpCounts(f: Forest, r: Rq, c: Cursor, d: int)
    requires Shape(f)
    ensures Counted(f, r, CountUp(f, r, c, d), c, d) && CountUp(f, r, c, d).onRq == r.onRq
    decreases Height(f, c)
  {
    hide Counted;
    match c
    case End => CountedNothing(f, r, d);
    case Here(e) =>
      var s := Bump(r, QueueOf(f, e), d);
      CountUpCounts(f, s, Up(f, e), d);
      CountedStep(f, r, s, CountUp(f, s, Up(f, e), d), e, d);
  }

  lemma CountedNothing(f: Forest, r: Rq, d: int)
    requires Shape(f)
    ensures Counted(f, r, r, End, d)
  {
  }

  // ----- enqueue

  /** What the first loop may put on queues: the start, and the groups above it, up to a queued one or the root. */
  ghost predicate Climbed(f: Forest, on: set<Id>, on': set<Id>, c: Cursor) {
    && on <= on'
    && (forall x :: x in on' && x !in on ==> QueueOf(f, x).Root? || QueueOf(f, x).group in on')
    && (forall x :: x in on' && x !in on ==> c == Here(x) || (x !in f.tasks && exists y :: y in on' && QueueOf(f, y) == Of(x)))
    && (c.Here? ==> c.e in on')
  }

  lemma {:induction false} EnqueueWalk(f: Forest, r: Rq, c: Cursor)
    requires Shape(f)
    ensures var w := EnqueueClimb(f, r, c); var r' := CountUp(f, w.r, w.at, 1);
            Counted(f, r, r', c, 1) && r'.onRq == w.r.onRq && Climbed(f, r.onRq, r'.onRq, c)
    decreases Height(f, c)
  {
    match c
    case End => CountUpCounts(f, r, c, 1);
    case Here(e) =>
      if e in r.onRq {
        CountUpCounts(f, r, c, 1);
      } else {
        var s := Bump(r.(onRq := r.onRq + {e}), QueueOf(f, e), 1);
        EnqueueWalk(f, s, Up(f, e));
        var w := EnqueueClimb(f, s, Up(f, e));
        var r' := CountUp(f, w.r, w.at, 1);
        CountedStep(f, r, s, r', e, 1);
        ClimbedStep(f, r.onRq, r'.onRq, e);
      }
  }

  lemma ClimbedStep(f: Forest, on: set<Id>, on': set<Id>, e: Id)
    requires Shape(f) && e !in on && Climbed(f, on + {e}, on', Up(f, e))
    ensures Climbed(f, on, on', Here(e))
  {
    forall x | x in on' && x !in on
      ensures Here(e) == Here(x) || (x !in f.tasks && exists y :: y in on' && QueueOf(f, y) == Of(x))
    {
      if x != e && Up(f, e) == Here(x) {
        assert e in on' && QueueOf(f, e) == Of(x);
      }
    }
  }

  /** Enqueueing a task adds one to every queue on its path, once, and keeps the groups in step. */
  lemma EnqueueOk(f: Forest, r: Rq, t: Id)
    requires Shape(f) && Ok(f, r) && t in f.tasks && t !in r.onRq
    ensures Ok(f, EnqueueTask(f, r, t))
    ensures Counted(f, r, EnqueueTask(f, r, t), Here(t), 1)
  {
    var r' := EnqueueTask(f, r, t);
    EnqueueWalk(f, r, Here(t));
    forall q
      ensures Nr(r', q) == |Below(f, r', q)|
    {
      BelowAdd(f, r, r', t, q);
    }
    GroupsAfterEnqueue(f, r, r', t);
  }

  lemma BelowAdd(f: Forest, r: Rq, r': Rq, t: Id, q: QueueId)
    requires Shape(f) && t in f.tasks && t !in r.onRq && Climbed(f, r.onRq, r'.onRq, Here(t))
    ensures |Below(f, r', q)| == |Below(f, r, q)| + (if q in PathQueues(f, Here(t)) then 1 else 0)
  {
    var B, B' := Below(f, r, q), Below(f, r', q);
    if q in PathQueues(f, Here(t)) {
      assert B' == B + {t};
    } else {
      assert B' == B;
    }
  }

  lemma GroupsAfterEnqueue(f: Forest, r: Rq, r': Rq, t: Id)
    requires Shape(f) && Ok(f, r) && t in f.tasks && Climbed(f, r.onRq, r'.onRq, Here(t))
    ensures Groups(f, r'.onRq)
  {
    hide PathQueues, Below, Nr;
    forall g | g !in f.tasks
      ensures g in r'.onRq <==> Loaded(f, r'.onRq, Of(g))
    {
      if g in r.onRq {
        var x :| x in r.onRq && QueueOf(f, x) == Of(g);
        assert x in r'.onRq;
      }
      if x :| x in r'.onRq && QueueOf(f, x) == Of(g) {
        if x in r.onRq { assert Loaded(f, r.onRq, Of(g)); }
      }
    }
  }

  // ----- dequeue

  /** What the first loop takes off: the entities along the path whose queues it emptied below. */
  lemma {:induction false} DequeueWalk(f: Forest, r: Rq, c: Cursor)
    requires Shape(f) && (c.Here? ==> c.e in r.onRq) && Upward(f, r.onRq)
    requires c.Here? ==> GroupsBut(f, r.onRq, c.e)
    requires c.End? ==> Groups(f, r.onRq)
    ensures var w := DequeueClimb(f, r, c); var r' := CountUp(f, w.r, w.at, -1);
            && Counted(f, r, r', c, -1) && r'.onRq == w.r.onRq && r'.onRq <= r.onRq
            && Groups(f, r'.onRq) && Upward(f, r'.onRq)
            && (forall x :: x in r.onRq && x !in r'.onRq ==> c == Here(x) || x !in f.tasks)
            && (c.Here? ==> c.e !in r'.onRq)
    decreases Height(f, c)
  {
    hide Groups, GroupsBut, Upward, Counted, Loaded, PathQueues;
    match c
    case End => CountUpCounts(f, r, c, -1);
    case Here(e) =>
      var s := Bump(r.(onRq := r.onRq - {e}), QueueOf(f, e), -1);
      StepDown(f, r, s, e);
      if Loaded(f, s.onRq, QueueOf(f, e)) {
        CountUpCounts(f, s, Up(f, e), -1);
        CountedStep(f, r, s, CountUp(f, s, Up(f, e), -1), e, -1);
      } else {
        DequeueWalk(f, s, Up(f, e));
        var w := DequeueClimb(f, s, Up(f, e));
        CountedStep(f, r, s, CountUp(f, w.r, w.at, -1), e, -1);
      }
  }

  /** Everything queued has its whole path queued. */
  ghost predicate Upward(f: Forest, on: set<Id>) {
    forall x :: x in on && x in f.parent ==> f.parent[x] in on
  }

  /** Groups are queued exactly when their queue is not empty, and tasks own no queue. */
  ghost predicate Groups(f: Forest, on: set<Id>) {
    && (forall g :: g !in f.tasks ==> (g in on <==> Loaded(f, on, Of(g))))
    && (forall g :: g in f.tasks ==> !Loaded(f, on, Of(g)))
  }

  /** The same, except that `e` is still queued although nothing is left on its own queue. */
  ghost predicate GroupsBut(f: Forest, on: set<Id>, e: Id) {
    && !Loaded(f, on, Of(e))
    && (forall g :: g !in f.tasks && g != e ==> (g in on <==> Loaded(f, on, Of(g))))
    && (forall g :: g in f.tasks ==> !Loaded(f, on, Of(g)))
  }

  lemma StepDown(f: Forest, r: Rq, s: Rq, e: Id)
    requires Shape(f) && e in r.onRq && Upward(f, r.onRq) && GroupsBut(f, r.onRq, e) && s.onRq == r.onRq - {e}
    ensures Upward(f, s.onRq)
    ensures Loaded(f, s.onRq, QueueOf(f, e)) || e !in f.parent ==> Groups(f, s.onRq)
    ensures !Loaded(f, s.onRq, QueueOf(f, e)) && e in f.parent ==> f.parent[e] in s.onRq && GroupsBut(f, s.onRq, f.parent[e])
  {
    forall g
      ensures Loaded(f, s.onRq, Of(g)) ==> Loaded(f, r.onRq, Of(g))
      ensures Loaded(f, r.onRq, Of(g)) && QueueOf(f, e) != Of(g) ==> Loaded(f, s.onRq, Of(g))
    {
      if x :| x in s.onRq && QueueOf(f, x) == Of(g) { assert x in r.onRq; }
      if x :| x in r.onRq && QueueOf(f, x) == Of(g) { assert QueueOf(f, e) != Of(g) ==> x in s.onRq; }
    }
    forall x | x in s.onRq && x in f.parent
      ensures f.parent[x] in s.onRq
    {
      assert QueueOf(f, x) == Of(f.parent[x]);
      assert f.parent[x] == e ==> Loaded(f, r.onRq, Of(e));
    }
    if e in f.parent { assert f.parent[e] in r.onRq && f.parent[e] != e; }
    hide Loaded;
  }

  lemma OkUpward(f: Forest, r: Rq, t: Id)
    requires Shape(f) && Ok(f, r) && t in f.tasks
    ensures Upward(f, r.onRq) && Groups(f, r.onRq) && GroupsBut(f, r.onRq, t)
  {
    forall x | x in r.onRq && x in f.parent
      ensures f.parent[x] in r.onRq
    {
      assert QueueOf(f, x) == Of(f.parent[x]);
      assert Loaded(f, r.onRq, Of(f.parent[x]));
    }
  }

  lemma BelowDrop(f: Forest, r: Rq, r': Rq, t: Id, q: QueueId)
    requires Shape(f) && t in f.tasks && t in r.onRq && t !in r'.onRq && r'.onRq <= r.onRq
    requires forall x :: x in r.onRq && x !in r'.onRq ==> x == t || x !in f.tasks
    ensures |Below(f, r', q)| == |Below(f, r, q)| - (if q in PathQueues(f, Here(t)) then 1 else 0)
  {
    var B, B' := Below(f, r, q), Below(f, r', q);
    if q in PathQueues(f, Here(t)) {
      assert B == B' + {t};
    } else {
      assert B' == B;
    }
  }

  /** Dequeueing a task takes one from every queue on its path, once, and keeps the groups in step. */
  lemma DequeueOk(f: Forest, r: Rq, t: Id)
    requires Shape(f) && Ok(f, r) && t in f.tasks && t in r.onRq
    ensures Ok(f, DequeueTask(f, r, t))
    ensures Counted(f, r, DequeueTask(f, r, t), Here(t), -1)
  {
    var r' := DequeueTask(f, r, t);
    OkUpward(f, r, t);
    DequeueWalk(f, r, Here(t));
    forall q
      ensures Nr(r', q) == |Below(f, r', q)|
    {
      BelowDrop(f, r, r', t, q);
    }
  }

  // ----- runs

  datatype Op = Enq(t: Id) | Deq(t: Id)

  predicate Enabled(f: Forest, r: Rq, op: Op) {
    match op
    case Enq(t) => t in f.tasks && t !in r.onRq
    case Deq(t) => t in f.tasks && t in r.onRq
  }

  function Step(f: Forest, r: Rq, op: Op): Rq
    requires Shape(f)
  {
    match op
    case Enq(t) => EnqueueTask(f, r, t)
    case Deq(t) => DequeueTask(f, r, t)
  }

  ghost predicate Runs(f: Forest, r: Rq, ops: seq<Op>)
    requires Shape(f)
    decreases ops
  {
    ops == [] || (Enabled(f, r, ops[0]) && Runs(f, Step(f, r, ops[0]), ops[1..]))
  }

  function After(f: Forest, r: Rq, ops: seq<Op>): Rq
    requires Shape(f)
    decreases ops
  {
    if ops == [] then r else After(f, Step(f, r, ops[0]), ops[1..])
  }

  lemma EmptyOk(f: Forest)
    requires Shape(f)
    ensures Ok(f, Rq({}, map[]))
  {
    assert forall q :: Below(f, Rq({}, map[]), q) == {};
  }

  /** In every run, h_nr_running counts the queued tasks of each subtree, and groups are queued with their queues. */
  lemma {:induction false} RunCounts(f: Forest, r: Rq, ops: seq<Op>)
    requires Shape(f) && Ok(f, r) && Runs(f, r, ops)
    ensures Ok(f, After(f, r, ops))
    decreases ops
  {
    hide Ok, EnqueueTask, DequeueTask, Shape;
    if ops != [] {
      match ops[0] {
        case Enq(t) => EnqueueOk(f, r, t);
        case Deq(t) => DequeueOk(f, r, t);
      }
      RunCounts(f, Step(f, r, ops[0]), ops[1..]);
    }
  }

  /** From empty queues: the counts are those of the tasks queued at the end, whatever the run did in between. */
  lemma RunFromEmpty(f: Forest, ops: seq<Op>)
    requires Shape(f) && Runs(f, Rq({}, map[]), ops)
    ensures var r := After(f, Rq({}, map[]), ops); forall q :: Nr(r, q) == |Below(f, r, q)|
    ensures var r := After(f, Rq({}, map[]), ops); forall g :: g !in f.tasks ==> (g in r.onRq <==> Loaded(f, r.onRq, Of(g)))
  {
    EmptyOk(f);
    RunCounts(f, Rq({}, map[]), ops);
    hide After, Runs, Below, Nr, Loaded;
  }

  // ----- the loops, in place

  class Scheduler {
    const f: Forest
    var onRq: set<Id>
    var hNr: map<QueueId, int>
    var nrRunning: int

    ghost function State(): Rq
      reads this
    {
      Rq(onRq, hNr)
    }

    constructor (f: Forest)
      ensures this.f == f && State() == Rq({}, map[]) && nrRunning == 0
    {
      this.f := f;
      onRq, hNr, nrRunning := {}, map[], 0;
    }

    /** enqueue_task_fair. */
    method Enqueue(t: Id)
      requires Shape(f)
      modifies this
      ensures State() == EnqueueTask(f, old(State()), t) && nrRunning == old(nrRunning) + 1
    {
      ghost var r := State();
      var se := Here(t);
      while se.Here?
        invariant EnqueueClimb(f, State(), se) == EnqueueClimb(f, r, Here(t)) && nrRunning == old(nrRunning)
        decreases Height(f, se)
      {
        if se.e in onRq {
          break;
        }
        onRq := onRq + {se.e};
        hNr := Bump(Rq(onRq, hNr), QueueOf(f, se.e), 1).hNr;
        se := Up(f, se.e);
      }
      ghost var w := EnqueueClimb(f, r, Here(t));
      assert State() == w.r && se == w.at;
      while se.Here?
        invariant CountUp(f, State(), se, 1) == CountUp(f, w.r, w.at, 1) && nrRunning == old(nrRunning)
        decreases Height(f, se)
      {
        hNr := Bump(Rq(onRq, hNr), QueueOf(f, se.e), 1).hNr;
        se := Up(f, se.e);
      }
      nrRunning := nrRunning + 1;
    }

    /** dequeue_task_fair. */
    method Dequeue(t: Id)
      requires Shape(f)
      modifies this
      ensures State() == DequeueTask(f, old(State()), t) && nrRunning == old(nrRunning) - 1
    {
      ghost var r := State();
      ghost var w := DequeueClimb(f, r, Here(t));
      var se := Here(t);
      var done := false;
      while se.Here? && !done
        invariant !done ==> DequeueClimb(f, State(), se) == w
        invariant done ==> State() == w.r && se == w.at
        invariant nrRunning == old(nrRunning)
        decreases Height(f, se), !done
      {
        var e := se.e;
        onRq := onRq - {e};
        hNr := Bump(Rq(onRq, hNr), QueueOf(f, e), -1).hNr;
        done := Loaded(f, onRq, QueueOf(f, e));
        se := Up(f, e);
      }
      while se.Here?
        invariant CountUp(f, State(), se, -1) == CountUp(f, w.r, w.at, -1) && nrRunning == old(nrRunning)
        decreases Height(f, se)
      {
        hNr := Bump(Rq(onRq, hNr), QueueOf(f, se.e), -1).hNr;
        se := Up(f, se.e);
      }
      nrRunning := nrRunning - 1;
    }
  }
}
