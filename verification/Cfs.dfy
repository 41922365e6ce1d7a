/**
 The fair run queue of kernel/core/sched/sched_fair.c as functions on a queue value. The arithmetic is a
 parameter: `Wrap` is the kernel's 64-bit modular arithmetic, `Wide` the same code over unbounded integers.
 */
module Cfs {
  import opened Common
  import opened FixedPoint

  type Id = nat

  datatype Mode = Wide | Wrap

  const S63: int := 0x8000_0000_0000_0000

  /** Storing a value in a u64. */
  function Store(a: Mode, x: int): int {
    if a.Wide? then x else x % U64
  }

  /** `(s64)(x - y)`. */
  function Diff(a: Mode, x: int, y: int): int {
    if a.Wide? then x - y
    else
      var d := (x - y) % U64;
      if d >= S63 then d - U64 else d
  }

  datatype Entity = Entity(vruntime: int, execStart: int, sumExec: int, weight: nat, onRq: bool)

  /**
   `timeline` is the in-order traversal of the tree; `leftmost` is the cached first node; `thresh` is the
   sleeper credit place_entity takes off; `next`, `last` and `skip` are the buddies.
   */
  datatype Queue = Queue(ents: map<Id, Entity>, timeline: seq<Id>, leftmost: Option<Id>, curr: Option<Id>,
                         minVruntime: int, nrRunning: int, thresh: nat,
                         next: Option<Id>, last: Option<Id>, skip: Option<Id>)

  function Ent(q: Queue, e: Id): Entity {
    if e in q.ents then q.ents[e] else Entity(0, 0, 0, 0, false)
  }

  function Vr(q: Queue, e: Id): int {
    Ent(q, e).vruntime
  }

  function OnRq(q: Queue, e: Id): bool {
    Ent(q, e).onRq
  }

  function SetEnt(q: Queue, e: Id, x: Entity): Queue {
    q.(ents := q.ents[e := x])
  }

  function SetVr(q: Queue, e: Id, v: int): Queue {
    SetEnt(q, e, Ent(q, e).(vruntime := v))
  }

  function SetOn(q: Queue, e: Id, on: bool): Queue {
    SetEnt(q, e, Ent(q, e).(onRq := on))
  }

  /** entity_key. */
  function Key(a: Mode, q: Queue, e: Id): int {
    Diff(a, Vr(q, e), q.minVruntime)
  }

  /** max_vruntime(x, y) and min_vruntime(x, y), comparing by signed difference. */
  function MaxVr(a: Mode, x: int, y: int): int {
    if Diff(a, y, x) > 0 then y else x
  }

  function MinVr(a: Mode, x: int, y: int): int {
    if Diff(a, y, x) < 0 then y else x
  }

  /** The place the tree descent finds: after every entry whose key is not greater. */
  function Insert(a: Mode, q: Queue, s: seq<Id>, e: Id): seq<Id> {
    if s == [] then [e]
    else if Key(a, q, e) < Key(a, q, s[0]) then [e] + s
    else [s[0]] + Insert(a, q, s[1..], e)
  }

  /** __enqueue_entity. */
  function Link(a: Mode, q: Queue, e: Id): Queue {
    var first := q.timeline == [] || Key(a, q, e) < Key(a, q, q.timeline[0]);
    q.(timeline := Insert(a, q, q.timeline, e), leftmost := if first then Some(e) else q.leftmost)
  }

  /** rb_next: the in-order successor. */
  function Successor(s: seq<Id>, e: Id): Option<Id> {
    if |s| < 2 then None else if s[0] == e then Some(s[1]) else Successor(s[1..], e)
  }

  /** __dequeue_entity. */
  function Unlink(q: Queue, e: Id): Queue {
    q.(leftmost := if q.leftmost == Some(e) then Successor(q.timeline, e) else q.leftmost,
       timeline := Without(q.timeline, e))
  }

  predicate CurrOn(q: Queue) {
    q.curr.Some? && OnRq(q, q.curr.value)
  }

  /** What update_min_vruntime compares min_vruntime with. */
  function Candidate(a: Mode, q: Queue): int {
    if q.leftmost.None? then (if CurrOn(q) then Vr(q, q.curr.value) else q.minVruntime)
    else if !CurrOn(q) then Vr(q, q.leftmost.value)
    else MinVr(a, Vr(q, q.curr.value), Vr(q, q.leftmost.value))
  }

  /** update_min_vruntime. */
  function UpdateMin(a: Mode, q: Queue): Queue {
    q.(minVruntime := MaxVr(a, q.minVruntime, Candidate(a, q)))
  }

  /** An entity charged `delta` of CPU time, up to clock reading `now`. */
  function ChargedEnt(a: Mode, x: Entity, now: int, delta: nat): Entity {
    x.(execStart := Store(a, now), sumExec := Store(a, x.sumExec + delta),
       vruntime := Store(a, x.vruntime + Charge(delta, x.weight)))
  }

  /** The entity `e` charged up to clock reading `now`. */
  function Charged(a: Mode, q: Queue, e: Id, now: int): Queue {
    var delta := Diff(a, now, Ent(q, e).execStart);
    if delta <= 0 then q else SetEnt(q, e, ChargedEnt(a, Ent(q, e), now, delta))
  }

  /** update_curr. */
  function UpdateCurr(a: Mode, q: Queue, now: int): Queue {
    if q.curr.None? || Diff(a, now, Ent(q, q.curr.value).execStart) <= 0 then q
    else UpdateMin(a, Charged(a, q, q.curr.value, now))
  }

  /** place_entity of a waking entity. */
  function Place(a: Mode, q: Queue, e: Id): Queue {
    SetVr(q, e, MaxVr(a, Vr(q, e), Store(a, q.minVruntime - q.thresh)))
  }

  /** enqueue_entity up to the placement: rebase, charge the current entity, account, place. */
  function Prepared(a: Mode, q: Queue, e: Id, wakeup: bool, waking: bool, now: int): Queue {
    var q1 := if !wakeup || waking then SetVr(q, e, Store(a, Vr(q, e) + q.minVruntime)) else q;
    var q2 := UpdateCurr(a, q1, now);
    var q3 := q2.(nrRunning := q2.nrRunning + 1);
    if wakeup then Place(a, q3, e) else q3
  }

  /** enqueue_entity; `now` is the clock reading of its update_curr. */
  function Enqueue(a: Mode, q: Queue, e: Id, wakeup: bool, waking: bool, now: int): Queue {
    var q4 := Prepared(a, q, e, wakeup, waking, now);
    var q5 := if q4.curr != Some(e) then Link(a, q4, e) else q4;
    SetOn(q5, e, true)
  }

  function ClearBuddies(q: Queue, e: Id): Queue {
    q.(next := if q.next == Some(e) then None else q.next,
       last := if q.last == Some(e) then None else q.last,
       skip := if q.skip == Some(e) then None else q.skip)
  }

  /** dequeue_entity up to taking the entity off the queue. */
  function Detached(a: Mode, q: Queue, e: Id, now: int): Queue {
    var q1 := ClearBuddies(UpdateCurr(a, q, now), e);
    var q2 := if q1.curr != Some(e) then Unlink(q1, e) else q1;
    SetOn(q2, e, false)
  }

  /** The accounting of a departure; only sleepers keep their absolute vruntime. */
  function Departed(a: Mode, q: Queue, e: Id, sleep: bool): Queue {
    var r := q.(nrRunning := q.nrRunning - 1);
    if !sleep then SetVr(r, e, Store(a, Vr(r, e) - r.minVruntime)) else r
  }

  /** dequeue_entity. */
  function Dequeue(a: Mode, q: Queue, e: Id, sleep: bool, now: int): Queue {
    UpdateMin(a, Departed(a, Detached(a, q, e, now), e, sleep))
  }

  /** put_prev_entity. */
  function PutPrev(a: Mode, q: Queue, e: Id, now: int): Queue {
    var q1 := if OnRq(q, e) then UpdateCurr(a, q, now) else q;
    var q2 := if OnRq(q1, e) then Link(a, q1, e) else q1;
    q2.(curr := None)
  }

  /** set_next_entity. */
  function SetNext(a: Mode, q: Queue, e: Id, now: int): Queue {
    var q1 := if OnRq(q, e) then Unlink(q, e) else q;
    var q2 := q1.(curr := Some(e));
    SetEnt(q2, e, Ent(q2, e).(execStart := Store(a, now)))
  }

  /** The outcomes of the three wakeup_preempt_entity tests of pick_next_entity, in order. */
  datatype Tests = Tests(second: bool, last: bool, next: bool)

  /** pick_next_entity with no current entity, as its caller passes it; before the buddies are cleared. */
  function Chosen(q: Queue, t: Tests): Option<Id> {
    var left := q.leftmost;
    var second := if left.Some? then Successor(q.timeline, left.value) else None;
    var s1 := if q.skip == left && second.Some? && t.second then second else left;
    var s2 := if q.last.Some? && t.last then q.last else s1;
    if q.next.Some? && t.next then q.next else s2
  }

  /** Clock readings of one pass through pick_next_task_fair: first charge, put, set. */
  datatype Clock = Clock(now: int, put: int, set_: int)

  datatype Picked = Picked(q: Queue, task: Option<Id>)

  /** pick_next_task_fair; `prevFair` says that the previous task is a fair task, the queue's current one. */
  function PickNext(a: Mode, q: Queue, prevFair: bool, c: Clock, t: Tests): Picked {
    if q.nrRunning == 0 then Picked(q, None)
    else if prevFair && q.curr.Some? then
      var prev := q.curr.value;
      var q1 := UpdateCurr(a, q, c.now);
      if Retains(a, q1, prev) then Picked(q1, Some(prev))
      else PickFresh(a, PutPrev(a, q1, prev, c.put), c, t)
    else PickFresh(a, q, c, t)
  }

  /** The previous task goes on: nothing queued has a smaller key. */
  predicate Retains(a: Mode, q: Queue, prev: Id) {
    OnRq(q, prev) && q.leftmost.Some? && Key(a, q, prev) <= Key(a, q, q.leftmost.value)
  }

  function PickFresh(a: Mode, q: Queue, c: Clock, t: Tests): Picked {
    match Chosen(q, t)
    case None => Picked(q, None)
    case Some(e) => Picked(SetNext(a, ClearBuddies(q, e), e, c.set_), Some(e))
  }

  datatype Buddy = Next | Last | Skip

  datatype Op =
    | Tick(now: int)
    | Enq(e: Id, wakeup: bool, waking: bool, now: int)
    | Deq(e: Id, sleep: bool, now: int)
    | Pick(prevFair: bool, clock: Clock, tests: Tests)
    | Put(now: int)
    | SetBuddy(which: Buddy, e: Id)

  /** When the kernel performs an operation; a pick without a fair previous task finds no current entity. */
  predicate Enabled(q: Queue, op: Op) {
    match op
    case Tick(_) => true
    case Enq(e, _, _, _) => e in q.ents && !OnRq(q, e)
    case Deq(e, _, _) => e in q.ents && OnRq(q, e)
    case Pick(prevFair, _, _) => prevFair == q.curr.Some?
    case Put(_) => q.curr.Some?
    case SetBuddy(_, e) => e in q.ents && OnRq(q, e)
  }

  function Step(a: Mode, q: Queue, op: Op): Queue
    requires Enabled(q, op)
  {
    match op
    case Tick(now) => UpdateCurr(a, q, now)
    case Enq(e, wakeup, waking, now) => Enqueue(a, q, e, wakeup, waking, now)
    case Deq(e, sleep, now) => Dequeue(a, q, e, sleep, now)
    case Pick(prevFair, clock, tests) => PickNext(a, q, prevFair, clock, tests).q
    case Put(now) => PutPrev(a, q, q.curr.value, now)
    case SetBuddy(which, e) =>
      match which {
        case Next => q.(next := Some(e))
        case Last => q.(last := Some(e))
        case Skip => q.(skip := Some(e))
      }
  }

  predicate Runs(a: Mode, q: Queue, ops: seq<Op>)
    decreases ops
  {
    ops == [] || (Enabled(q, ops[0]) && Runs(a, Step(a, q, ops[0]), ops[1..]))
  }

  function After(a: Mode, q: Queue, ops: seq<Op>): Queue
    requires Runs(a, q, ops)
    decreases ops
  {
    if ops == [] then q else After(a, Step(a, q, ops[0]), ops[1..])
  }
}
