/** The fair run queue in the form of the source: 64-bit fields updated in place over a search tree. */
module CfsQueue {
  import opened Common
  import opened FixedPoint
  import opened Cfs
  import opened CfsTimeline
  import opened CfsRuns
  import opened CfsWrap
  import opened CfsWindow

  /** The tree under tasks_timeline, without colours: only its in-order sequence matters. */
  datatype Tree = Leaf | Node(left: Tree, e: Id, right: Tree)

  function InOrder(t: Tree): seq<Id> {
    match t
    case Leaf => []
    case Node(l, e, r) => InOrder(l) + [e] + InOrder(r)
  }

  /** A link inside a tree, as the turns of the descent: true is right. */
  type Path = seq<bool>

  predicate Reaches(t: Tree, path: Path) {
    path == [] || (t.Node? && Reaches(if path[0] then t.right else t.left, path[1..]))
  }

  function At(t: Tree, path: Path): Tree
    requires Reaches(t, path)
  {
    if path == [] then t else At(if path[0] then t.right else t.left, path[1..])
  }

  /** rb_link_node: put a subtree at a link. */
  function Plug(t: Tree, path: Path, sub: Tree): Tree
    requires Reaches(t, path)
  {
    if path == [] then sub
    else if path[0] then t.(right := Plug(t.right, path[1..], sub))
    else t.(left := Plug(t.left, path[1..], sub))
  }

  /** The in-order sequences before and after a link. */
  function Before(t: Tree, path: Path): seq<Id>
    requires Reaches(t, path)
  {
    if path == [] then []
    else if path[0] then InOrder(t.left) + [t.e] + Before(t.right, path[1..])
    else Before(t.left, path[1..])
  }

  function Behind(t: Tree, path: Path): seq<Id>
    requires Reaches(t, path)
  {
    if path == [] then []
    else if path[0] then Behind(t.right, path[1..])
    else Behind(t.left, path[1..]) + [t.e] + InOrder(t.right)
  }

  lemma {:induction false} PlugInOrder(t: Tree, path: Path, sub: Tree)
    requires Reaches(t, path)
    ensures InOrder(Plug(t, path, sub)) == Before(t, path) + InOrder(sub) + Behind(t, path)
    ensures InOrder(t) == Before(t, path) + InOrder(At(t, path)) + Behind(t, path)
    decreases path
  {
    if path != [] {
      var down := if path[0] then t.right else t.left;
      PlugInOrder(down, path[1..], sub);
      Regroup(t, path, InOrder(sub));
      Regroup(t, path, InOrder(At(t, path)));
    }
  }

  /** Concatenation is associative around a node. */
  lemma Regroup(t: Tree, path: Path, m: seq<Id>)
    requires path != [] && Reaches(t, path)
    ensures var b, a := Before(if path[0] then t.right else t.left, path[1..]),
                        Behind(if path[0] then t.right else t.left, path[1..]);
            Before(t, path) + m + Behind(t, path) ==
            if path[0] then InOrder(t.left) + [t.e] + (b + m + a) else (b + m + a) + [t.e] + InOrder(t.right)
  {
    hide InOrder;
  }

  lemma {:induction false} Extend(t: Tree, path: Path, right: bool)
    requires Reaches(t, path) && At(t, path).Node?
    ensures var p := path + [right]; var n := At(t, path);
            && Reaches(t, p) && At(t, p) == (if right then n.right else n.left)
            && Before(t, p) == Before(t, path) + (if right then InOrder(n.left) + [n.e] else [])
            && Behind(t, p) == (if right then [] else [n.e] + InOrder(n.right)) + Behind(t, path)
    decreases path
  {
    if path != [] {
      hide InOrder;
      Extend(if path[0] then t.right else t.left, path[1..], right);
      assert (path + [right])[1..] == path[1..] + [right];
    } else {
      assert ([] + [right])[1..] == [];
    }
  }

  /** rb_erase, up to rebalancing: the first occurrence leaves, the rest keeps its order. */
  function Erase(t: Tree, e: Id): Tree {
    match t
    case Leaf => Leaf
    case Node(l, x, r) =>
      if e in InOrder(l) then Node(Erase(l, e), x, r)
      else if x == e then Join(l, r)
      else Node(l, x, Erase(r, e))
  }

  function Join(l: Tree, r: Tree): Tree {
    match l
    case Leaf => r
    case Node(ll, x, lr) => Node(ll, x, Join(lr, r))
  }

  lemma {:induction false} JoinInOrder(l: Tree, r: Tree)
    ensures InOrder(Join(l, r)) == InOrder(l) + InOrder(r)
  {
    match l
    case Leaf =>
    case Node(ll, x, lr) => JoinInOrder(lr, r);
  }

  lemma {:induction false} RemoveSplit(a: seq<Id>, b: seq<Id>, e: Id)
    ensures e in a ==> Without(a + b, e) == Without(a, e) + b
    ensures e !in a ==> Without(a + b, e) == a + Without(b, e)
  {
    if a == [] {
      assert a + b == b;
    } else {
      assert a == [a[0]] + a[1..];
      assert (a + b)[1..] == a[1..] + b;
      RemoveSplit(a[1..], b, e);
    }
  }

  lemma RemoveNode(l: seq<Id>, x: Id, r: seq<Id>, e: Id)
    ensures Without(l + [x] + r, e) ==
            if e in l then Without(l, e) + [x] + r else if x == e then l + r else l + [x] + Without(r, e)
  {
    assert l + [x] + r == l + ([x] + r);
    RemoveSplit(l, [x] + r, e);
    assert ([x] + r)[1..] == r;
    assert Without([x] + r, e) == if x == e then r else [x] + Without(r, e);
    hide Without;
    assert e in l ==> Without(l, e) + ([x] + r) == Without(l, e) + [x] + r;
    assert l + ([x] + Without(r, e)) == l + [x] + Without(r, e);
  }

  lemma {:induction false} EraseInOrder(t: Tree, e: Id)
    ensures InOrder(Erase(t, e)) == Without(InOrder(t), e)
  {
    match t
    case Leaf =>
    case Node(l, x, r) =>
      hide Without;
      RemoveNode(InOrder(l), x, InOrder(r), e);
      EraseInOrder(l, e);
      EraseInOrder(r, e);
      JoinInOrder(l, r);
  }

  // ----- keys along a timeline

  ghost predicate Below(q: Queue, s: seq<Id>, e: Id) {
    forall i :: 0 <= i < |s| ==> Key(Wrap, q, s[i]) <= Key(Wrap, q, e)
  }

  ghost predicate Above(q: Queue, s: seq<Id>, e: Id) {
    forall i :: 0 <= i < |s| ==> Key(Wrap, q, e) < Key(Wrap, q, s[i])
  }

  /** The sequence the descent splits at the link it found is split where insertion goes. */
  lemma {:induction false} InsertSplit(q: Queue, a: seq<Id>, b: seq<Id>, e: Id)
    requires Below(q, a, e) && Above(q, b, e)
    ensures Insert(Wrap, q, a + b, e) == a + [e] + b
  {
    hide Key;
    if a == [] {
      assert a + b == b;
    } else {
      var c := a[1..];
      assert (a + b)[1..] == c + b && (a + b)[0] == a[0];
      assert Below(q, c, e);
      InsertSplit(q, c, b, e);
      assert [a[0]] + (c + [e] + b) == a + [e] + b;
    }
  }

  lemma DescentRight(q: Queue, a: seq<Id>, l: seq<Id>, x: Id, r: seq<Id>, b: seq<Id>, e: Id)
    requires KeySorted(q, a + (l + [x] + r) + b) && Below(q, a, e) && Key(Wrap, q, x) <= Key(Wrap, q, e)
    ensures Below(q, a + (l + [x]), e)
  {
    hide Key;
    var s := a + (l + [x] + r) + b;
    var k := |a| + |l|;
    assert s[k] == x;
    assert forall i :: 0 <= i <= k ==> (a + (l + [x]))[i] == s[i];
  }

  lemma DescentLeft(q: Queue, a: seq<Id>, l: seq<Id>, x: Id, r: seq<Id>, b: seq<Id>, e: Id)
    requires KeySorted(q, a + (l + [x] + r) + b) && Above(q, b, e) && Key(Wrap, q, e) < Key(Wrap, q, x)
    ensures Above(q, ([x] + r) + b, e)
  {
    hide Key;
    var s := a + (l + [x] + r) + b;
    var k := |a| + |l|;
    assert s[k] == x;
    assert forall i :: 0 <= i < |([x] + r) + b| ==> (([x] + r) + b)[i] == s[k + i];
  }

  /** The descent of __enqueue_entity: the empty link between the keys not greater and the greater ones. */
  method FindLink(t: Tree, q: Queue, e: Id) returns (path: Path, isLeftmost: bool)
    requires KeySorted(q, InOrder(t))
    ensures Reaches(t, path) && At(t, path) == Leaf
    ensures Below(q, Before(t, path), e) && Above(q, Behind(t, path), e)
    ensures isLeftmost <==> Before(t, path) == []
  {
    hide Key;
    var link := t;
    path, isLeftmost := [], true;
    while link.Node?
      invariant Reaches(t, path) && At(t, path) == link
      invariant Below(q, Before(t, path), e) && Above(q, Behind(t, path), e)
      invariant isLeftmost <==> Before(t, path) == []
      decreases link
    {
      PlugInOrder(t, path, link);
      if Key(Wrap, q, e) < Key(Wrap, q, link.e) {
        DescentLeft(q, Before(t, path), InOrder(link.left), link.e, InOrder(link.right), Behind(t, path), e);
        Extend(t, path, false);
        path, link := path + [false], link.left;
      } else {
        DescentRight(q, Before(t, path), InOrder(link.left), link.e, InOrder(link.right), Behind(t, path), e);
        Extend(t, path, true);
        path, link, isLeftmost := path + [true], link.right, false;
      }
    }
  }

  class RunQueue {
    var ents: map<Id, Entity>
    var root: Tree
    var leftmost: Option<Id>
    var curr: Option<Id>
    var minVruntime: int
    var nrRunning: int
    var thresh: nat
    var next: Option<Id>
    var last: Option<Id>
    var skip: Option<Id>

    function State(): Queue
      reads this
    {
      Queue(ents, InOrder(root), leftmost, curr, minVruntime, nrRunning, thresh, next, last, skip)
    }

    /** sched_init: an empty tree, nothing current, min_vruntime zero. */
    constructor (ents: map<Id, Entity>, thresh: nat)
      ensures State() == Queue(ents, [], None, None, 0, 0, thresh, None, None, None)
    {
      this.ents, this.thresh := ents, thresh;
      root, leftmost, curr, minVruntime, nrRunning := Leaf, None, None, 0, 0;
      next, last, skip := None, None, None;
    }

    /** update_min_vruntime. */
    method UpdateMinVruntime()
      modifies this`minVruntime
      ensures State() == UpdateMin(Wrap, old(State()))
    {
      var vruntime := minVruntime;
      var c := curr;
      if c.Some? {
        if OnRq(State(), c.value) {
          vruntime := Vr(State(), c.value);
        } else {
          c := None;
        }
      }
      if leftmost.Some? {
        if c.None? {
          vruntime := Vr(State(), leftmost.value);
        } else {
          vruntime := MinVr(Wrap, vruntime, Vr(State(), leftmost.value));
        }
      }
      minVruntime := MaxVr(Wrap, minVruntime, vruntime);
    }

    /** update_curr at clock reading `now`. */
    method UpdateCurrent(now: int)
      modifies this`ents, this`minVruntime
      ensures State() == UpdateCurr(Wrap, old(State()), now)
    {
      if curr.None? {
        return;
      }
      var x := Ent(State(), curr.value);
      var delta := Diff(Wrap, now, x.execStart);
      if delta <= 0 {
        return;
      }
      ents := ents[curr.value := ChargedEnt(Wrap, x, now, delta)];
      UpdateMinVruntime();
    }

    /** __enqueue_entity. */
    method LinkEntity(e: Id)
      requires InKeyOrder(State())
      modifies this`root, this`leftmost
      ensures State() == Link(Wrap, old(State()), e)
    {
      hide Key, Insert;
      ghost var q := State();
      var path, isLeftmost := FindLink(root, State(), e);
      PlugInOrder(root, path, Node(Leaf, e, Leaf));
      ghost var a, b := Before(root, path), Behind(root, path);
      assert q.timeline == a + b;
      InsertSplit(q, a, b, e);
      FirstOf(q, a, b, e);
      if isLeftmost {
        leftmost := Some(e);
      }
      root := Plug(root, path, Node(Leaf, e, Leaf));
    }

    /** __dequeue_entity. */
    method UnlinkEntity(e: Id)
      modifies this`root, this`leftmost
      ensures State() == Unlink(old(State()), e)
    {
      if leftmost == Some(e) {
        leftmost := Successor(InOrder(root), e);
      }
      EraseInOrder(root, e);
      root := Erase(root, e);
    }

    /** enqueue_entity. */
    method EnqueueEntity(e: Id, wakeup: bool, waking: bool, now: int)
      requires Ready(State(), Enq(e, wakeup, waking, now))
      modifies this
      ensures State() == Enqueue(Wrap, old(State()), e, wakeup, waking, now)
    {
      hide UpdateCurr, Link, InKeyOrder, Store, MaxVr;
      ghost var q := State();
      CurrPrepared(q, e, wakeup, waking, now);
      if !wakeup || waking {
        ents := SetVr(State(), e, Store(Wrap, Vr(State(), e) + minVruntime)).ents;
      }
      UpdateCurrent(now);
      nrRunning := nrRunning + 1;
      if wakeup {
        ents := SetVr(State(), e, MaxVr(Wrap, Vr(State(), e), Store(Wrap, minVruntime - thresh))).ents;
      }
      assert State() == Prepared(Wrap, q, e, wakeup, waking, now);
      if curr != Some(e) {
        LinkEntity(e);
      }
      ents := SetOn(State(), e, true).ents;
    }

    /** dequeue_entity. */
    method DequeueEntity(e: Id, sleep: bool, now: int)
      modifies this
      ensures State() == Dequeue(Wrap, old(State()), e, sleep, now)
    {
      hide UpdateCurr, UpdateMin, Unlink, Store, InOrder, Vr;
      UpdateCurrent(now);
      ClearBuddiesOf(e);
      if curr != Some(e) {
        UnlinkEntity(e);
      }
      ents := SetOn(State(), e, false).ents;
      nrRunning := nrRunning - 1;
      if !sleep {
        ents := SetVr(State(), e, Store(Wrap, Vr(State(), e) - minVruntime)).ents;
      }
      UpdateMinVruntime();
    }

    method ClearBuddiesOf(e: Id)
      modifies this`next, this`last, this`skip
      ensures State() == ClearBuddies(old(State()), e)
    {
      if next == Some(e) { next := None; }
      if last == Some(e) { last := None; }
      if skip == Some(e) { skip := None; }
    }

    /** put_prev_entity. */
    method PutPrevEntity(e: Id, now: int)
      requires OnRq(State(), e) ==> InKeyOrder(UpdateCurr(Wrap, State(), now))
      modifies this
      ensures State() == PutPrev(Wrap, old(State()), e, now)
    {
      hide UpdateCurr, Link, InKeyOrder;
      ghost var q := State();
      OnRqKept(q, e, now);
      if OnRq(State(), e) {
        UpdateCurrent(now);
      }
      if OnRq(State(), e) {
        LinkEntity(e);
      }
      curr := None;
    }

    /** set_next_entity. */
    method SetNextEntity(e: Id, now: int)
      modifies this
      ensures State() == SetNext(Wrap, old(State()), e, now)
    {
      hide Unlink, Store;
      if OnRq(State(), e) {
        UnlinkEntity(e);
      }
      curr := Some(e);
      ents := ents[e := Ent(State(), e).(execStart := Store(Wrap, now))];
    }

    /** pick_next_entity, then set_next_entity. */
    method PickFreshTask(c: Clock, t: Tests) returns (task: Option<Id>)
      modifies this
      ensures Picked(State(), task) == PickFresh(Wrap, old(State()), c, t)
    {
      hide SetNext, Successor;
      var left := leftmost;
      task := left;
      if skip == left && left.Some? {
        var second := Successor(InOrder(root), left.value);
        if second.Some? && t.second {
          task := second;
        }
      }
      if last.Some? && t.last {
        task := last;
      }
      if next.Some? && t.next {
        task := next;
      }
      if task.Some? {
        ClearBuddiesOf(task.value);
        SetNextEntity(task.value, c.set_);
      }
    }

    /** pick_next_task_fair. */
    method PickNextTask(prevFair: bool, c: Clock, t: Tests) returns (task: Option<Id>)
      requires Ready(State(), Pick(prevFair, c, t))
      modifies this
      ensures Picked(State(), task) == PickNext(Wrap, old(State()), prevFair, c, t)
    {
      hide UpdateCurr, PutPrev, PickFresh, InKeyOrder, Key;
      if nrRunning == 0 {
        return None;
      }
      if prevFair && curr.Some? {
        var prev := curr.value;
        UpdateCurrent(c.now);
        if OnRq(State(), prev) && leftmost.Some?
           && Key(Wrap, State(), prev) <= Key(Wrap, State(), leftmost.value) {
          return Some(prev);
        }
        PutPrevEntity(prev, c.put);
      }
      task := PickFreshTask(c, t);
    }

    /** set_next_buddy, set_last_buddy, set_skip_buddy. */
    method SetBuddyTo(which: Buddy, e: Id)
      requires Enabled(State(), SetBuddy(which, e))
      modifies this`next, this`last, this`skip
      ensures State() == Step(Wrap, old(State()), SetBuddy(which, e))
    {
      match which
      case Next => next := Some(e);
      case Last => last := Some(e);
      case Skip => skip := Some(e);
    }

    /** Any one operation. */
    method Perform(op: Op)
      requires Enabled(State(), op) && Ready(State(), op)
      modifies this
      ensures State() == Step(Wrap, old(State()), op)
    {
      hide UpdateCurr, Enqueue, Dequeue, PickNext, PutPrev, InKeyOrder, InOrder, ReadyPick;
      match op
      case Tick(now) => UpdateCurrent(now);
      case Enq(e, wakeup, waking, now) => EnqueueEntity(e, wakeup, waking, now);
      case Deq(e, sleep, now) => DequeueEntity(e, sleep, now);
      case Pick(prevFair, c, t) => var _ := PickNextTask(prevFair, c, t);
      case Put(now) => PutPrevEntity(curr.value, now);
      case SetBuddy(which, e) => SetBuddyTo(which, e);
    }

    /**
     Any run of operations inside the window: the queue in place follows the unbounded one, modulo 2^64, and
     finds its tree in key order at every descent. `q` and `ops` are what the machine words stand for.
     */
    method Run(words: seq<Op>, ghost q: Queue, ghost ops: seq<Op>)
      requires Ok(q) && State() == Norm(q) && words == NormOps(ops)
      requires Runs(Wide, q, ops) && SteadyRun(q, ops)
      modifies this
      ensures State() == Norm(After(Wide, q, ops))
    {
      hide Ok, Enabled, Ready, Step, Norm, NormOp, Steady, Safe, InOrder;
      ghost var u, rest := q, ops;
      var i := 0;
      while i < |words|
        invariant i <= |words| && Ok(u) && State() == Norm(u)
        invariant words[i..] == NormOps(rest) && Runs(Wide, u, rest) && SteadyRun(u, rest)
        invariant After(Wide, u, rest) == After(Wide, q, ops)
      {
        assert words[i] == words[i..][0] == NormOp(rest[0]) && words[i + 1..] == words[i..][1..] == NormOps(rest[1..]);
        StepSafe(u, rest[0]);
        StepReady(u, rest[0]);
        StepWrap(u, rest[0]);
        StepOk(u, rest[0]);
        Perform(words[i]);
        u, rest, i := Step(Wide, u, rest[0]), rest[1..], i + 1;
      }
    }
  }

  lemma FirstOf(q: Queue, a: seq<Id>, b: seq<Id>, e: Id)
    requires q.timeline == a + b && Below(q, a, e) && Above(q, b, e)
    ensures a == [] <==> q.timeline == [] || Key(Wrap, q, e) < Key(Wrap, q, q.timeline[0])
  {
    hide Key;
    if a != [] { assert q.timeline[0] == a[0]; } else if b != [] { assert q.timeline[0] == b[0]; }
  }

  lemma CurrPrepared(q: Queue, e: Id, wakeup: bool, waking: bool, now: int)
    ensures Prepared(Wrap, q, e, wakeup, waking, now).curr == q.curr
  {
    hide Candidate, ChargedEnt;
  }

  lemma OnRqKept(q: Queue, e: Id, now: int)
    ensures OnRq(UpdateCurr(Wrap, q, now), e) == OnRq(q, e)
  {
    hide Candidate;
  }
}
