/** The timeline invariant over unbounded integers, and what each stage of an operation does to it. */
module CfsTimeline {
  import opened Common
  import opened FixedPoint
  import opened Cfs

  ghost predicate Sorted(q: Queue, s: seq<Id>) {
    forall i, j :: 0 <= i < j < |s| ==> Vr(q, s[i]) <= Vr(q, s[j])
  }

  function First(s: seq<Id>): Option<Id> {
    if s == [] then None else Some(s[0])
  }

  /** The tree holds exactly the entities `L`, in vruntime order, and the cached leftmost is its first. */
  ghost predicate Tree(q: Queue, L: set<Id>) {
    && NoDup(q.timeline) && Sorted(q, q.timeline) && q.leftmost == First(q.timeline)
    && forall e: Id :: e in q.timeline <==> e in L
  }

  function OnSet(q: Queue): set<Id> {
    set e | e in q.ents && q.ents[e].onRq
  }

  function CurrSet(q: Queue): set<Id> {
    if q.curr.Some? then {q.curr.value} else {}
  }

  ghost predicate Buddies(q: Queue) {
    && (q.next.Some? ==> q.next.value in OnSet(q))
    && (q.last.Some? ==> q.last.value in OnSet(q))
    && (q.skip.Some? ==> q.skip.value in OnSet(q))
  }

  /** The tree is exactly the queued entities other than the current one; the count and the buddies agree. */
  ghost predicate Ok(q: Queue) {
    && Tree(q, OnSet(q) - CurrSet(q))
    && CurrSet(q) <= q.ents.Keys && q.nrRunning == |OnSet(q)| && Buddies(q)
  }

  // ----- insertion and removal

  /** Insertion keeps the order and goes behind every entry that is not greater, so equal keys stay in order. */
  lemma {:induction false} InsertPosition(q: Queue, s: seq<Id>, e: Id) returns (k: nat)
    requires Sorted(q, s)
    ensures k <= |s| && Insert(Wide, q, s, e) == s[..k] + [e] + s[k..]
    ensures forall i :: 0 <= i < k ==> Vr(q, s[i]) <= Vr(q, e)
    ensures forall i :: k <= i < |s| ==> Vr(q, e) < Vr(q, s[i])
  {
    hide Vr;
    if s == [] || Key(Wide, q, e) < Key(Wide, q, s[0]) {
      k := 0;
    } else {
      var j := InsertPosition(q, s[1..], e);
      k := j + 1;
      assert s == [s[0]] + s[1..];
      assert s[..k] == [s[0]] + s[1..][..j];
      assert s[k..] == s[1..][j..];
    }
  }

  lemma SpliceIn(q: Queue, s: seq<Id>, k: nat, e: Id, t: seq<Id>)
    requires NoDup(s) && Sorted(q, s) && e !in s && k <= |s| && t == s[..k] + [e] + s[k..]
    requires forall i :: 0 <= i < k ==> Vr(q, s[i]) <= Vr(q, e)
    requires forall i :: k <= i < |s| ==> Vr(q, e) < Vr(q, s[i])
    ensures NoDup(t) && Sorted(q, t) && forall x: Id :: x in t <==> x in s || x == e
  {
    hide Vr;
    assert forall i :: 0 <= i < |t| ==> t[i] == (if i < k then s[i] else if i == k then e else s[i - 1]);
    SpliceMembers(s, k, e, t);
  }

  lemma SpliceMembers(s: seq<Id>, k: nat, e: Id, t: seq<Id>)
    requires k <= |s| && t == s[..k] + [e] + s[k..]
    ensures forall x: Id :: x in t <==> x in s || x == e
  {
    assert s == s[..k] + s[k..];
  }

  lemma CutOut(q: Queue, s: seq<Id>, k: nat, t: seq<Id>)
    requires NoDup(s) && Sorted(q, s) && k < |s| && t == s[..k] + s[k + 1..]
    ensures NoDup(t) && Sorted(q, t)
  {
    hide Vr;
    assert forall i :: 0 <= i < |t| ==> t[i] == (if i < k then s[i] else s[i + 1]);
  }

  lemma CutMembers(s: seq<Id>, k: nat, t: seq<Id>)
    requires NoDup(s) && k < |s| && t == s[..k] + s[k + 1..]
    ensures forall x: Id :: x in t <==> x in s && x != s[k]
  {
    assert s == s[..k] + [s[k]] + s[k + 1..];
    forall x: Id | x in s && x != s[k]
      ensures x in t
    {
      var i :| 0 <= i < |s| && s[i] == x;
      assert t[if i < k then i else i - 1] == x;
    }
  }

  lemma SameVr(q: Queue, r: Queue)
    requires q.ents == r.ents
    ensures forall x: Id :: Vr(r, x) == Vr(q, x)
  {
  }

  lemma LinkTree(q: Queue, L: set<Id>, e: Id)
    requires Tree(q, L) && e !in L
    ensures Tree(Link(Wide, q, e), L + {e})
  {
    var k := InsertPosition(q, q.timeline, e);
    hide Vr, Insert;
    var r := Link(Wide, q, e);
    SpliceIn(q, q.timeline, k, e, r.timeline);
    SameVr(q, r);
  }

  lemma {:induction false} RemovePosition(s: seq<Id>, e: Id) returns (k: nat)
    requires NoDup(s) && e in s
    ensures k < |s| && s[k] == e && Without(s, e) == s[..k] + s[k + 1..]
    ensures Successor(s, e) == if k + 1 < |s| then Some(s[k + 1]) else None
  {
    if s[0] == e {
      k := 0;
    } else {
      var u := s[1..];
      assert s == [s[0]] + u;
      var j := RemovePosition(u, e);
      k := j + 1;
      assert s[..k] + s[k + 1..] == [s[0]] + (u[..j] + u[j + 1..]);
    }
  }

  lemma UnlinkTree(q: Queue, L: set<Id>, e: Id)
    requires Tree(q, L) && e in L
    ensures Tree(Unlink(q, e), L - {e})
  {
    hide Vr, Without, Successor;
    var r := Unlink(q, e);
    var k := RemovePosition(q.timeline, e);
    CutOut(q, q.timeline, k, r.timeline);
    CutMembers(q.timeline, k, r.timeline);
    SameVr(q, r);
  }

  // ----- stages of an operation

  /** A queue in the middle of an operation: tree `L`, queued entities `O`, count `n`. */
  ghost predicate Stage(q: Queue, L: set<Id>, O: set<Id>, n: int) {
    Tree(q, L) && OnSet(q) == O && q.nrRunning == n && CurrSet(q) <= q.ents.Keys && Buddies(q)
  }

  /** The vruntimes of `L` are unchanged and min_vruntime has not gone back. */
  ghost predicate Kept(q: Queue, r: Queue, L: set<Id>) {
    (forall x: Id :: x in L ==> Vr(r, x) == Vr(q, x)) && r.minVruntime >= q.minVruntime && r.ents.Keys == q.ents.Keys
  }

  lemma StageSetEnt(q: Queue, L: set<Id>, O: set<Id>, n: int, e: Id, x: Entity)
    requires Stage(q, L, O, n) && e in q.ents && x.onRq == OnRq(q, e) && (e !in L || x.vruntime == Vr(q, e))
    ensures Stage(SetEnt(q, e, x), L, O, n) && Kept(q, SetEnt(q, e, x), L)
  {
    var r := SetEnt(q, e, x);
    assert forall y: Id :: y in L ==> Vr(r, y) == Vr(q, y);
    assert OnSet(r) == OnSet(q);
    hide Vr;
    assert Sorted(r, r.timeline);
  }

  lemma StageOn(q: Queue, L: set<Id>, O: set<Id>, n: int, e: Id, on: bool)
    requires Stage(q, L, O, n) && e in q.ents
    requires on || (q.next != Some(e) && q.last != Some(e) && q.skip != Some(e))
    ensures Stage(SetOn(q, e, on), L, if on then O + {e} else O - {e}, n) && Kept(q, SetOn(q, e, on), L)
  {
    var r := SetOn(q, e, on);
    assert forall y: Id :: Vr(r, y) == Vr(q, y);
    assert OnSet(r) == if on then O + {e} else O - {e};
    hide Vr;
    assert Sorted(r, r.timeline);
  }

  lemma StageLink(q: Queue, L: set<Id>, O: set<Id>, n: int, e: Id)
    requires Stage(q, L, O, n) && e !in L
    ensures Stage(Link(Wide, q, e), L + {e}, O, n) && Kept(q, Link(Wide, q, e), L + {e})
  {
    hide Tree, Insert, Key;
    LinkTree(q, L, e);
  }

  lemma StageUnlink(q: Queue, L: set<Id>, O: set<Id>, n: int, e: Id)
    requires Stage(q, L, O, n) && e in L
    ensures Stage(Unlink(q, e), L - {e}, O, n) && Kept(q, Unlink(q, e), L)
  {
    hide Tree, Without, Successor;
    UnlinkTree(q, L, e);
  }

  /** Changing the count, the current entity, the minimum or the buddies does not touch the tree. */
  lemma StageFields(q: Queue, L: set<Id>, O: set<Id>, n: int, r: Queue)
    requires Stage(q, L, O, n)
    requires r.timeline == q.timeline && r.leftmost == q.leftmost && r.ents == q.ents
    requires CurrSet(r) <= r.ents.Keys && Buddies(r) && r.minVruntime >= q.minVruntime
    ensures Stage(r, L, O, r.nrRunning) && Kept(q, r, L)
  {
    SameVr(q, r);
    hide Vr;
    assert Sorted(r, r.timeline);
  }

  lemma StageUpdateMin(q: Queue, L: set<Id>, O: set<Id>, n: int)
    requires Stage(q, L, O, n)
    ensures Stage(UpdateMin(Wide, q), L, O, n) && Kept(q, UpdateMin(Wide, q), L)
  {
    hide Tree, Candidate;
    StageFields(q, L, O, n, UpdateMin(Wide, q));
  }

  lemma StageUpdateCurr(q: Queue, L: set<Id>, O: set<Id>, n: int, now: int)
    requires Stage(q, L, O, n) && L !! CurrSet(q)
    ensures var r := UpdateCurr(Wide, q, now);
            && Stage(r, L, O, n) && Kept(q, r, L)
            && r == q.(ents := r.ents, minVruntime := r.minVruntime)
            && (forall e: Id :: OnRq(r, e) == OnRq(q, e))
            && (forall e: Id :: e !in CurrSet(q) ==> Vr(r, e) == Vr(q, e))
  {
    hide Stage, Candidate, Charge;
    StageCurr(q, L, O, n);
    if q.curr.Some? && Diff(Wide, now, Ent(q, q.curr.value).execStart) > 0 {
      var e := q.curr.value;
      var r := Charged(Wide, q, e, now);
      StageSetEnt(q, L, O, n, e, Ent(r, e));
      StageUpdateMin(r, L, O, n);
    }
  }

  lemma StageCurr(q: Queue, L: set<Id>, O: set<Id>, n: int)
    requires Stage(q, L, O, n)
    ensures CurrSet(q) <= q.ents.Keys
    ensures forall e: Id :: e in O <==> e in q.ents && OnRq(q, e)
  {
  }

  lemma OkStage(q: Queue)
    requires Ok(q)
    ensures Stage(q, OnSet(q) - CurrSet(q), OnSet(q), |OnSet(q)|)
    ensures forall e: Id :: e in OnSet(q) <==> e in q.ents && OnRq(q, e)
    ensures forall e: Id :: e in q.timeline <==> e in OnSet(q) - CurrSet(q)
  {
  }

  lemma StageOk(q: Queue, L: set<Id>, O: set<Id>)
    requires Stage(q, L, O, |O|) && L == O - CurrSet(q)
    ensures Ok(q)
  {
  }
}
