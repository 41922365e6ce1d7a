/** The free lists as the source has them: a ring per order and type, through a node inside each page. */
module BuddyRings {
  import opened Common
  import opened Buddy
  import opened BuddyInvariant
  import opened Lists

  type FreeMap = map<Slot, seq<nat>>

  /** Each page at most once, and on at most one list. */
  ghost predicate OneList(l: FreeMap) {
    && (forall s :: s in l ==> NoDup(l[s]))
    && (forall s, t, p: nat :: On(l, s, p) && On(l, t, p) ==> s == t)
  }

  ghost predicate Listed(l: FreeMap, p: nat) {
    exists s :: On(l, s, p)
  }

  lemma {:induction false} WithoutAt(s: seq<nat>, j: nat)
    requires NoDup(s) && j < |s|
    ensures Without(s, s[j]) == s[..j] + s[j + 1..]
  {
    if j > 0 {
      var u := s[1..];
      WithoutAt(u, j - 1);
      assert u[j - 1] == s[j] && s[0] != s[j];
      assert s[..j] + s[j + 1..] == [s[0]] + (u[..j - 1] + u[j..]);
    }
  }

  lemma {:induction false} WithoutAbsent(s: seq<nat>, p: nat)
    requires p !in s
    ensures Without(s, p) == s
  {
    if s != [] { WithoutAbsent(s[1..], p); }
  }

  lemma OneListAdd(l: FreeMap, s: Slot, p: nat)
    requires OneList(l) && s in l && !Listed(l, p)
    ensures OneList(l[s := [p] + l[s]])
  {
    var r := l[s := [p] + l[s]];
    assert !On(l, s, p);
    forall t, x: nat | On(r, t, x)
      ensures On(l, t, x) || (t == s && x == p)
    {
    }
    assert forall t :: !On(l, t, p);
    assert NoDup(r[s]);
    hide NoDup;
  }

  lemma OneListDel(l: FreeMap, p: nat)
    requires OneList(l)
    ensures OneList(Unlink(l, p))
    ensures forall t, x: nat :: On(Unlink(l, p), t, x) <==> On(l, t, x) && x != p
  {
    forall t | t in l
      ensures NoDup(Unlink(l, p)[t]) && forall x: nat :: x in Unlink(l, p)[t] <==> x in l[t] && x != p
    {
      WithoutMember(l[t], p);
    }
    var r := Unlink(l, p);
    hide NoDup, Without, Unlink;
    assert forall t :: t in r ==> NoDup(r[t]);
    assert forall t, x: nat :: On(r, t, x) <==> On(l, t, x) && x != p;
  }

  /** List heads that are rings by themselves, each its own, and none a page's node. */
  ghost predicate Separate(hs: map<Slot, ListHead>, nodes: map<nat, ListHead>)
    reads hs.Values
  {
    && (forall s :: s in hs ==> Ring(hs[s], []))
    && (forall s, t :: s in hs && t in hs && hs[s] == hs[t] ==> s == t)
    && (forall s, p :: s in hs && p in nodes ==> hs[s] != nodes[p])
  }

  /** A node inside each page. */
  method PageNodes(start: nat, size: nat) returns (nodes: map<nat, ListHead>, back: map<ListHead, nat>)
    ensures forall p :: p in nodes <==> start <= p < start + size
    ensures forall p :: p in nodes ==> fresh(nodes[p]) && nodes[p] in back && back[nodes[p]] == p
  {
    nodes, back := map[], map[];
    var p := start;
    while p < start + size
      invariant start <= p <= start + size
      invariant forall x :: x in nodes <==> start <= x < p
      invariant forall x :: x in nodes ==> fresh(nodes[x]) && nodes[x] in back && back[nodes[x]] == x
    {
      var n := new ListHead();
      nodes, back := nodes[p := n], back[n := p];
      p := p + 1;
    }
  }

  /** The loops of init_zone: INIT_LIST_HEAD on every free list. */
  method ListHeads(nodes: map<nat, ListHead>) returns (hs: map<Slot, ListHead>)
    ensures forall s :: s in hs <==> s.order < MAX_ORDER && s.mt < MIGRATE_TYPES
    ensures Separate(hs, nodes) && forall s :: s in hs ==> fresh(hs[s])
  {
    hide Ring;
    hs := map[];
    var order: nat := 0;
    while order < MAX_ORDER
      invariant order <= MAX_ORDER
      invariant forall s :: s in hs <==> s.order < order && s.mt < MIGRATE_TYPES
      invariant Separate(hs, nodes) && forall s :: s in hs ==> fresh(hs[s])
    {
      var mt: nat := 0;
      while mt < MIGRATE_TYPES
        invariant mt <= MIGRATE_TYPES
        invariant forall s :: s in hs <==> (s.order < order && s.mt < MIGRATE_TYPES) || (s.order == order && s.mt < mt)
        invariant Separate(hs, nodes) && forall s :: s in hs ==> fresh(hs[s])
      {
        var h := new ListHead();
        InitListHead(h);
        hs := hs[Slot(order, mt) := h];
        mt := mt + 1;
      }
      order := order + 1;
    }
  }

  class FreeLists {
    /** free_area[order].free_list[mt]; the lru node of each page; and container_of, back from node to page. */
    const heads: map<Slot, ListHead>
    const lru: map<nat, ListHead>
    const pageOf: map<ListHead, nat>
    ghost var lists: FreeMap

    /** The nodes of a zone's pages, and all its free lists empty. */
    constructor (start: nat, size: nat)
      ensures Valid() && lists == EmptyLists()
      ensures forall p :: start <= p < start + size ==> p in lru
      ensures fresh(heads.Values) && fresh(lru.Values)
    {
      var nodes, back := PageNodes(start, size);
      var hs := ListHeads(nodes);
      heads, lru, pageOf := hs, nodes, back;
      lists := EmptyLists();
      new;
      hide Ring;
      assert Shape();
      EmptyFits(lists);
      forall s | s in lists
        ensures IsRing(lists, s)
      {
        NodesOwned(lists, s);
        assert Ring(heads[s], []);
      }
    }

    lemma EmptyFits(l: FreeMap)
      requires Shape() && (forall s :: s in l <==> s in heads) && forall s :: s in l ==> l[s] == []
      ensures Fit(l) && forall s :: s in l ==> Nodes(l, s) == []
    {
    }

    /** All nodes are different. */
    ghost predicate Shape() {
      && (forall s, t :: s in heads && t in heads && heads[s] == heads[t] ==> s == t)
      && (forall p :: p in lru ==> lru[p] in pageOf && pageOf[lru[p]] == p)
      && (forall s, p :: s in heads && p in lru ==> heads[s] != lru[p])
    }

    /** Lists that rings can hold. */
    ghost predicate Fit(l: FreeMap) {
      && Shape() && OneList(l)
      && (forall s :: s in l <==> s in heads)
      && (forall s, p: nat :: On(l, s, p) ==> p in lru)
    }

    /** The nodes of list `s`. */
    ghost function Nodes(l: FreeMap, s: Slot): seq<ListHead>
      requires Fit(l) && s in l
    {
      seq(|l[s]|, i requires 0 <= i < |l[s]| => (assert On(l, s, l[s][i]); lru[l[s][i]]))
    }

    ghost predicate IsRing(l: FreeMap, s: Slot)
      requires Fit(l) && s in l
      reads heads.Values, lru.Values
    {
      NodesOwned(l, s);
      Ring(heads[s], Nodes(l, s))
    }

    ghost predicate Rings(l: FreeMap)
      requires Fit(l)
      reads heads.Values, lru.Values
    {
      forall s :: s in l ==> IsRing(l, s)
    }

    /** Every list of pages is a ring of nodes. */
    ghost predicate Valid()
      reads this, heads.Values, lru.Values
    {
      Fit(lists) && Rings(lists)
    }

    lemma NodesOwned(l: FreeMap, s: Slot)
      requires Fit(l) && s in l
      ensures forall x :: x in Nodes(l, s) <==> exists p :: p in l[s] && p in lru && lru[p] == x
      ensures forall x :: x in Nodes(l, s) ==> x in lru.Values
    {
      forall p | p in l[s]
        ensures p in lru && lru[p] in Nodes(l, s)
      {
        assert On(l, s, p);
        var i :| 0 <= i < |l[s]| && l[s][i] == p;
        assert Nodes(l, s)[i] == lru[p];
      }
    }

    /** The rings of two lists share no node. */
    lemma RingsApart(l: FreeMap, s: Slot, t: Slot)
      requires Fit(l) && s in l && t in l && s != t
      ensures Disjoint(heads[s], Nodes(l, s), heads[t], Nodes(l, t))
    {
      NodesOwned(l, s);
      NodesOwned(l, t);
      forall p, q | p in l[s] && q in l[t]
        ensures p in lru && q in lru && lru[p] != lru[q]
      {
        assert On(l, s, p) && On(l, t, q) && !On(l, t, p);
      }
      hide Nodes;
    }

    /** The node of a page that is not on the list. */
    lemma Unlisted(l: FreeMap, t: Slot, p: nat)
      requires Fit(l) && t in l && p in lru && p !in l[t]
      ensures lru[p] != heads[t] && lru[p] !in Nodes(l, t)
    {
      NodesOwned(l, t);
      hide Nodes, OneList;
    }

    /** list_add to one ring leaves the others alone. */
    method AddNode(p: nat, ghost l: FreeMap, s: Slot)
      requires Fit(l) && s in l && p in lru && (forall t :: t in l ==> p !in l[t]) && Rings(l)
      modifies heads.Values, lru.Values
      ensures Ring(heads[s], [lru[p]] + Nodes(l, s))
      ensures forall t :: t in l && t != s ==> Ring(heads[t], Nodes(l, t))
    {
      ghost var nodes := Nodes(l, s);
      assert IsRing(l, s);
      NodesOwned(l, s);
      Unlisted(l, s, p);
      AtMember(heads[s], nodes, 1);
      hide Ring, Fit, Nodes, At;
      ListAdd(lru[p], heads[s], nodes);
      forall t | t in l && t != s
        ensures Ring(heads[t], Nodes(l, t))
      {
        assert old(IsRing(l, t));
        RingsApart(l, s, t);
        Unlisted(l, t, p);
        assert old(Ring(heads[t], Nodes(l, t)));
      }
    }

    /** list_add(&page->lru, ...). */
    method Add(p: nat, s: Slot)
      requires Valid() && s in lists && p in lru && !Listed(lists, p)
      modifies this`lists, heads.Values, lru.Values
      ensures Valid() && lists == old(lists)[s := [p] + old(lists)[s]]
    {
      ghost var l := lists;
      AddFits(l, s, p);
      hide Ring, OneList, Fit, Nodes;
      AddNode(p, l, s);
      lists := l[s := [p] + l[s]];
      forall t | t in lists
        ensures IsRing(lists, t)
      {
        NodesOwned(lists, t);
      }
    }

    lemma AddFits(l: FreeMap, s: Slot, p: nat)
      requires Fit(l) && s in l && p in lru && !Listed(l, p)
      ensures var r := l[s := [p] + l[s]];
              && Fit(r) && Nodes(r, s) == [lru[p]] + Nodes(l, s)
              && forall t :: t in l ==> p !in l[t] && (t != s ==> Nodes(r, t) == Nodes(l, t))
    {
      OneListAdd(l, s, p);
      var r := l[s := [p] + l[s]];
      assert forall t :: t in l ==> !On(l, t, p);
      assert forall t, x: nat :: On(r, t, x) ==> On(l, t, x) || x == p;
      hide OneList;
      assert Fit(r);
    }

    /** list_del on member `j` of one ring leaves the others alone. */
    method DelNode(node: ListHead, ghost l: FreeMap, ghost s: Slot, ghost j: nat)
      requires Fit(l) && s in l && j < |l[s]| && node == Nodes(l, s)[j] && Rings(l)
      modifies heads.Values, lru.Values
      ensures Ring(heads[s], Removed(Nodes(l, s), j))
      ensures forall t :: t in l && t != s ==> Ring(heads[t], Nodes(l, t))
    {
      ghost var nodes := Nodes(l, s);
      assert IsRing(l, s);
      NodesOwned(l, s);
      AtMember(heads[s], nodes, j);
      AtMember(heads[s], nodes, j + 2);
      assert nodes[j] in nodes;
      hide Ring, Fit, Nodes, At, Removed;
      ListDel(node, heads[s], nodes, j);
      forall t | t in l && t != s
        ensures Ring(heads[t], Nodes(l, t))
      {
        assert old(IsRing(l, t));
        RingsApart(l, s, t);
        assert old(Ring(heads[t], Nodes(l, t)));
      }
    }

    /** list_del(&page->lru): the page alone says which ring it leaves. */
    method Del(p: nat)
      requires Valid() && Listed(lists, p)
      modifies this`lists, heads.Values, lru.Values
      ensures Valid() && lists == Unlink(old(lists), p)
    {
      ghost var l := lists;
      ghost var s :| On(l, s, p);
      ghost var j :| 0 <= j < |l[s]| && l[s][j] == p;
      DelFits(l, s, j);
      hide Ring, OneList, Fit, Nodes, Unlink, Removed;
      DelNode(lru[p], l, s, j);
      lists := Unlink(l, p);
      forall t | t in lists
        ensures IsRing(lists, t)
      {
        NodesOwned(lists, t);
      }
    }

    lemma DelFits(l: FreeMap, s: Slot, j: nat)
      requires Fit(l) && s in l && j < |l[s]|
      ensures var p := l[s][j]; var r := Unlink(l, p);
              && p in lru && Nodes(l, s)[j] == lru[p]
              && r.Keys == l.Keys && Fit(r) && Nodes(r, s) == Removed(Nodes(l, s), j)
              && forall t :: t in l && t != s ==> Nodes(r, t) == Nodes(l, t)
    {
      var p := l[s][j];
      var r := Unlink(l, p);
      assert On(l, s, p);
      OneListDel(l, p);
      DelMembers(l, s, j);
      hide OneList, Without, Unlink, Removed;
      assert Fit(r);
      hide Fit;
      NodesCut(l, r, s, j);
      forall t | t in l && t != s
        ensures Nodes(r, t) == Nodes(l, t)
      {
        NodesSame(l, r, t);
      }
    }

    lemma NodesSame(l: FreeMap, r: FreeMap, t: Slot)
      requires Fit(l) && Fit(r) && t in l && t in r && r[t] == l[t]
      ensures Nodes(r, t) == Nodes(l, t)
    {
      hide Fit;
    }

    lemma NodesCut(l: FreeMap, r: FreeMap, s: Slot, j: nat)
      requires Fit(l) && Fit(r) && s in l && s in r && j < |l[s]| && r[s] == l[s][..j] + l[s][j + 1..]
      ensures l[s][j] in lru && Nodes(l, s)[j] == lru[l[s][j]] && Nodes(r, s) == Removed(Nodes(l, s), j)
    {
      assert On(l, s, l[s][j]);
      hide Fit;
    }

    /** A page leaves its own list and no other. */
    lemma DelMembers(l: FreeMap, s: Slot, j: nat)
      requires OneList(l) && s in l && j < |l[s]|
      ensures var r := Unlink(l, l[s][j]);
              r.Keys == l.Keys && r[s] == l[s][..j] + l[s][j + 1..] && forall t :: t in l && t != s ==> r[t] == l[t]
    {
      var p := l[s][j];
      assert On(l, s, p);
      WithoutAt(l[s], j);
      forall t | t in l && t != s
        ensures Without(l[t], p) == l[t]
      {
        assert !On(l, t, p);
        WithoutAbsent(l[t], p);
      }
      hide OneList, Without, On;
    }

    /** list_first_entry. */
    method First(s: Slot) returns (p: nat)
      requires Valid() && s in lists && lists[s] != []
      ensures p == lists[s][0]
    {
      ghost var nodes := Nodes(lists, s);
      assert IsRing(lists, s);
      assert On(lists, s, lists[s][0]);
      assert Linked(At(heads[s], nodes, 0), At(heads[s], nodes, 1));
      p := pageOf[heads[s].next];
    }

    /** list_empty. */
    method IsEmpty(s: Slot) returns (empty: bool)
      requires Valid() && s in lists
      ensures empty <==> lists[s] == []
    {
      assert IsRing(lists, s);
      empty := ListEmpty(heads[s], Nodes(lists, s));
    }
  }
}
