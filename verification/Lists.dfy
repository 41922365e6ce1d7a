/** The intrusive circular lists of kernel/include/list.h: a heap of nodes, refined by sequences. */
module Lists {

  /** struct list_head; list_del's poison is modelled as null. */
  class ListHead {
    var next: ListHead?
    var prev: ListHead?

    constructor ()
      ensures next == null && prev == null
    {
      next, prev := null, null;
    }
  }

  /** The `i`th node once around the ring: the head, the members, the head again. */
  ghost function At(h: ListHead, s: seq<ListHead>, i: int): ListHead {
    if 1 <= i <= |s| then s[i - 1] else h
  }

  /** The head and the members are all different nodes. */
  ghost predicate Distinct(h: ListHead, s: seq<ListHead>) {
    h !in s && forall i, j :: 0 <= i < j < |s| ==> s[i] != s[j]
  }

  ghost predicate Linked(a: ListHead, b: ListHead)
    reads a, b
  {
    a.next == b && b.prev == a
  }

  /** `h` heads a circular list whose members are `s`, in order. */
  ghost predicate Ring(h: ListHead, s: seq<ListHead>)
    reads h, s
  {
    Distinct(h, s) && forall i :: 0 <= i <= |s| ==> Linked(At(h, s, i), At(h, s, i + 1))
  }

  /** Around the ring, only the two ends coincide. */
  lemma AtDistinct(h: ListHead, s: seq<ListHead>, i: nat, j: nat)
    requires Distinct(h, s) && i < j <= |s| + 1 && (i > 0 || j <= |s|)
    ensures At(h, s, i) != At(h, s, j)
  {
  }

  method InitListHead(list: ListHead)
    modifies list
    ensures Ring(list, [])
  {
    list.next := list;
    list.prev := list;
  }

  method ListEmpty(head: ListHead, ghost s: seq<ListHead>) returns (empty: bool)
    requires Ring(head, s)
    ensures empty <==> s == []
  {
    empty := head.next == head;
    assert Linked(At(head, s, 0), At(head, s, 1));
  }

  ghost function Inserted(s: seq<ListHead>, k: nat, x: ListHead): seq<ListHead>
    requires k <= |s|
  {
    s[..k] + [x] + s[k..]
  }

  lemma InsertedAt(h: ListHead, s: seq<ListHead>, k: nat, x: ListHead, i: int)
    requires k <= |s| && 0 <= i <= |s| + 2
    ensures At(h, Inserted(s, k, x), i) == if i <= k then At(h, s, i) else if i == k + 1 then x else At(h, s, i - 1)
  {
  }

  lemma InsertedDistinct(h: ListHead, s: seq<ListHead>, k: nat, x: ListHead)
    requires Distinct(h, s) && k <= |s| && x != h && x !in s
    ensures Distinct(h, Inserted(s, k, x))
  {
    var t := Inserted(s, k, x);
    assert forall i :: 0 <= i < |t| ==> t[i] == (if i < k then s[i] else if i == k then x else s[i - 1]);
  }

  /** Only the ends of the walk are the head. */
  lemma AtHead(h: ListHead, s: seq<ListHead>, i: int)
    requires Distinct(h, s)
    ensures At(h, s, i) == h <==> !(1 <= i <= |s|)
  {
  }

  lemma AtMember(h: ListHead, s: seq<ListHead>, i: int)
    ensures At(h, s, i) == h || At(h, s, i) in s
  {
  }

  /** __list_add between two neighbours of a ring: positions `k` and `k + 1` of the walk. */
  method ListAddBetween(new_: ListHead, prev: ListHead, next: ListHead,
                        ghost h: ListHead, ghost s: seq<ListHead>, ghost k: nat)
    requires Ring(h, s) && new_ != h && new_ !in s
    requires k <= |s| && prev == At(h, s, k) && next == At(h, s, k + 1)
    modifies new_, prev, next
    ensures Ring(h, Inserted(s, k, new_))
  {
    AtMember(h, s, k);
    AtMember(h, s, k + 1);
    ghost var t := Inserted(s, k, new_);
    next.prev := new_;
    new_.next := next;
    new_.prev := prev;
    prev.next := new_;
    InsertedDistinct(h, s, k, new_);
    forall i | 0 <= i <= |t|
      ensures Linked(At(h, t, i), At(h, t, i + 1))
    {
      hide Distinct, Inserted, At;
      InsertedAt(h, s, k, new_, i);
      InsertedAt(h, s, k, new_, i + 1);
      if i < k {
        assert old(Linked(At(h, s, i), At(h, s, i + 1)));
        AtMember(h, s, i);
        AtMember(h, s, i + 1);
        AtDistinct(h, s, i, k);
        AtDistinct(h, s, i + 1, k + 1);
      } else if i > k + 1 {
        assert old(Linked(At(h, s, i - 1), At(h, s, i)));
        AtMember(h, s, i - 1);
        AtMember(h, s, i);
        AtDistinct(h, s, k, i - 1);
        AtDistinct(h, s, k + 1, i);
      }
    }
  }

  /** list_add: directly behind the head. */
  method ListAdd(new_: ListHead, head: ListHead, ghost s: seq<ListHead>)
    requires Ring(head, s) && new_ != head && new_ !in s
    modifies new_, head, At(head, s, 1)
    ensures Ring(head, [new_] + s)
  {
    assert Linked(At(head, s, 0), At(head, s, 1));
    ListAddBetween(new_, head, head.next, head, s, 0);
    assert Inserted(s, 0, new_) == [new_] + s;
  }

  /** list_add_tail: directly before the head. */
  method ListAddTail(new_: ListHead, head: ListHead, ghost s: seq<ListHead>)
    requires Ring(head, s) && new_ != head && new_ !in s
    modifies new_, head, At(head, s, |s|)
    ensures Ring(head, s + [new_])
  {
    assert Linked(At(head, s, |s|), At(head, s, |s| + 1));
    ListAddBetween(new_, head.prev, head, head, s, |s|);
    assert Inserted(s, |s|, new_) == s + [new_];
  }

  ghost function Removed(s: seq<ListHead>, j: nat): seq<ListHead>
    requires j < |s|
  {
    s[..j] + s[j + 1..]
  }

  lemma RemovedAt(h: ListHead, s: seq<ListHead>, j: nat, i: int)
    requires j < |s| && 0 <= i <= |s|
    ensures At(h, Removed(s, j), i) == if i <= j then At(h, s, i) else At(h, s, i + 1)
  {
  }

  lemma RemovedDistinct(h: ListHead, s: seq<ListHead>, j: nat)
    requires Distinct(h, s) && j < |s|
    ensures Distinct(h, Removed(s, j)) && s[j] !in Removed(s, j) && s[j] != h
    ensures forall x :: x in Removed(s, j) ==> x in s
  {
    var t := Removed(s, j);
    assert forall i :: 0 <= i < |t| ==> t[i] == (if i < j then s[i] else s[i + 1]);
  }

  /** __list_del of the neighbours of member `j`: closes the ring behind it and leaves the member itself alone. */
  method ListDelBetween(prev: ListHead, next: ListHead, ghost h: ListHead, ghost s: seq<ListHead>, ghost j: nat)
    requires Ring(h, s) && j < |s| && prev == At(h, s, j) && next == At(h, s, j + 2)
    modifies prev, next
    ensures Ring(h, Removed(s, j))
    ensures s[j].next == old(s[j].next) && s[j].prev == old(s[j].prev)
  {
    ghost var t := Removed(s, j);
    RemovedDistinct(h, s, j);
    next.prev := prev;
    prev.next := next;
    AtDistinct(h, s, j, j + 1);
    AtDistinct(h, s, j + 1, j + 2);
    forall i | 0 <= i <= |t|
      ensures Linked(At(h, t, i), At(h, t, i + 1))
    {
      hide Distinct, Removed, At;
      RemovedAt(h, s, j, i);
      RemovedAt(h, s, j, i + 1);
      if i < j {
        assert old(Linked(At(h, s, i), At(h, s, i + 1)));
        AtDistinct(h, s, i, j);
        AtDistinct(h, s, i + 1, j + 2);
      } else if i > j {
        assert old(Linked(At(h, s, i + 1), At(h, s, i + 2)));
        AtDistinct(h, s, j, i + 1);
        AtDistinct(h, s, j + 2, i + 2);
      }
    }
  }

  /** list_del, which poisons the node it takes out. */
  method ListDel(entry: ListHead, ghost h: ListHead, ghost s: seq<ListHead>, ghost j: nat)
    requires Ring(h, s) && j < |s| && s[j] == entry
    modifies entry, At(h, s, j), At(h, s, j + 2)
    ensures Ring(h, Removed(s, j)) && entry.next == null && entry.prev == null
  {
    assert Linked(At(h, s, j), At(h, s, j + 1)) && Linked(At(h, s, j + 1), At(h, s, j + 2));
    RemovedDistinct(h, s, j);
    ListDelBetween(entry.prev, entry.next, h, s, j);
    entry.next := null;
    entry.prev := null;
  }

  /** list_move within one ring: member `j` goes to the front. */
  method ListMove(list: ListHead, head: ListHead, ghost s: seq<ListHead>, ghost j: nat)
    requires Ring(head, s) && j < |s| && s[j] == list
    modifies list, head, At(head, s, 1), At(head, s, 2), At(head, s, j), At(head, s, j + 2)
    ensures Ring(head, [list] + Removed(s, j))
  {
    assert Linked(At(head, s, j), At(head, s, j + 1)) && Linked(At(head, s, j + 1), At(head, s, j + 2));
    RemovedDistinct(head, s, j);
    RemovedAt(head, s, j, 1);
    ListDelBetween(list.prev, list.next, head, s, j);
    ListAdd(list, head, Removed(s, j));
  }

  /** list_move from the ring of `g` to the ring of `head`, which share no node. */
  method ListMoveAcross(list: ListHead, head: ListHead, ghost t: seq<ListHead>,
                        ghost g: ListHead, ghost s: seq<ListHead>, ghost j: nat)
    requires Ring(head, t) && Ring(g, s) && j < |s| && s[j] == list && Disjoint(g, s, head, t)
    modifies list, head, At(head, t, 1), At(g, s, j), At(g, s, j + 2)
    ensures Ring(head, [list] + t) && Ring(g, Removed(s, j))
  {
    assert Linked(At(g, s, j), At(g, s, j + 1)) && Linked(At(g, s, j + 1), At(g, s, j + 2));
    RemovedDistinct(g, s, j);
    AtMember(g, s, j);
    AtMember(g, s, j + 2);
    AtMember(head, t, 1);
    ListDelBetween(list.prev, list.next, g, s, j);
    assert Ring(head, t);
    ListAdd(list, head, t);
  }

  /** list_move_tail within one ring: member `j` goes to the end. */
  method ListMoveTail(list: ListHead, head: ListHead, ghost s: seq<ListHead>, ghost j: nat)
    requires Ring(head, s) && j < |s| && s[j] == list
    modifies list, head, At(head, s, |s|), At(head, s, |s| - 1), At(head, s, j), At(head, s, j + 2)
    ensures Ring(head, Removed(s, j) + [list])
  {
    assert Linked(At(head, s, j), At(head, s, j + 1)) && Linked(At(head, s, j + 1), At(head, s, j + 2));
    RemovedDistinct(head, s, j);
    RemovedAt(head, s, j, |s| - 1);
    ListDelBetween(list.prev, list.next, head, s, j);
    ListAddTail(list, head, Removed(s, j));
  }

  /** list_move_tail from the ring of `g` to the ring of `head`, which share no node. */
  method ListMoveTailAcross(list: ListHead, head: ListHead, ghost t: seq<ListHead>,
                            ghost g: ListHead, ghost s: seq<ListHead>, ghost j: nat)
    requires Ring(head, t) && Ring(g, s) && j < |s| && s[j] == list && Disjoint(g, s, head, t)
    modifies list, head, At(head, t, |t|), At(g, s, j), At(g, s, j + 2)
    ensures Ring(head, t + [list]) && Ring(g, Removed(s, j))
  {
    assert Linked(At(g, s, j), At(g, s, j + 1)) && Linked(At(g, s, j + 1), At(g, s, j + 2));
    RemovedDistinct(g, s, j);
    AtMember(g, s, j);
    AtMember(g, s, j + 2);
    AtMember(head, t, |t|);
    ListDelBetween(list.prev, list.next, g, s, j);
    assert Ring(head, t);
    ListAddTail(list, head, t);
  }

  /** list_rotate_left. */
  method ListRotateLeft(head: ListHead, ghost s: seq<ListHead>)
    requires Ring(head, s)
    modifies head, s
    ensures Ring(head, if s == [] then [] else s[1..] + [s[0]])
  {
    var empty := ListEmpty(head, s);
    if !empty {
      assert Linked(At(head, s, 0), At(head, s, 1));
      AtMember(head, s, |s|);
      AtMember(head, s, |s| - 1);
      AtMember(head, s, 2);
      ListMoveTail(head.next, head, s, 0);
      assert Removed(s, 0) == s[1..];
    }
  }

  /** __list_cut_position at member `j`: the members up to it move to `list`, the rest stays. */
  method ListCutAt(list: ListHead, head: ListHead, entry: ListHead, ghost s: seq<ListHead>, ghost j: nat)
    requires Ring(head, s) && j < |s| && s[j] == entry && list != head && list !in s
    modifies list, head, At(head, s, 1), entry, At(head, s, j + 2)
    ensures Ring(list, s[..j + 1]) && Ring(head, s[j + 1..])
  {
    assert Linked(At(head, s, 0), At(head, s, 1)) && Linked(At(head, s, j + 1), At(head, s, j + 2));
    AtMember(head, s, j + 2);
    var newFirst := entry.next;
    list.next := head.next;
    list.next.prev := list;
    list.prev := entry;
    entry.next := list;
    head.next := newFirst;
    newFirst.prev := head;
    ghost var a, b := s[..j + 1], s[j + 1..];
    assert Distinct(list, a) && Distinct(head, b);
    forall i | 0 <= i <= |a|
      ensures Linked(At(list, a, i), At(list, a, i + 1))
    {
      if i == 0 {
        if j > 0 { AtDistinct(head, s, 1, j + 1); }
        AtDistinct(head, s, 1, j + 2);
      } else if i <= j {
        assert old(Linked(At(head, s, i), At(head, s, i + 1)));
        AtDistinct(head, s, i, j + 1);
        AtDistinct(head, s, i + 1, j + 2);
        AtDistinct(head, s, 1, i + 1);
      }
    }
    forall i | 0 <= i <= |b|
      ensures Linked(At(head, b, i), At(head, b, i + 1))
    {
      if i > 0 {
        assert old(Linked(At(head, s, j + 1 + i), At(head, s, j + 2 + i)));
        AtDistinct(head, s, j + 1, j + 1 + i);
        AtDistinct(head, s, 1, j + 2 + i);
        AtDistinct(head, s, j + 2, j + 2 + i);
      }
    }
  }

  /**
   list_cut_position at a member or at the head itself. Cutting at the head leaves `list` empty, except on a
   list of one member, where the early return leaves `list` as it was.
   */
  method ListCutPosition(list: ListHead, head: ListHead, entry: ListHead, ghost s: seq<ListHead>, ghost j: nat)
    requires Ring(head, s) && list != head && list !in s && (entry == head || (j < |s| && s[j] == entry))
    modifies list, head, At(head, s, 1), entry, At(head, s, j + 2)
    ensures entry != head ==> Ring(list, s[..j + 1]) && Ring(head, s[j + 1..])
    ensures entry == head ==> Ring(head, s)
    ensures entry == head && |s| >= 2 ==> Ring(list, [])
    ensures entry == head && |s| < 2 ==> list.next == old(list.next) && list.prev == old(list.prev)
  {
    var empty := ListEmpty(head, s);
    if empty {
      return;
    }
    assert Linked(At(head, s, 0), At(head, s, 1)) && Linked(At(head, s, 1), At(head, s, 2));
    assert Linked(At(head, s, |s|), At(head, s, |s| + 1));
    if head.next != head && head.next.next == head && head.next != entry && head.prev != entry {
      return;
    }
    if entry == head {
      InitListHead(list);
      return;
    }
    ListCutAt(list, head, entry, s, j);
  }

  ghost predicate Disjoint(g: ListHead, s: seq<ListHead>, h: ListHead, t: seq<ListHead>) {
    g != h && g !in t && h !in s && forall x :: x in s ==> x !in t
  }

  lemma SpliceDistinct(g: ListHead, s: seq<ListHead>, h: ListHead, t: seq<ListHead>)
    requires Distinct(g, s) && Distinct(h, t) && Disjoint(g, s, h, t)
    ensures Distinct(h, s + t)
  {
    var u := s + t;
    assert forall i :: 0 <= i < |u| ==> u[i] == (if i < |s| then s[i] else t[i - |s|]);
    forall i, j | 0 <= i < j < |u|
      ensures u[i] != u[j]
    {
      if i < |s| <= j { assert s[i] in s && t[j - |s|] in t; }
    }
  }

  /** __list_splice behind the head: the members of `list` go in front of those of `head`. */
  method ListSplice(list: ListHead, head: ListHead, ghost s: seq<ListHead>, ghost t: seq<ListHead>)
    requires Ring(list, s) && Ring(head, t) && Disjoint(list, s, head, t)
    modifies head, At(list, s, 1), At(list, s, |s|), At(head, t, 1)
    ensures Ring(head, s + t)
  {
    assert Linked(At(list, s, 0), At(list, s, 1)) && Linked(At(list, s, |s|), At(list, s, |s| + 1));
    assert Linked(At(head, t, 0), At(head, t, 1));
    var empty := ListEmpty(list, s);
    if empty {
      assert s + t == t;
      return;
    }
    AtMember(head, t, 1);
    var prev, next := head, head.next;
    var first, last := list.next, list.prev;
    first.prev := prev;
    prev.next := first;
    last.next := next;
    next.prev := last;
    ghost var u := s + t;
    SpliceDistinct(list, s, head, t);
    forall i | 0 <= i <= |u|
      ensures Linked(At(head, u, i), At(head, u, i + 1))
    {
      if 0 < i < |s| {
        assert old(Linked(At(list, s, i), At(list, s, i + 1)));
        AtDistinct(list, s, i, |s|);
        AtDistinct(list, s, 1, i + 1);
      } else if i > |s| {
        assert old(Linked(At(head, t, i - |s|), At(head, t, i - |s| + 1)));
        AtDistinct(head, t, 1, i - |s| + 1);
        AtMember(head, t, i - |s|);
        AtMember(head, t, i - |s| + 1);
      }
    }
  }

  /** Cutting at any member and splicing back restores the list. */
  method CutAndSplice(list: ListHead, head: ListHead, entry: ListHead, ghost s: seq<ListHead>, ghost j: nat)
    requires Ring(head, s) && list != head && list !in s && j < |s| && s[j] == entry
    modifies list, head, s
    ensures Ring(head, s)
  {
    AtMember(head, s, j + 2);
    ListCutPosition(list, head, entry, s, j);
    ghost var a, b := s[..j + 1], s[j + 1..];
    assert a + b == s;
    ListSplice(list, head, a, b);
  }

  ghost function Reversed(s: seq<ListHead>): seq<ListHead> {
    if s == [] then [] else Reversed(s[1..]) + [s[0]]
  }

  lemma {:induction false} ReversedAppend(s: seq<ListHead>, x: ListHead)
    ensures Reversed(s + [x]) == [x] + Reversed(s)
  {
    if s == [] {
      assert ([] + [x])[1..] == [];
    } else {
      assert (s + [x])[1..] == s[1..] + [x];
      ReversedAppend(s[1..], x);
    }
  }

  lemma {:induction false} ReversedLength(s: seq<ListHead>)
    ensures |Reversed(s)| == |s| && forall x :: x in Reversed(s) <==> x in s
  {
    if s != [] {
      ReversedLength(s[1..]);
      assert s == [s[0]] + s[1..];
    }
  }

  /** The list after the first `i` members have been moved to the front one by one. */
  ghost function Turned(s: seq<ListHead>, i: nat): seq<ListHead>
    requires i <= |s|
  {
    Reversed(s[..i]) + s[i..]
  }

  lemma TurnedStep(s: seq<ListHead>, i: nat)
    requires i < |s|
    ensures |Turned(s, i)| == |s| && Turned(s, i)[i] == s[i] && Turned(s, i)[i..] == s[i..]
    ensures [s[i]] + Removed(Turned(s, i), i) == Turned(s, i + 1)
    ensures forall x :: x in Turned(s, i) <==> x in s
  {
    ReversedLength(s[..i]);
    ReversedAppend(s[..i], s[i]);
    assert s[..i + 1] == s[..i] + [s[i]];
    var t := Turned(s, i);
    assert t[..i] == Reversed(s[..i]) && t[i + 1..] == s[i + 1..];
    assert s == s[..i] + s[i..];
  }

  lemma TurnedAll(s: seq<ListHead>)
    ensures Turned(s, 0) == s && Turned(s, |s|) == Reversed(s)
  {
    assert s[..|s|] == s;
  }

  /** One turn of list_reverse: save the next cursor, then move the member to the front. */
  method ReverseTurn(pos: ListHead, head: ListHead, ghost s: seq<ListHead>, ghost i: nat) returns (temp: ListHead)
    requires i < |s| && Ring(head, Turned(s, i)) && pos == s[i] && Distinct(head, s)
    modifies head, s
    ensures Ring(head, Turned(s, i + 1)) && temp == At(head, s, i + 2)
  {
    ghost var t := Turned(s, i);
    TurnedStep(s, i);
    assert Linked(At(head, t, i + 1), At(head, t, i + 2));
    assert At(head, t, i + 2) == At(head, s, i + 2) by { if i + 1 < |s| { assert t[i..][1] == s[i..][1]; } }
    hide Reversed, Removed, Distinct, Turned;
    AtMember(head, t, 1);
    AtMember(head, t, 2);
    AtMember(head, t, i);
    AtMember(head, t, i + 2);
    temp := pos.next;
    ListMove(pos, head, t, i);
  }

  /** list_reverse, with the cursor saved before each move. */
  method ListReverse(head: ListHead, ghost s: seq<ListHead>)
    requires Ring(head, s)
    modifies head, s
    ensures Ring(head, Reversed(s))
  {
    assert Linked(At(head, s, 0), At(head, s, 1));
    TurnedAll(s);
    ghost var i := 0;
    var pos := head.next;
    hide Reversed, Distinct, Turned, Linked;
    while pos != head
      invariant 0 <= i <= |s| && Ring(head, Turned(s, i)) && pos == At(head, s, i + 1)
      decreases |s| - i
    {
      pos := ReverseTurn(pos, head, s, i);
      i := i + 1;
    }
    AtHead(head, s, i + 1);
  }

  /** list_count_nodes. */
  method ListCountNodes(head: ListHead, ghost s: seq<ListHead>) returns (count: nat)
    requires Ring(head, s)
    ensures count == |s|
  {
    assert Linked(At(head, s, 0), At(head, s, 1));
    count := 0;
    var pos := head.next;
    while pos != head
      invariant count <= |s| && pos == At(head, s, count + 1)
      decreases |s| - count
    {
      assert Linked(At(head, s, count + 1), At(head, s, count + 2));
      count := count + 1;
      pos := pos.next;
    }
    AtHead(head, s, count + 1);
  }
}
