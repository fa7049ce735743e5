/**
 The two-ended cursor of `src/list.rs` (lines 375-493) and the iterators of
 `src/selector/iter.rs` built on it.

 The cursor goes around a ring without a sentinel: all that stops it is its count.
 `first` and `final` are the nodes visited from the two ends, `gone` those it removed.
 */
module Cursors {
  import opened Wrappers
  import opened Lists

  /** The elements that are not in the set, in order. */
  ghost function Keep<T>(s: seq<T>, gone: set<T>): seq<T> {
    if s == [] then [] else (if s[0] in gone then [] else [s[0]]) + Keep(s[1..], gone)
  }

  function Reverse<T>(s: seq<T>): seq<T> {
    if s == [] then [] else Reverse(s[1..]) + [s[0]]
  }

  lemma KeepFirst<T>(s: seq<T>, gone: set<T>)
    requires s != []
    ensures Keep(s, gone) == (if s[0] in gone then [] else [s[0]]) + Keep(s[1..], gone)
  {
  }

  lemma {:induction false} KeepConcat<T>(a: seq<T>, b: seq<T>, gone: set<T>)
    ensures Keep(a + b, gone) == Keep(a, gone) + Keep(b, gone)
  {
    hide Keep;
    if a == [] {
      assert a + b == b;
      KeepNothing(gone);
    } else {
      assert (a + b)[0] == a[0] && (a + b)[1..] == a[1..] + b;
      KeepFirst(a + b, gone);
      KeepFirst(a, gone);
      KeepConcat(a[1..], b, gone);
    }
  }

  lemma KeepNothing<T>(gone: set<T>)
    ensures Keep<T>([], gone) == []
  {
  }

  /** Removing an element that does not occur changes nothing. */
  lemma {:induction false} KeepFrame<T>(s: seq<T>, gone: set<T>, x: T)
    requires x !in s
    ensures Keep(s, gone + {x}) == Keep(s, gone)
  {
    if s != [] {
      assert s[0] != x;
      KeepFrame(s[1..], gone, x);
    }
  }

  lemma {:induction false} KeepAll<T>(s: seq<T>, gone: set<T>)
    requires forall x <- s :: x !in gone
    ensures Keep(s, gone) == s
  {
    if s != [] {
      KeepAll(s[1..], gone);
    }
  }

  lemma {:induction false} KeepMember<T>(s: seq<T>, gone: set<T>, x: T)
    ensures x in Keep(s, gone) <==> x in s && x !in gone
  {
    if s != [] {
      KeepMember(s[1..], gone, x);
      assert s == [s[0]] + s[1..];
    }
  }

  lemma {:induction false} ReverseSnoc<T>(s: seq<T>, x: T)
    ensures Reverse(s + [x]) == [x] + Reverse(s)
  {
    if s == [] {
      assert [x][1..] == [];
    } else {
      assert (s + [x])[1..] == s[1..] + [x];
      ReverseSnoc(s[1..], x);
    }
  }

  lemma {:induction false} ReverseMembers<T>(s: seq<T>)
    ensures |Reverse(s)| == |s| && forall i :: 0 <= i < |s| ==> Reverse(s)[i] == s[|s| - 1 - i]
    ensures forall x <- s :: x in Reverse(s)
    ensures forall x <- Reverse(s) :: x in s
  {
    if s != [] {
      ReverseMembers(s[1..]);
      assert s == [s[0]] + s[1..];
    }
  }

  ghost predicate AllDistinct<T>(s: seq<T>) {
    forall i, j :: 0 <= i < j < |s| ==> s[i] != s[j]
  }

  /**
   A session of a cursor: of the list there was (origin), `first` and `final` were visited from the
   two ends and `ahead` was not; the list there is (nodes) is the one there was without `gone`.
   */
  ghost predicate Session<T>(origin: seq<T>, first: seq<T>, ahead: seq<T>, final: seq<T>, gone: set<T>, nodes: seq<T>) {
    && AllDistinct(origin)
    && origin == first + ahead + Reverse(final)
    && nodes == Keep(first, gone) + ahead + Keep(Reverse(final), gone)
    && (forall x <- gone :: x in first || x in final)
  }

  lemma SessionStart<T>(nodes: seq<T>)
    requires AllDistinct(nodes)
    ensures Session(nodes, [], nodes, [], {}, nodes)
  {
  }

  /** The element between two parts of a sequence without repetition is in neither. */
  lemma Isolated<T>(a: seq<T>, x: T, b: seq<T>)
    requires AllDistinct(a + [x] + b)
    ensures x !in a && x !in b
  {
    var all := a + [x] + b;
    assert all[|a|] == x;
    assert forall i :: 0 <= i < |a| ==> all[i] == a[i];
    assert forall i :: 0 <= i < |b| ==> all[|a| + 1 + i] == b[i];
  }

  lemma FrontIsFresh<T>(origin: seq<T>, first: seq<T>, x: T, rest: seq<T>, final: seq<T>, gone: set<T>, nodes: seq<T>)
    requires Session(origin, first, [x] + rest, final, gone, nodes)
    ensures x !in first && x !in Reverse(final) && x !in gone
    ensures origin == (first + [x]) + rest + Reverse(final)
  {
    assert first + ([x] + rest) + Reverse(final) == first + [x] + (rest + Reverse(final));
    Isolated(first, x, rest + Reverse(final));
    ReverseMembers(final);
  }

  lemma BackIsFresh<T>(origin: seq<T>, first: seq<T>, rest: seq<T>, x: T, final: seq<T>, gone: set<T>, nodes: seq<T>)
    requires Session(origin, first, rest + [x], final, gone, nodes)
    ensures x !in first && x !in Reverse(final) && x !in gone
    ensures origin == first + rest + Reverse(final + [x])
  {
    ReverseSnoc(final, x);
    assert first + (rest + [x]) + Reverse(final) == (first + rest) + [x] + Reverse(final);
    assert first + rest + ([x] + Reverse(final)) == (first + rest) + [x] + Reverse(final);
    Isolated(first + rest, x, Reverse(final));
    ReverseMembers(final);
  }

  lemma PoppedFront<T>(origin: seq<T>, first: seq<T>, x: T, rest: seq<T>, final: seq<T>, gone: set<T>, nodes: seq<T>)
    requires Session(origin, first, [x] + rest, final, gone, nodes)
    ensures Session(origin, first + [x], rest, final, gone, nodes) && x !in gone
  {
    FrontIsFresh(origin, first, x, rest, final, gone, nodes);
    KeepConcat(first, [x], gone);
    KeepAll([x], gone);
    assert Keep(first, gone) + ([x] + rest) == Keep(first, gone) + [x] + rest;
  }

  lemma PoppedBack<T>(origin: seq<T>, first: seq<T>, rest: seq<T>, x: T, final: seq<T>, gone: set<T>, nodes: seq<T>)
    requires Session(origin, first, rest + [x], final, gone, nodes)
    ensures Session(origin, first, rest, final + [x], gone, nodes) && x !in gone
  {
    BackIsFresh(origin, first, rest, x, final, gone, nodes);
    ReverseSnoc(final, x);
    KeepConcat([x], Reverse(final), gone);
    KeepAll([x], gone);
    var k := Keep(first, gone);
    assert k + (rest + [x]) + Keep(Reverse(final), gone) == k + rest + ([x] + Keep(Reverse(final), gone));
  }

  /** The position of the front node in the list there is. */
  ghost function Low<T>(first: seq<T>, gone: set<T>): nat {
    |Keep(first, gone)|
  }

  lemma RemovedFront<T>(origin: seq<T>, first: seq<T>, x: T, rest: seq<T>, final: seq<T>, gone: set<T>, nodes: seq<T>)
    requires Session(origin, first, [x] + rest, final, gone, nodes)
    ensures Low(first, gone) < |nodes|
    ensures Session(origin, first + [x], rest, final, gone + {x}, Without(nodes, Low(first, gone)))
  {
    hide Without, Reverse;
    FrontIsFresh(origin, first, x, rest, final, gone, nodes);
    KeepConcat(first, [x], gone + {x});
    assert [x][1..] == [];
    KeepFrame(first, gone, x);
    KeepFrame(Reverse(final), gone, x);
    var a, b := Keep(first, gone), Keep(Reverse(final), gone);
    assert a + ([x] + rest) + b == a + [x] + (rest + b);
    WithoutMiddle(a, x, rest + b);
    assert a + (rest + b) == a + rest + b;
  }

  lemma WithoutMiddle<T>(a: seq<T>, x: T, b: seq<T>)
    ensures Without(a + [x] + b, |a|) == a + b
  {
  }

  lemma RemovedBack<T>(origin: seq<T>, first: seq<T>, rest: seq<T>, x: T, final: seq<T>, gone: set<T>, nodes: seq<T>)
    requires Session(origin, first, rest + [x], final, gone, nodes)
    ensures Low(first, gone) + |rest| < |nodes|
    ensures Session(origin, first, rest, final + [x], gone + {x}, Without(nodes, Low(first, gone) + |rest|))
  {
    hide Without;
    BackIsFresh(origin, first, rest, x, final, gone, nodes);
    ReverseSnoc(final, x);
    KeepConcat([x], Reverse(final), gone + {x});
    assert [x][1..] == [];
    KeepFrame(first, gone, x);
    KeepFrame(Reverse(final), gone, x);
    var a, b := Keep(first, gone), Keep(Reverse(final), gone);
    assert a + (rest + [x]) + b == (a + rest) + [x] + b;
    WithoutMiddle(a + rest, x, b);
  }

  /** What is ahead, in the list there is. */
  lemma AheadInList<T>(origin: seq<T>, first: seq<T>, ahead: seq<T>, final: seq<T>, gone: set<T>, nodes: seq<T>, i: nat)
    requires Session(origin, first, ahead, final, gone, nodes) && i < |ahead|
    ensures Low(first, gone) + i < |nodes| && nodes[Low(first, gone) + i] == ahead[i]
  {
  }

  /** At every moment of a session the list is what it was, without what was removed. */
  lemma ListOfSession<T>(origin: seq<T>, first: seq<T>, ahead: seq<T>, final: seq<T>, gone: set<T>, nodes: seq<T>)
    requires Session(origin, first, ahead, final, gone, nodes)
    ensures nodes == Keep(origin, gone)
  {
    forall x <- ahead
      ensures x !in gone
    {
      var k: nat :| k < |ahead| && ahead[k] == x;
      var a, b := first + ahead[..k], ahead[k + 1..] + Reverse(final);
      assert ahead == ahead[..k] + [x] + ahead[k + 1..];
      assert origin == a + [x] + b;
      Isolated(a, x, b);
      ReverseMembers(final);
    }
    KeepAll(ahead, gone);
    KeepConcat(first + ahead, Reverse(final), gone);
    KeepConcat(first, ahead, gone);
  }

  function ButFirst<T>(s: seq<T>): (r: seq<T>)
    requires s != []
    ensures s == [s[0]] + r
    ensures r != [] ==> r[0] == s[1] && r[|r| - 1] == s[|s| - 1]
  {
    s[1..]
  }

  function ButLast<T>(s: seq<T>): (r: seq<T>)
    requires s != []
    ensures s == r + [s[|s| - 1]]
    ensures r != [] ==> r[0] == s[0] && r[|r| - 1] == s[|s| - 2]
  {
    s[..|s| - 1]
  }

  class Cursor<T> {
    const list: List<T>
    var front: Node?<T>
    var back: Node?<T>
    var popped: nat
    ghost const origin: seq<Node<T>>
    ghost var first: seq<Node<T>>
    ghost var ahead: seq<Node<T>>
    ghost var final: seq<Node<T>>
    ghost var gone: set<Node<T>>

    ghost predicate Valid()
      reads this, list`front, list`len, list`nodes, list.nodes
    {
      && list.Valid()
      && Session(origin, first, ahead, final, gone, list.nodes)
      && popped + |ahead| == |list.nodes|
      && (ahead != [] ==> front == ahead[0] && back == ahead[|ahead| - 1])
    }

    /** Lines 170-185. */
    constructor (list: List<T>)
      requires list.Valid()
      ensures Valid() && this.list == list && origin == ahead == list.nodes
      ensures first == final == [] && gone == {}
    {
      hide Session, Ring;
      RingIsSeparate(list.nodes);
      SessionStart(list.nodes);
      this.list := list;
      if list.front != null {
        RingAt(list.nodes, 0);
        front, back := list.front, list.front.prev;
      } else {
        front, back := null, null;
      }
      popped := 0;
      origin, first, ahead, final, gone := list.nodes, [], list.nodes, [], {};
    }

    method IsEmpty() returns (empty: bool)
      requires Valid()
      ensures empty <==> ahead == []
    {
      empty := list.len == popped;
    }

    method Len() returns (n: nat)
      requires Valid()
      ensures n == |ahead|
    {
      n := list.len - popped;
    }

    method PeekFront() returns (r: Option<Node<T>>)
      requires Valid()
      ensures r == if ahead == [] then None else Some(ahead[0])
    {
      var empty := IsEmpty();
      r := if empty then None else Some(front);
    }

    method PeekBack() returns (r: Option<Node<T>>)
      requires Valid()
      ensures r == if ahead == [] then None else Some(ahead[|ahead| - 1])
    {
      var empty := IsEmpty();
      r := if empty then None else Some(back);
    }

    /** The links of the node at one end lead to the next node ahead, if there is one. */
    lemma NextAhead()
      requires Valid() && ahead != []
      ensures var k := Low(first, gone);
        && k + |ahead| <= |list.nodes| && list.nodes[k] == ahead[0] && list.nodes[k + |ahead| - 1] == ahead[|ahead| - 1]
      ensures |ahead| > 1 ==> ahead[0].next == ahead[1] && ahead[|ahead| - 1].prev == ahead[|ahead| - 2]
    {
      hide Session, list.Valid, Low;
      var k, n := Low(first, gone), |ahead|;
      AheadInList(origin, first, ahead, final, gone, list.nodes, 0);
      AheadInList(origin, first, ahead, final, gone, list.nodes, n - 1);
      if n > 1 {
        AheadInList(origin, first, ahead, final, gone, list.nodes, 1);
        AheadInList(origin, first, ahead, final, gone, list.nodes, n - 2);
        list.At(k);
        list.At(k + n - 1);
      }
    }

    method PopFront() returns (r: Option<Node<T>>)
      requires Valid()
      modifies this
      ensures Valid() && gone == old(gone) && final == old(final)
      ensures r.None? ==> old(ahead) == ahead == [] && first == old(first)
      ensures r.Some? ==> old(ahead) == [r.value] + ahead && first == old(first) + [r.value] && r.value !in gone
    {
      var empty := IsEmpty();
      if empty {
        return None;
      }
      hide Session, list.Valid, ButFirst, ButLast;
      NextAhead();
      var node: Node<T> := front;
      ghost var rest := ButFirst(ahead);
      PoppedFront(origin, first, node, rest, final, gone, list.nodes);
      popped := popped + 1;
      front := node.next;
      ahead := rest;
      first := first + [node];
      return Some(node);
    }

    method PopBack() returns (r: Option<Node<T>>)
      requires Valid()
      modifies this
      ensures Valid() && gone == old(gone) && first == old(first)
      ensures r.None? ==> old(ahead) == ahead == [] && final == old(final)
      ensures r.Some? ==> old(ahead) == ahead + [r.value] && final == old(final) + [r.value] && r.value !in gone
    {
      var empty := IsEmpty();
      if empty {
        return None;
      }
      var node := PassBack(ButLast(ahead));
      return Some(node);
    }

    /** The back pointer moves on. */
    method PassBack(ghost rest: seq<Node<T>>) returns (node: Node<T>)
      requires Valid() && ahead != [] && rest == ButLast(ahead)
      modifies this
      ensures Valid() && gone == old(gone) && first == old(first)
      ensures old(ahead) == ahead + [node] && final == old(final) + [node] && node !in gone
    {
      hide Session, list.Valid, ButLast;
      NextAhead();
      node := back;
      PoppedBack(origin, first, rest, node, final, gone, list.nodes);
      popped := popped + 1;
      back := node.prev;
      ahead := rest;
      final := final + [node];
    }

    method RemoveFront() returns (r: Option<Removed<T>>)
      requires Valid()
      modifies this, list, list.nodes
      ensures Valid() && final == old(final)
      ensures r.None? ==>
        old(ahead) == ahead == [] && first == old(first) && gone == old(gone) && list.nodes == old(list.nodes)
      ensures r.None? ==> list.SameValues()
      ensures r.Some? ==>
        && old(ahead) == [r.value.node] + ahead && first == old(first) + [r.value.node]
        && gone == old(gone) + {r.value.node}
      ensures r.Some? ==>
        r.value.home == list && r.value.Valid() && r.value.node in old(list.nodes) && list.HandsOut(r.value.node)
      ensures forall m <- old(list.nodes) :: m.slot == old(m.slot)
    {
      hide list.Accounted;
      var empty := IsEmpty();
      if empty {
        return None;
      }
      var toRemove := CutFront(ButFirst(ahead));
      return Some(toRemove);
    }

    /** The front pointer moves on and the node it was at leaves the list. */
    method CutFront(ghost rest: seq<Node<T>>) returns (removed: Removed<T>)
      requires Valid() && ahead != [] && rest == ButFirst(ahead)
      modifies this, list, list.nodes
      ensures Valid() && final == old(final)
      ensures old(ahead) == [removed.node] + ahead
      ensures first == old(first) + [removed.node] && gone == old(gone) + {removed.node}
      ensures removed.home == list && removed.Valid() && removed.node in old(list.nodes) && list.HandsOut(removed.node)
      ensures forall m <- old(list.nodes) :: m.slot == old(m.slot)
    {
      hide Session, list.Valid, Without, Low, ButFirst, list.Accounted;
      NextAhead();
      var toRemove: Node<T> := front;
      RemovedFront(origin, first, toRemove, rest, final, gone, list.nodes);
      front := toRemove.next;
      removed := list.RemoveUnchecked(toRemove, Low(first, gone));
      ahead := rest;
      first := first + [toRemove];
      gone := gone + {toRemove};
    }

    method RemoveBack() returns (r: Option<Removed<T>>)
      requires Valid()
      modifies this, list, list.nodes
      ensures Valid() && first == old(first)
      ensures r.None? ==>
        old(ahead) == ahead == [] && final == old(final) && gone == old(gone) && list.nodes == old(list.nodes)
      ensures r.None? ==> list.SameValues()
      ensures r.Some? ==>
        && old(ahead) == ahead + [r.value.node] && final == old(final) + [r.value.node]
        && gone == old(gone) + {r.value.node}
      ensures r.Some? ==>
        r.value.home == list && r.value.Valid() && r.value.node in old(list.nodes) && list.HandsOut(r.value.node)
      ensures forall m <- old(list.nodes) :: m.slot == old(m.slot)
    {
      hide list.Accounted;
      var empty := IsEmpty();
      if empty {
        return None;
      }
      var toRemove := CutBack(ButLast(ahead));
      return Some(toRemove);
    }

    /** The back pointer moves on and the node it was at leaves the list. */
    method CutBack(ghost rest: seq<Node<T>>) returns (removed: Removed<T>)
      requires Valid() && ahead != [] && rest == ButLast(ahead)
      modifies this, list, list.nodes
      ensures Valid() && first == old(first)
      ensures old(ahead) == ahead + [removed.node]
      ensures final == old(final) + [removed.node] && gone == old(gone) + {removed.node}
      ensures removed.home == list && removed.Valid() && removed.node in old(list.nodes) && list.HandsOut(removed.node)
      ensures forall m <- old(list.nodes) :: m.slot == old(m.slot)
    {
      hide Session, list.Valid, Without, Low, ButLast, list.Accounted;
      NextAhead();
      var toRemove: Node<T> := back;
      RemovedBack(origin, first, rest, toRemove, final, gone, list.nodes);
      back := toRemove.prev;
      removed := list.RemoveUnchecked(toRemove, Low(first, gone) + |rest|);
      ahead := rest;
      final := final + [toRemove];
      gone := gone + {toRemove};
    }

    /**
     After any mix of pops and removals: the nodes visited from the front, those ahead, and the reverse of those
     visited from the back are the list there was, no node among them twice; and the list there is, is the list
     there was without the removed nodes.
     */
    lemma Visited()
      requires Valid()
      ensures origin == first + ahead + Reverse(final) && AllDistinct(origin)
      ensures list.nodes == Keep(origin, gone) && forall x <- gone :: x in first || x in final
    {
      hide list.Valid;
      ListOfSession(origin, first, ahead, final, gone, list.nodes);
    }
  }
}
