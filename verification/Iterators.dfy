/**
 The filtering iterators of `src/selector/iter.rs`, and `Selector::retain`.

 A predicate is a function of the node: an iterator asks about a node at most once, so
 whatever state a closure keeps, its answers in one run are such a function.
 */
module Iterators {
  import opened Wrappers
  import opened Lists
  import opened Cursors

  /** The nodes whose number satisfies the predicate, in order. */
  ghost function Sift<T>(s: seq<Node<T>>, pred: nat -> bool): seq<Node<T>> {
    if s == [] then [] else (if pred(s[0].id) then [s[0]] else []) + Sift(s[1..], pred)
  }

  function Not(pred: nat -> bool): nat -> bool {
    (n: nat) => !pred(n)
  }

  /** Without the nodes that satisfy the predicate, the others are left. */
  lemma {:induction false} KeepIsSift<T>(s: seq<Node<T>>, gone: set<Node<T>>, pred: nat -> bool)
    requires forall x <- s :: x in gone <==> pred(x.id)
    ensures Keep(s, gone) == Sift(s, Not(pred))
  {
    if s != [] {
      assert s[0] in s;
      KeepIsSift(s[1..], gone, pred);
    }
  }

  lemma {:induction false} SiftMember<T>(s: seq<Node<T>>, pred: nat -> bool, x: Node<T>)
    ensures x in Sift(s, pred) <==> x in s && pred(x.id)
  {
    if s != [] {
      SiftMember(s[1..], pred, x);
      assert s == [s[0]] + s[1..];
    }
  }

  /** Of the nodes visited so far, those that satisfy the predicate are removed. */
  ghost predicate Sifted<T>(first: seq<Node<T>>, final: seq<Node<T>>, gone: set<Node<T>>, pred: nat -> bool) {
    && (forall x <- first :: x in gone <==> pred(x.id))
    && (forall x <- final :: x in gone <==> pred(x.id))
  }

  lemma SiftedMore<T>(first: seq<Node<T>>, final: seq<Node<T>>, gone: set<Node<T>>, pred: nat -> bool, x: Node<T>)
    requires Sifted(first, final, gone, pred)
    ensures pred(x.id) ==> Sifted(first + [x], final, gone + {x}, pred) && Sifted(first, final + [x], gone + {x}, pred)
    ensures !pred(x.id) && x !in gone ==>
      Sifted(first + [x], final, gone, pred) && Sifted(first, final + [x], gone, pred)
  {
  }

  lemma Regroup<T>(a: seq<T>, x: T, b: seq<T>)
    ensures a + ([x] + b) == (a + [x]) + b
  {
  }

  lemma RegroupBack<T>(all: seq<T>, ahead: seq<T>, x: T, skipped: seq<T>)
    requires all == ahead + [x]
    ensures all + Reverse(skipped) == ahead + Reverse(skipped + [x])
  {
    ReverseSnoc(skipped, x);
    assert (ahead + [x]) + Reverse(skipped) == ahead + ([x] + Reverse(skipped));
  }

  lemma Skipped<T>(skipped: seq<Node<T>>, x: Node<T>, pred: nat -> bool)
    requires (forall m <- skipped :: !pred(m.id)) && !pred(x.id)
    ensures forall m <- skipped + [x] :: !pred(m.id)
  {
  }

  /** Lines 92-134. */
  class ExtractIf<T> {
    const cursor: Cursor<T>
    const pred: nat -> bool

    ghost predicate Valid()
      reads cursor, cursor.list`front, cursor.list`len, cursor.list`nodes, cursor.list.nodes
    {
      cursor.Valid() && Sifted(cursor.first, cursor.final, cursor.gone, pred)
    }

    constructor (cursor: Cursor<T>, pred: nat -> bool)
      requires cursor.Valid() && cursor.first == cursor.final == []
      ensures Valid() && this.cursor == cursor && this.pred == pred
    {
      this.cursor, this.pred := cursor, pred;
    }

    method Next() returns (r: Option<Removed<T>>, ghost skipped: seq<Node<T>>)
      requires Valid()
      modifies cursor, cursor.list, cursor.list.nodes
      ensures Valid() && cursor.final == old(cursor.final)
      ensures forall m <- skipped :: !pred(m.id)
      ensures r.None? ==> cursor.ahead == [] && skipped == old(cursor.ahead)
      ensures r.None? ==> cursor.first == old(cursor.first) + skipped && cursor.gone == old(cursor.gone)
      ensures r.Some? ==> r.value.home == cursor.list && r.value.Valid() && r.value.node in old(cursor.list.nodes)
      ensures if r.Some? then cursor.list.HandsOut(r.value.node) else cursor.list.SameValues()
      ensures r.Some? ==> pred(r.value.node.id) && old(cursor.ahead) == skipped + [r.value.node] + cursor.ahead
      ensures r.Some? ==>
        cursor.first == old(cursor.first) + skipped + [r.value.node] && cursor.gone == old(cursor.gone) + {r.value.node}
      ensures forall m <- old(cursor.list.nodes) :: m.slot == old(m.slot)
    {
      hide Sifted, cursor.Valid, cursor.list.Accounted;
      skipped := [];
      var next := cursor.PeekFront();
      while next.Some? && !pred(next.value.id)
        modifies cursor
        invariant Valid() && cursor.final == old(cursor.final) && cursor.gone == old(cursor.gone)
        invariant forall m <- skipped :: !pred(m.id)
        invariant old(cursor.ahead) == skipped + cursor.ahead
        invariant cursor.first == old(cursor.first) + skipped
        invariant next == if cursor.ahead == [] then None else Some(cursor.ahead[0])
        decreases |cursor.ahead|
      {
        SiftedMore(cursor.first, cursor.final, cursor.gone, pred, next.value);
        var popped := cursor.PopFront();
        Regroup(skipped, next.value, cursor.ahead);
        Skipped(skipped, next.value, pred);
        skipped := skipped + [next.value];
        next := cursor.PeekFront();
      }
      if next == None {
        return None, skipped;
      }
      SiftedMore(cursor.first, cursor.final, cursor.gone, pred, next.value);
      r := cursor.RemoveFront();
      Regroup(skipped, r.value.node, cursor.ahead);
    }

    method NextBack() returns (r: Option<Removed<T>>, ghost skipped: seq<Node<T>>)
      requires Valid()
      modifies cursor, cursor.list, cursor.list.nodes
      ensures Valid() && cursor.first == old(cursor.first)
      ensures forall m <- skipped :: !pred(m.id)
      ensures r.None? ==> cursor.ahead == [] && Reverse(skipped) == old(cursor.ahead)
      ensures r.None? ==> cursor.final == old(cursor.final) + skipped && cursor.gone == old(cursor.gone)
      ensures r.Some? ==> r.value.home == cursor.list && r.value.Valid() && r.value.node in old(cursor.list.nodes)
      ensures if r.Some? then cursor.list.HandsOut(r.value.node) else cursor.list.SameValues()
      ensures r.Some? ==> pred(r.value.node.id) && old(cursor.ahead) == cursor.ahead + Reverse(skipped + [r.value.node])
      ensures r.Some? ==>
        cursor.final == old(cursor.final) + skipped + [r.value.node] && cursor.gone == old(cursor.gone) + {r.value.node}
      ensures forall m <- old(cursor.list.nodes) :: m.slot == old(m.slot)
    {
      hide Sifted, cursor.Valid, cursor.list.Accounted;
      skipped := [];
      var back := cursor.PeekBack();
      while back.Some? && !pred(back.value.id)
        modifies cursor
        invariant Valid() && cursor.first == old(cursor.first) && cursor.gone == old(cursor.gone)
        invariant forall m <- skipped :: !pred(m.id)
        invariant old(cursor.ahead) == cursor.ahead + Reverse(skipped)
        invariant cursor.final == old(cursor.final) + skipped
        invariant back == if cursor.ahead == [] then None else Some(cursor.ahead[|cursor.ahead| - 1])
        decreases |cursor.ahead|
      {
        SiftedMore(cursor.first, cursor.final, cursor.gone, pred, back.value);
        ghost var ahead := cursor.ahead;
        var popped := cursor.PopBack();
        RegroupBack(ahead, cursor.ahead, back.value, skipped);
        Skipped(skipped, back.value, pred);
        skipped := skipped + [back.value];
        back := cursor.PeekBack();
      }
      if back == None {
        return None, skipped;
      }
      SiftedMore(cursor.first, cursor.final, cursor.gone, pred, back.value);
      ghost var ahead := cursor.ahead;
      r := cursor.RemoveBack();
      RegroupBack(ahead, cursor.ahead, back.value, skipped);
    }

    /**
     At any moment the list is what it was without the visited nodes that satisfy the predicate;
     once nothing is ahead, it is the other half of the filter.
     */
    lemma Retains()
      requires Valid()
      ensures cursor.list.Valid() && cursor.list.nodes == Keep(cursor.origin, cursor.gone)
      ensures forall x <- cursor.gone :: pred(x.id) && (x in cursor.first || x in cursor.final)
      ensures cursor.ahead == [] ==> cursor.list.nodes == Sift(cursor.origin, Not(pred))
    {
      ListOfSession(cursor.origin, cursor.first, cursor.ahead, cursor.final, cursor.gone, cursor.list.nodes);
      if cursor.ahead == [] {
        ReverseMembers(cursor.final);
        KeepIsSift(cursor.origin, cursor.gone, pred);
      }
    }
  }

  /** `Selector::retain`, lines 205-210 of selector.rs: exhaust an ExtractIf with the negated predicate. */
  method Retain<T>(list: List<T>, pred: nat -> bool)
    requires list.Valid()
    modifies list, list.nodes
    ensures list.Valid() && list.nodes == Sift(old(list.nodes), pred)
    ensures forall m <- old(list.nodes) ::
      if m in list.nodes then m.slot == old(m.slot) else m.slot.Gone? && m.next == null
    ensures list.made == old(list.made) && old(list.spent) <= list.spent
    ensures old(list.Accounted()) ==> list.Accounted() && list.out == old(list.out)
  {
    hide ExtractIf<T>.Valid, Cursor<T>.Valid, List<T>.Valid, List<T>.Accounted, Keep, Sift, Not, Session, Ring;
    var cursor := new Cursor(list);
    var extract := new ExtractIf(cursor, Not(pred));
    var more := true;
    while more
      invariant extract.Valid() && extract.cursor == cursor && extract.pred == Not(pred)
      invariant fresh(cursor) && cursor.list == list && cursor.origin == old(list.nodes)
      invariant forall i :: 0 <= i < |list.nodes| ==> list.nodes[i] in old(list.nodes)
      invariant forall m <- old(list.nodes) ::
        if m in list.nodes then m.slot == old(m.slot) else m.slot.Gone? && m.next == null
      invariant list.made == old(list.made) && old(list.spent) <= list.spent
      invariant old(list.Accounted()) ==> list.Accounted() && list.out == old(list.out)
      invariant !more ==> cursor.ahead == []
      decreases |cursor.ahead|, more
    {
      more := DropNext(extract);
      extract.Retains();
      KeepMembers(cursor.origin, cursor.gone);
    }
    extract.Retains();
    NotNot(old(list.nodes), pred);
  }

  /** One turn of the loop: the next node that satisfies the predicate is removed, and its value dropped. */
  method DropNext<T>(extract: ExtractIf<T>) returns (more: bool)
    requires extract.Valid()
    modifies extract.cursor, extract.cursor.list, extract.cursor.list.nodes
    ensures extract.Valid()
    ensures forall m <- extract.cursor.list.nodes :: m in old(extract.cursor.list.nodes)
    ensures forall m <- old(extract.cursor.list.nodes) ::
      if m in extract.cursor.list.nodes then m.slot == old(m.slot) else m.slot.Gone? && m.next == null
    ensures extract.cursor.list.made == old(extract.cursor.list.made)
    ensures old(extract.cursor.list.spent) <= extract.cursor.list.spent
    ensures old(extract.cursor.list.Accounted()) ==>
      extract.cursor.list.Accounted() && extract.cursor.list.out == old(extract.cursor.list.out)
    ensures if more then |extract.cursor.ahead| < |old(extract.cursor.ahead)| else extract.cursor.ahead == []
  {
    hide extract.Valid, extract.cursor.Valid, List<T>.Accounted;
    extract.Retains();
    extract.cursor.list.NotHandedOut();
    ghost var gone := extract.cursor.gone;
    var r, skipped := extract.Next();
    extract.Retains();
    more := r.Some?;
    if more {
      KeepMore(extract.cursor.origin, gone, r.value.node);
      r.value.Drop();
    }
  }

  lemma KeepMore<T>(s: seq<T>, gone: set<T>, x: T)
    ensures forall m :: m in Keep(s, gone + {x}) <==> m in Keep(s, gone) && m != x
  {
    forall m
      ensures m in Keep(s, gone + {x}) <==> m in Keep(s, gone) && m != x
    {
      KeepMember(s, gone, m);
      KeepMember(s, gone + {x}, m);
    }
  }

  lemma KeepMembers<T>(s: seq<T>, gone: set<T>)
    ensures forall x <- Keep(s, gone) :: x in s
  {
    forall x | x in Keep(s, gone)
      ensures x in s
    {
      KeepMember(s, gone, x);
    }
  }

  lemma {:induction false} NotNot<T>(s: seq<Node<T>>, pred: nat -> bool)
    ensures Sift(s, Not(Not(pred))) == Sift(s, pred)
  {
    if s != [] {
      NotNot(s[1..], pred);
    }
  }

  // ---------- lines 8-34: the list is taken apart from either end ----------

  method IntoIterNext<T>(list: List<T>) returns (r: Option<Removed<T>>)
    requires list.Valid()
    modifies list, list.nodes
    ensures list.Valid()
    ensures r.None? ==> old(list.nodes) == list.nodes == [] && list.SameValues()
    ensures r.Some? ==> old(list.nodes) == [r.value.node] + list.nodes
    ensures r.Some? ==>
      && r.value.home == list && r.value.Valid() && r.value.node.slot == old(list.nodes[0].slot)
      && list.HandsOut(r.value.node)
  {
    hide Cursor<T>.Valid, List<T>.Valid, List<T>.Accounted, Session, Ring;
    var cursor := new Cursor(list);
    r := cursor.RemoveFront();
    assert cursor.first == (if r.Some? then [r.value.node] else []) && cursor.final == [];
    Whole(cursor);
  }

  method IntoIterNextBack<T>(list: List<T>) returns (r: Option<Removed<T>>)
    requires list.Valid()
    modifies list, list.nodes
    ensures list.Valid()
    ensures r.None? ==> old(list.nodes) == list.nodes == [] && list.SameValues()
    ensures r.Some? ==> old(list.nodes) == list.nodes + [r.value.node]
    ensures r.Some? ==> r.value.home == list && r.value.Valid() && list.HandsOut(r.value.node)
    ensures r.Some? ==> r.value.node.slot == old(list.nodes[|list.nodes| - 1].slot)
  {
    hide Cursor<T>.Valid, List<T>.Valid, List<T>.Accounted, Session, Ring;
    var cursor := new Cursor(list);
    r := cursor.RemoveBack();
    assert cursor.final == (if r.Some? then [r.value.node] else []) && cursor.first == [];
    Whole(cursor);
  }

  /** When all that was visited was removed, the list is what is ahead. */
  lemma Whole<T>(cursor: Cursor<T>)
    requires cursor.Valid()
    requires (forall x <- cursor.first :: x in cursor.gone) && (forall x <- cursor.final :: x in cursor.gone)
    ensures cursor.list.Valid() && cursor.list.nodes == cursor.ahead
  {
    KeepNone(cursor.first, cursor.gone);
    ReverseMembers(cursor.final);
    assert forall i :: 0 <= i < |cursor.final| ==> cursor.final[i] in cursor.gone;
    KeepNone(Reverse(cursor.final), cursor.gone);
  }

  lemma {:induction false} KeepNone<T>(s: seq<T>, gone: set<T>)
    requires forall x <- s :: x in gone
    ensures Keep(s, gone) == []
  {
    if s != [] {
      assert s[0] in s;
      KeepNone(s[1..], gone);
    }
  }
}
