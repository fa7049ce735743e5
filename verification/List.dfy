/**
 The circular list of `src/list.rs`, over nodes on the heap.

 `next` and `prev` form one ring with no sentinel; a node outside every list has null
 links, and that is how membership is told. `nodes` is the list as a sequence.
 */
module Lists {
  import opened Wrappers

  /** What the node of a removed task still holds: the value until its owner drops it or moves it out. */
  datatype Slot<T> = Full(value: T) | Gone

  class Node<T> {
    const id: nat
    var next: Node?<T>
    var prev: Node?<T>
    var slot: Slot<T>

    constructor (id: nat, value: T)
      ensures this.id == id && next == null && prev == null && slot == Full(value)
    {
      this.id := id;
      next, prev, slot := null, null, Full(value);
    }
  }

  function After(i: nat, n: nat): nat {
    if i + 1 < n then i + 1 else 0
  }

  function Before(i: nat, n: nat): nat
    requires i < n
  {
    if i > 0 then i - 1 else n - 1
  }

  /** Node i of the sequence is full and linked to its neighbours on the ring. */
  ghost predicate LinkedAt<T>(nodes: seq<Node<T>>, i: nat)
    requires i < |nodes|
    reads nodes
  {
    && nodes[i].next == nodes[After(i, |nodes|)]
    && nodes[i].prev == nodes[Before(i, |nodes|)]
    && nodes[i].slot.Full?
  }

  ghost predicate Ring<T>(nodes: seq<Node<T>>)
    reads nodes
  {
    Separate(nodes) && forall i :: 0 <= i < |nodes| ==> LinkedAt(nodes, i)
  }

  ghost predicate Separate<T>(nodes: seq<Node<T>>) {
    forall i, j :: 0 <= i < j < |nodes| ==> nodes[i] != nodes[j]
  }

  lemma RingAt<T>(nodes: seq<Node<T>>, i: nat)
    requires Ring(nodes) && i < |nodes|
    ensures nodes[i].next == nodes[After(i, |nodes|)]
    ensures nodes[i].prev == nodes[Before(i, |nodes|)] && nodes[i].slot.Full?
  {
    assert LinkedAt(nodes, i);
  }

  lemma RingIsSeparate<T>(nodes: seq<Node<T>>)
    requires Ring(nodes)
    ensures Separate(nodes)
  {
  }

  function Without<T>(s: seq<T>, k: nat): (r: seq<T>)
    requires k < |s|
    ensures |r| == |s| - 1
  {
    s[..k] + s[k + 1..]
  }

  lemma WithoutMembers<T>(s: seq<T>, k: nat)
    requires k < |s|
    ensures forall x <- s :: x in Without(s, k) || x == s[k]
    ensures forall x <- Without(s, k) :: x in s
  {
    assert s == s[..k] + [s[k]] + s[k + 1..];
  }

  /** Element i of what is left, and its neighbours on the shorter ring, on the ring there was. */
  lemma WithoutNeighbours<T>(s: seq<T>, k: nat, i: nat)
    requires k < |s| && i < |s| - 1
    ensures var j := if i < k then i else i + 1; var n := |s|;
      && j != k && Without(s, k)[i] == s[j]
      && Without(s, k)[After(i, n - 1)] == s[if After(j, n) == k then After(k, n) else After(j, n)]
      && Without(s, k)[Before(i, n - 1)] == s[if Before(j, n) == k then Before(k, n) else Before(j, n)]
      && (After(j, n) == k <==> j == Before(k, n)) && (Before(j, n) == k <==> j == After(k, n))
  {
  }

  /** The ring there was, with node k bypassed. */
  ghost predicate Bypassed<T>(was: seq<Node<T>>, k: nat, j: nat)
    requires k < |was| && j < |was|
    reads was
  {
    var n := |was|;
    && was[j].next == (if After(j, n) == k then was[After(k, n)] else was[After(j, n)])
    && was[j].prev == (if Before(j, n) == k then was[Before(k, n)] else was[Before(j, n)])
    && was[j].slot.Full?
  }

  lemma BypassedAt<T>(was: seq<Node<T>>, k: nat, i: nat, j: nat)
    requires k < |was| && i < |was| - 1 && j == (if i < k then i else i + 1)
    requires Bypassed(was, k, j)
    ensures LinkedAt(Without(was, k), i)
  {
    WithoutNeighbours(was, k, i);
  }

  lemma RingWithout<T>(was: seq<Node<T>>, k: nat)
    requires k < |was| && Separate(was)
    requires forall j :: 0 <= j < |was| && j != k ==> Bypassed(was, k, j)
    ensures Ring(Without(was, k))
  {
    forall i | 0 <= i < |was| - 1
      ensures LinkedAt(Without(was, k), i)
    {
      var j := if i < k then i else i + 1;
      assert Bypassed(was, k, j);
      BypassedAt(was, k, i, j);
    }
  }

  /** The owner of the value of a removed node; it ends with `IntoInner` or `Drop`. */
  datatype Removed<T> = Removed(node: Node<T>, home: List<T>) {
    ghost predicate Valid()
      reads node, home
    {
      node in home.out && node !in home.nodes && node.slot.Full? && node.next == null && node.prev == null
    }

    /** Lines 347-357: the value is moved out. */
    method IntoInner() returns (value: T)
      requires Valid()
      modifies node`slot, home`out, home`spent
      ensures Full(value) == old(node.slot)
      ensures node.slot.Gone? && home.Spends(node)
    {
      value := node.slot.value;
      node.slot := Gone;
      home.out := home.out - {node};
      home.spent := home.spent + [node];
    }

    /** Lines 360-367: the value is dropped. */
    method Drop()
      requires Valid()
      modifies node`slot, home`out, home`spent
      ensures node.slot.Gone? && home.Spends(node)
    {
      var value := IntoInner();
    }
  }

  /** The value of a node is in the list, or in the hands of a `Removed`, or it is gone and logged once. */
  ghost predicate Account<T>(m: Node<T>, nodes: seq<Node<T>>, out: set<Node<T>>, spent: seq<Node<T>>)
    reads m
  {
    && multiset(spent)[m] == (if m in nodes || m in out then 0 else 1)
    && (m in nodes ==> m !in out)
    && (m.slot.Gone? <==> m !in nodes && m !in out)
    && (m !in nodes ==> m.next == null && m.prev == null)
  }

  /**
   A list. The ghost fields say where the values are: `made` are the nodes pushed so far; each is in the list, or in
   the hands of a `Removed` (`out`), or its value was dropped or moved out (`spent`, in order).
   */
  class List<T> {
    var front: Node?<T>
    var len: nat
    ghost var nodes: seq<Node<T>>
    ghost var made: seq<Node<T>>
    ghost var out: set<Node<T>>
    ghost var spent: seq<Node<T>>

    /** Each value is in one place, and it is gone exactly when the log has it, once. */
    ghost predicate Accounted()
      reads this, made
    {
      && (forall m <- made :: Account(m, nodes, out, spent))
      && (forall m <- nodes :: m in made) && (forall m <- out :: m in made) && (forall m <- spent :: m in made)
    }

    /** A node gets from the list into the hands of a `Removed`. */
    twostate predicate HandsOut(new node: Node<T>)
      reads this, made
    {
      && out == old(out) + {node} && spent == old(spent) && made == old(made)
      && (old(Accounted()) ==> Accounted())
    }

    /** The value of a removed node goes. */
    twostate predicate Spends(new node: Node<T>)
      reads this, made
    {
      && out == old(out) - {node} && spent == old(spent) + [node] && made == old(made)
      && (old(Accounted()) ==> Accounted())
    }

    /** Some values are dropped; none is made, removed or moved. */
    twostate predicate Loses(new lost: seq<Node<T>>)
      reads this, made
    {
      && spent == old(spent) + lost && made == old(made)
      && (old(Accounted()) ==> Accounted() && out == old(out))
    }

    twostate predicate SameValues()
      reads this, made
    {
      && out == old(out) && spent == old(spent) && made == old(made)
      && (old(Accounted()) ==> Accounted())
    }

    ghost predicate Valid()
      reads this`front, this`len, this`nodes, nodes
    {
      && len == |nodes|
      && front == (if nodes == [] then null else nodes[0])
      && Ring(nodes)
    }

    constructor ()
      ensures Valid() && nodes == [] && Accounted() && made == [] && out == {} && spent == []
    {
      front, len, nodes := null, 0, [];
      made, out, spent := [], {}, [];
    }

    lemma At(i: nat)
      requires Valid() && i < |nodes|
      ensures nodes[i].next == nodes[After(i, |nodes|)]
      ensures nodes[i].prev == nodes[Before(i, |nodes|)] && nodes[i].slot.Full?
    {
      RingAt(nodes, i);
    }

    /** Lines 52-69: the node becomes the last one. */
    method LinkBack(node: Node<T>)
      requires Valid() && node !in nodes && node.slot.Full?
      modifies this, nodes, node
      ensures Valid() && nodes == old(nodes) + [node]
      ensures forall m <- nodes :: m.slot == old(m.slot)
      ensures made == old(made) + [node] && out == old(out) && spent == old(spent)
      ensures old(Accounted()) && node !in old(made) ==> Accounted()
    {
      ghost var n := |nodes|;
      if front == null {
        front := node;
        node.prev, node.next := node, node;
      } else {
        assert LinkedAt(nodes, 0);
        var back := front.prev;
        front.prev := node;
        back.next := node;
        node.prev, node.next := back, front;
      }
      len := len + 1;
      nodes := nodes + [node];
      made := made + [node];
      forall i | 0 <= i < |nodes|
        ensures LinkedAt(nodes, i)
      {
        if i < n {
          assert old(LinkedAt(nodes, i));
        }
      }
    }

    /** Lines 188-196: the neighbours bypass the node. */
    method Unlink(node: Node<T>, ghost k: nat)
      requires Ring(nodes) && k < |nodes| && nodes[k] == node
      modifies nodes
      ensures node.next == null && node.prev == null && Ring(Without(nodes, k))
      ensures forall m <- nodes :: m.slot == old(m.slot)
    {
      assert LinkedAt(nodes, k);
      var prev := node.prev;
      var next := node.next;
      prev.next := next;
      next.prev := prev;
      node.next := null;
      node.prev := null;
      forall j | 0 <= j < |nodes| && j != k
        ensures Bypassed(nodes, k, j)
      {
        assert old(LinkedAt(nodes, j));
      }
      RingWithout(nodes, k);
    }

    /** Lines 187-209. The caller knows the node is number k. */
    method RemoveUnchecked(node: Node<T>, ghost k: nat) returns (removed: Removed<T>)
      requires Valid() && k < |nodes| && nodes[k] == node
      modifies this, nodes
      ensures Valid() && nodes == Without(old(nodes), k)
      ensures removed == Removed(node, this) && removed.Valid() && HandsOut(node)
      ensures forall m <- old(nodes) :: m.slot == old(m.slot)
    {
      ghost var was := nodes;
      assert LinkedAt(nodes, k);
      Detach(node, k);
      if old(Accounted()) {
        forall m | m in made
          ensures Account(m, was, out, spent)
        {
          assert old(Account(m, nodes, out, spent));
        }
        StillAccounted(was, node, k);
      }
      out := out + {node};
      removed := Removed(node, this);
    }

    method Detach(node: Node<T>, ghost k: nat)
      requires Valid() && k < |nodes| && nodes[k] == node
      modifies this`front, this`len, this`nodes, nodes
      ensures Valid() && nodes == Without(old(nodes), k)
      ensures node !in nodes && node.next == null && node.prev == null
      ensures forall m <- old(nodes) :: m.slot == old(m.slot)
    {
      assert LinkedAt(nodes, k);
      var next := node.next;
      Unlink(node, k);
      len := len - 1;
      if len == 0 {
        front := null;
      } else if front == node {
        front := next;
      }
      nodes := Without(nodes, k);
    }

    /** The node was detached; it goes to a `Removed`. */
    lemma StillAccounted(was: seq<Node<T>>, node: Node<T>, k: nat)
      requires k < |was| && was[k] == node && nodes == Without(was, k)
      requires node !in nodes && node.next == null && node.prev == null
      requires forall m <- made :: Account(m, was, out, spent)
      requires node in made
      ensures forall m <- made :: Account(m, nodes, out + {node}, spent)
      ensures forall m <- nodes :: m in was
    {
      WithoutMembers(was, k);
      forall m | m in made
        ensures Account(m, nodes, out + {node}, spent)
      {
        assert Account(m, was, out, spent);
      }
    }

    /** The check of lines 89, 107, 126 and 143: a node of this list, stored or removed, is stored when it is linked. */
    method Linked(node: Node<T>) returns (linked: bool)
      requires Valid() && (node in nodes || node.next == null)
      ensures linked <==> node in nodes
    {
      if node in nodes {
        ghost var k: nat :| k < |nodes| && nodes[k] == node;
        assert LinkedAt(nodes, k);
      }
      linked := node.next != null;
    }

    /** Lines 125-131. */
    method Remove(node: Node<T>) returns (r: Option<Removed<T>>, ghost k: nat)
      requires Valid() && (node in nodes || node.next == null)
      modifies this, nodes
      ensures Valid() && node !in nodes && node.next == null
      ensures r.Some? <==> node in old(nodes)
      ensures r.Some? ==> k < |old(nodes)| && old(nodes)[k] == node && nodes == Without(old(nodes), k)
      ensures r.Some? ==> r.value == Removed(node, this) && r.value.Valid() && HandsOut(node)
      ensures r.None? ==> nodes == old(nodes) && SameValues()
      ensures forall m <- old(nodes) :: m.slot == old(m.slot)
    {
      k := 0;
      var linked := Linked(node);
      if !linked {
        return None, 0;
      }
      k :| k < |nodes| && nodes[k] == node;
      var removed := RemoveUnchecked(node, k);
      return Some(removed), k;
    }

    /** One turn of the loop at line 229: the first node leaves the list and its value is dropped. */
    method DropFront() returns (node: Node<T>)
      requires Valid() && nodes != []
      modifies this, nodes
      ensures Valid() && node == old(nodes)[0] && nodes == old(nodes)[1..]
      ensures node.slot.Gone? && node.next == null && node !in nodes && Loses([node])
    {
      hide Accounted;
      node := front;
      NotHandedOut();
      var removed := RemoveUnchecked(node, 0);
      assert nodes == old(nodes)[1..];
      label linked: assert Ring(nodes);
      removed.Drop();
      forall i | 0 <= i < |nodes|
        ensures LinkedAt(nodes, i)
      {
        assert old@linked(LinkedAt(nodes, i));
      }
    }

    lemma NotHandedOut()
      ensures Accounted() ==> forall m <- nodes :: m !in out
    {
    }

    /**
     Lines 225-234: drop the values front to back. A value whose drop panics is gone all the same;
     the guard then drops the rest while the panic unwinds, and a second panic aborts the process.
     */
    method DropAll(panics: nat -> bool, unwinding: bool) returns (outcome: DropOutcome, ghost dropped: seq<Node<T>>)
      requires Valid()
      modifies this, nodes
      ensures dropped <= old(nodes) && AllGone(dropped)
      ensures !outcome.Aborted? ==> Valid() && nodes == [] && dropped == old(nodes)
      ensures outcome.Aborted? ==> dropped != [] && panics(dropped[|dropped| - 1].id)
      ensures outcome == Verdict(Panicking(old(nodes), panics) + if unwinding then 1 else 0)
      ensures outcome.Completed? <==> !unwinding && !SomePanics(old(nodes), panics)
      ensures outcome.Aborted? <==> if unwinding then SomePanics(old(nodes), panics) else TwoPanic(old(nodes), panics)
      ensures Loses(dropped)
    {
      hide Valid, Panicking, Verdict, SomePanics, TwoPanic, Separate, AllGone, Accounted;
      Ends();
      NothingGone<T>();
      assert [] + nodes == nodes;
      VerdictMeans(nodes, panics, unwinding);
      outcome, dropped := DropMany(panics, unwinding, spent, []);
    }

    /** The loop, when `before` were dropped already. The guard is dropped again while a panic unwinds. */
    method DropMany(panics: nat -> bool, unwinding: bool, ghost log: seq<Node<T>>, ghost before: seq<Node<T>>)
      returns (outcome: DropOutcome, ghost dropped: seq<Node<T>>)
      requires Valid() && AllGone(before) && Separate(before + nodes) && spent == log + before
      modifies this, nodes
      ensures dropped <= before + old(nodes) && AllGone(dropped)
      ensures !outcome.Aborted? ==> Valid() && nodes == [] && dropped == before + old(nodes)
      ensures outcome.Aborted? ==> dropped != [] && panics(dropped[|dropped| - 1].id)
      ensures outcome == Verdict(Panicking(old(nodes), panics) + if unwinding then 1 else 0)
      ensures spent == log + dropped && made == old(made) && (old(Accounted()) ==> Accounted() && out == old(out))
      decreases len
    {
      hide Valid, Panicking, Separate, AllGone, Accounted;
      ghost var was := nodes;
      ghost var all := before + nodes;
      dropped := before;
      Ends();
      while front != null
        invariant Valid() && (front == null <==> nodes == []) && len == |nodes| && len <= |was|
        invariant dropped + nodes == all && Separate(all) && AllGone(dropped)
        invariant spent == log + dropped && made == old(made) && (old(Accounted()) ==> Accounted() && out == old(out))
        invariant forall i :: 0 <= i < |nodes| ==> nodes[i] in was
        invariant Panicking(was, panics) == Panicking(nodes, panics)
        decreases len
      {
        PanickingHead(nodes, panics);
        var node := DropNext(log, dropped);
        dropped := dropped + [node];
        Ends();
        if panics(node.id) {
          if unwinding {
            return Aborted, dropped;
          }
          outcome, dropped := DropMany(panics, true, log, dropped);
          return;
        }
      }
      assert nodes == [] && dropped + nodes == dropped;
      PanickingHead(nodes, panics);
      outcome := if unwinding then Panicked else Completed;
    }

    /** The first value is dropped after those before it. */
    method DropNext(ghost log: seq<Node<T>>, ghost before: seq<Node<T>>) returns (node: Node<T>)
      requires Valid() && nodes != [] && AllGone(before) && Separate(before + nodes) && spent == log + before
      modifies this, nodes
      ensures Valid() && node == old(nodes)[0] && nodes == old(nodes)[1..]
      ensures AllGone(before + [node]) && (before + [node]) + nodes == before + old(nodes)
      ensures spent == log + (before + [node]) && made == old(made)
      ensures old(Accounted()) ==> Accounted() && out == old(out)
    {
      hide Valid, Separate, Accounted;
      Apart(before, nodes);
      node := DropFront();
      MoreGone(before, node, nodes);
    }

    lemma Ends()
      requires Valid()
      ensures (front == null <==> nodes == []) && len == |nodes| && Separate(nodes)
    {
    }
  }

  ghost predicate AllGone<T>(nodes: seq<Node<T>>)
    reads nodes
  {
    forall i :: 0 <= i < |nodes| ==> nodes[i].slot.Gone? && nodes[i].next == null
  }

  lemma NothingGone<T>()
    ensures AllGone<T>([])
  {
  }

  /** The nodes dropped so far are none of those that are left. */
  lemma Apart<T>(dropped: seq<Node<T>>, rest: seq<Node<T>>)
    requires Separate(dropped + rest)
    ensures forall i :: 0 <= i < |dropped| ==> dropped[i] !in rest
  {
    forall i, j | 0 <= i < |dropped| && 0 <= j < |rest|
      ensures dropped[i] != rest[j]
    {
      assert (dropped + rest)[i] == dropped[i] && (dropped + rest)[|dropped| + j] == rest[j];
    }
  }

  lemma MoreGone<T>(dropped: seq<Node<T>>, node: Node<T>, rest: seq<Node<T>>)
    requires AllGone(dropped) && node.slot.Gone? && node.next == null
    ensures AllGone(dropped + [node]) && dropped + ([node] + rest) == (dropped + [node]) + rest
  {
  }

  lemma PanickingHead<T>(nodes: seq<Node<T>>, panics: nat -> bool)
    ensures Panicking(nodes, panics) ==
      if nodes == [] then 0 else (if panics(nodes[0].id) then 1 else 0) + Panicking(nodes[1..], panics)
  {
  }

  ghost predicate SomePanics<T>(nodes: seq<Node<T>>, panics: nat -> bool) {
    exists i :: 0 <= i < |nodes| && panics(nodes[i].id)
  }

  ghost predicate TwoPanic<T>(nodes: seq<Node<T>>, panics: nat -> bool) {
    exists i, j :: 0 <= i < j < |nodes| && panics(nodes[i].id) && panics(nodes[j].id)
  }

  lemma {:induction false} PanickingMeans<T>(nodes: seq<Node<T>>, panics: nat -> bool)
    ensures Panicking(nodes, panics) > 0 <==> SomePanics(nodes, panics)
    ensures Panicking(nodes, panics) > 1 <==> TwoPanic(nodes, panics)
  {
    if nodes != [] {
      var rest := nodes[1..];
      PanickingMeans(rest, panics);
      assert forall i :: 0 <= i < |rest| ==> rest[i] == nodes[i + 1];
      assert forall i :: 0 < i < |nodes| ==> nodes[i] == rest[i - 1];
    }
  }

  lemma VerdictMeans<T>(nodes: seq<Node<T>>, panics: nat -> bool, unwinding: bool)
    ensures var outcome := Verdict(Panicking(nodes, panics) + if unwinding then 1 else 0);
      && (outcome.Completed? <==> !unwinding && !SomePanics(nodes, panics))
      && (outcome.Aborted? <==> if unwinding then SomePanics(nodes, panics) else TwoPanic(nodes, panics))
  {
    PanickingMeans(nodes, panics);
  }

  /** How the drop of a list ends. */
  datatype DropOutcome = Completed | Panicked | Aborted

  /** The outcome of so many panics. */
  function Verdict(panics: nat): DropOutcome {
    if panics == 0 then Completed else if panics == 1 then Panicked else Aborted
  }

  /** How many of the values panic when dropped. */
  function Panicking<T>(nodes: seq<Node<T>>, panics: nat -> bool): nat {
    if nodes == [] then 0 else (if panics(nodes[0].id) then 1 else 0) + Panicking(nodes[1..], panics)
  }
}
