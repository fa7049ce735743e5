/** Every step of every thread keeps the structural invariant of the wake queue. */
module ProtocolInvariant {
  import opened Protocol

  // ---------- lists of pointers ----------

  lemma {:induction false} RealsConcat(a: seq<Ptr>, b: seq<Ptr>)
    ensures Reals(a + b) == Reals(a) + Reals(b)
  {
    if a == [] {
      assert a + b == b;
    } else {
      RealsConcat(a[1..], b);
      assert (a + b)[1..] == a[1..] + b;
    }
  }

  lemma {:induction false} RealsEmpty(c: seq<Ptr>)
    ensures Reals(c) == [] <==> forall i :: 0 <= i < |c| ==> !c[i].Real?
  {
    if c != [] {
      RealsEmpty(c[1..]);
      assert c == [c[0]] + c[1..];
    }
  }

  /** The history splits at the tail into what was delivered and what waits. */
  lemma HistorySplits(s: State)
    requires s.q.pos <= |s.q.chain|
    ensures Reals(s.q.chain) == Reals(s.q.chain[..s.q.pos]) + Waiting(s)
  {
    RealsConcat(s.q.chain[..s.q.pos], s.q.chain[s.q.pos..]);
    assert s.q.chain == s.q.chain[..s.q.pos] + s.q.chain[s.q.pos..];
  }

  // ---------- the queue, seen through its ends and links ----------

  ghost predicate SameQueue(s: State, r: State) {
    && r.q == s.q
    && r.m.head == s.m.head && r.m.tail == s.m.tail
  }

  ghost predicate SameLinkers(s: State, r: State) {
    && (forall t: nat :: At(s.producers, t).Linking? || At(r.producers, t).Linking? ==>
          At(r.producers, t) == At(s.producers, t))
    && (s.consumer.LinkingStub? || r.consumer.LinkingStub? ==> r.consumer == s.consumer)
  }

  ghost predicate Ring(s: State) {
    Shape(s) && Links(s) && Owers(s)
  }

  lemma ShapeFrame(s: State, r: State)
    requires Shape(s) && SameQueue(s, r)
    ensures Shape(r)
  {
  }

  /** No pointer of the queue and no link of it changes. */
  lemma LinksFrame(s: State, r: State)
    requires Shape(s) && Links(s) && Shape(r) && SameQueue(s, r) && SameLinkers(s, r)
    requires forall p :: Queued(s, p) ==> Load(r.m.next, p) == Load(s.m.next, p)
    ensures Links(r)
  {
    assert Queued(s, s.m.head);
    forall i | r.q.pos <= i < |r.q.chain| - 1
      ensures LinkAt(r, i)
    {
      assert LinkAt(s, i);
      assert Queued(s, s.q.chain[i]);
    }
  }

  lemma OwersFrame(s: State, r: State)
    requires Shape(s) && Owers(s) && Shape(r) && SameQueue(s, r) && SameLinkers(s, r)
    ensures Owers(r)
  {
  }

  lemma RingFrame(s: State, r: State)
    requires Ring(s) && SameQueue(s, r) && SameLinkers(s, r)
    requires forall p :: Queued(s, p) ==> Load(r.m.next, p) == Load(s.m.next, p)
    ensures Ring(r)
  {
    ShapeFrame(s, r);
    LinksFrame(s, r);
    OwersFrame(s, r);
  }

  // ---------- a swap of `head` ----------

  /**
   A pointer that is not in the queue and whose link is null is swapped into `head` by thread t, which owes the link.
   */
  ghost predicate Swap(s: State, r: State, p: Ptr, t: nat) {
    && !Queued(s, p) && p != Null && Load(s.m.next, p) == Null
    && r.q.chain == s.q.chain + [p] && r.q.via == s.q.via + [t]
    && r.q.last == s.q.last[p := |s.q.chain|] && r.q.pos == s.q.pos
    && r.m.head == p && r.m.tail == s.m.tail && r.m.next == s.m.next
    && (forall u: nat :: u != t || p == Stub ==> At(r.producers, u) == At(s.producers, u))
    && (p.Real? ==>
          !At(s.producers, t).Linking? && At(r.producers, t) == Linking(p.id, s.m.head) && r.consumer == s.consumer)
    && (p.Stub? ==> !s.consumer.LinkingStub? && r.consumer == LinkingStub(s.m.head))
  }

  lemma ShapeSwap(s: State, r: State, p: Ptr, t: nat)
    requires Shape(s) && Swap(s, r, p, t)
    ensures Shape(r)
  {
    forall i | r.q.pos <= i < |r.q.chain|
      ensures r.q.chain[i] != Null && r.q.chain[i] in r.q.last && r.q.last[r.q.chain[i]] == i
    {
      if i < |s.q.chain| {
        assert Queued(s, s.q.chain[i]);
      }
    }
  }

  lemma OwedSwap(s: State, r: State, p: Ptr, t: nat, i: nat)
    requires Shape(s) && Owers(s) && Shape(r) && Swap(s, r, p, t)
    requires s.q.pos < i < |r.q.chain|
    ensures Owed(r, i) == (i == |s.q.chain| || Owed(s, i))
  {
  }

  lemma LinkAtSwap(s: State, r: State, p: Ptr, t: nat, i: nat)
    requires Shape(s) && Owers(s) && Shape(r) && Swap(s, r, p, t)
    requires s.q.pos <= i < |s.q.chain|
    requires if i == |s.q.chain| - 1 then Load(s.m.next, s.m.head) == Null else LinkAt(s, i)
    ensures LinkAt(r, i)
  {
    OwedSwap(s, r, p, t, i + 1);
  }

  lemma LinksSwap(s: State, r: State, p: Ptr, t: nat)
    requires Shape(s) && Links(s) && Owers(s) && Shape(r) && Swap(s, r, p, t)
    ensures Links(r)
  {
    forall i | r.q.pos <= i < |r.q.chain| - 1
      ensures LinkAt(r, i)
    {
      assert i < |s.q.chain| - 1 ==> LinkAt(s, i);
      LinkAtSwap(s, r, p, t, i);
    }
  }

  lemma OwersSwap(s: State, r: State, p: Ptr, t: nat)
    requires Shape(s) && Owers(s) && Shape(r) && Swap(s, r, p, t)
    ensures Owers(r)
  {
    forall u: nat | At(r.producers, u).Linking?
      ensures var o := At(r.producers, u); OwedTo(r, Real(o.node), o.pred) && r.q.via[r.q.last[Real(o.node)]] == u
    {
      if u != t || p == Stub {
        OwedToSwap(s, r, p, t, Real(At(s.producers, u).node), At(s.producers, u).pred);
      }
    }
    if r.consumer.LinkingStub? && p != Stub {
      OwedToSwap(s, r, p, t, Stub, s.consumer.pred);
    }
  }

  lemma OwedToSwap(s: State, r: State, p: Ptr, t: nat, q: Ptr, pred: Ptr)
    requires Shape(s) && Shape(r) && Swap(s, r, p, t) && OwedTo(s, q, pred)
    ensures OwedTo(r, q, pred) && r.q.last[q] == s.q.last[q] < |s.q.chain|
  {
  }

  lemma RingSwap(s: State, r: State, p: Ptr, t: nat)
    requires Ring(s) && Swap(s, r, p, t)
    ensures Ring(r)
  {
    ShapeSwap(s, r, p, t);
    LinksSwap(s, r, p, t);
    OwersSwap(s, r, p, t);
  }

  // ---------- a link is written ----------

  /** The link that ends in chain[at] is written by the one who owes it. */
  ghost predicate Link(s: State, r: State, at: nat, t: nat)
    requires Shape(s)
  {
    && SameQueue(s, r)
    && s.q.pos < at < |s.q.chain| && Owed(s, at)
    && r.m.next == s.m.next[s.q.chain[at - 1] := s.q.chain[at]]
    && (forall u: nat :: u != t || s.q.chain[at] == Stub ==> At(r.producers, u) == At(s.producers, u))
    && (s.q.chain[at].Real? ==> t == s.q.via[at] && !At(r.producers, t).Linking? && r.consumer == s.consumer)
    && (s.q.chain[at].Stub? ==> !r.consumer.LinkingStub?)
  }

  lemma OwedLink(s: State, r: State, at: nat, t: nat, i: nat)
    requires Shape(s) && Owers(s) && Shape(r) && Link(s, r, at, t)
    requires s.q.pos < i < |s.q.chain|
    ensures Owed(r, i) == (Owed(s, i) && i != at)
  {
    assert s.q.last[s.q.chain[at]] == at && s.q.last[s.q.chain[i]] == i;
  }

  lemma LinkAtLink(s: State, r: State, at: nat, t: nat, i: nat)
    requires Shape(s) && Owers(s) && Shape(r) && Link(s, r, at, t)
    requires s.q.pos <= i < |s.q.chain| - 1 && LinkAt(s, i)
    ensures LinkAt(r, i)
  {
    OwedLink(s, r, at, t, i + 1);
    assert s.q.last[s.q.chain[at - 1]] == at - 1 && s.q.last[s.q.chain[i]] == i;
  }

  lemma LinksLink(s: State, r: State, at: nat, t: nat)
    requires Shape(s) && Links(s) && Owers(s) && Shape(r) && Link(s, r, at, t)
    ensures Links(r)
  {
    assert s.q.last[s.q.chain[at - 1]] == at - 1 && s.q.last[s.m.head] == |s.q.chain| - 1;
    forall i | r.q.pos <= i < |r.q.chain| - 1
      ensures LinkAt(r, i)
    {
      assert LinkAt(s, i);
      LinkAtLink(s, r, at, t, i);
    }
  }

  lemma OwersLink(s: State, r: State, at: nat, t: nat)
    requires Shape(s) && Owers(s) && Shape(r) && Link(s, r, at, t)
    ensures Owers(r)
  {
  }

  lemma RingLink(s: State, r: State, at: nat, t: nat)
    requires Ring(s) && Link(s, r, at, t)
    ensures Ring(r)
  {
    ShapeFrame(s, r);
    LinksLink(s, r, at, t);
    OwersLink(s, r, at, t);
  }

  // ---------- the consumer follows a link ----------

  ghost predicate Advance(s: State, r: State) {
    && SameLinkers(s, r)
    && r.q.chain == s.q.chain && r.q.via == s.q.via && r.q.last == s.q.last && r.q.pos == s.q.pos + 1
    && r.m.head == s.m.head && r.m.tail == Load(s.m.next, s.m.tail) && r.m.tail != Null && r.m.next == s.m.next
  }

  lemma NextIsLinked(s: State)
    requires Ring(s) && Load(s.m.next, s.m.tail) != Null
    ensures s.q.pos + 1 < |s.q.chain| && !Owed(s, s.q.pos + 1) && Load(s.m.next, s.m.tail) == s.q.chain[s.q.pos + 1]
  {
    assert s.q.pos < |s.q.chain| - 1;
    assert LinkAt(s, s.q.pos);
  }

  lemma LinksAdvance(s: State, r: State)
    requires Shape(s) && Links(s) && Shape(r) && Advance(s, r)
    ensures Links(r)
  {
    forall i | r.q.pos <= i < |r.q.chain| - 1
      ensures LinkAt(r, i)
    {
      assert LinkAt(s, i);
    }
  }

  lemma OwersAdvance(s: State, r: State)
    requires Shape(s) && Owers(s) && Shape(r) && Advance(s, r) && !Owed(s, s.q.pos + 1)
    ensures Owers(r)
  {
    forall t: nat | At(r.producers, t).Linking?
      ensures OwedTo(r, Real(At(r.producers, t).node), At(r.producers, t).pred)
    {
      assert At(r.producers, t) == At(s.producers, t);
      OwedToAdvance(s, r, Real(At(s.producers, t).node), At(s.producers, t).pred);
    }
    if r.consumer.LinkingStub? {
      OwedToAdvance(s, r, Stub, s.consumer.pred);
    }
  }

  lemma OwedToAdvance(s: State, r: State, p: Ptr, pred: Ptr)
    requires Shape(s) && Shape(r) && Advance(s, r) && OwedTo(s, p, pred) && !Owed(s, s.q.pos + 1)
    requires Owed(s, s.q.last[p])
    ensures OwedTo(r, p, pred)
  {
  }

  lemma RingAdvance(s: State, r: State)
    requires Ring(s) && Advance(s, r)
    ensures Ring(r) && s.q.pos + 1 < |s.q.chain| && r.m.tail == s.q.chain[s.q.pos + 1]
  {
    NextIsLinked(s);
    assert Shape(r);
    LinksAdvance(s, r);
    OwersAdvance(s, r);
  }

  // ---------- where a flagged node is ----------

  lemma PlacesBegin(s: State, t: nat, n: nat, cause: Cause)
    requires Places(s) && t < |s.producers| && At(s.producers, t).Out? && n < s.created
    ensures Places(BeginStep(s, t, n, cause))
  {
    var r := BeginStep(s, t, n, cause);
    assert n !in s.m.flags ==>
        forall u: nat :: At(r.producers, u) == if u == t then Entry(n, cause) else At(s.producers, u);
  }

  ghost predicate SameCarriers(s: State, r: State) {
    forall t: nat :: PreSwap(At(s.producers, t)) || PreSwap(At(r.producers, t)) ==>
      PreSwap(At(s.producers, t)) && PreSwap(At(r.producers, t)) && At(r.producers, t).node == At(s.producers, t).node
  }

  ghost predicate SameFlags(s: State, r: State) {
    r.m.flags == s.m.flags && r.h.winner == s.h.winner && r.h.retired == s.h.retired && s.created <= r.created
  }

  /** No node changes its place. */
  lemma PlacesFrame(s: State, r: State)
    requires Places(s) && SameFlags(s, r) && SameCarriers(s, r)
    requires forall n: nat :: Queued(r, Real(n)) == Queued(s, Real(n))
    requires s.consumer.Holding? || r.consumer.Holding? ==> r.consumer == s.consumer
    ensures Places(r)
  {
    assert forall n: nat :: Carried(r, n) == Carried(s, n);
  }

  /** The swap moves a node from its producer into the queue. */
  lemma PlacesSwap(s: State, r: State, t: nat, n: nat)
    requires Shape(s) && Places(s) && SameFlags(s, r) && r.consumer == s.consumer
    requires At(s.producers, t) == Swapping(n) && !PreSwap(At(r.producers, t))
    requires forall u: nat :: u != t ==> At(r.producers, u) == At(s.producers, u)
    requires r.q.last == s.q.last[Real(n) := |s.q.chain|] && r.q.pos == s.q.pos
    ensures Places(r)
  {
    assert Carried(s, n);
    assert forall m: nat :: m != n ==> Carried(r, m) == Carried(s, m);
    assert !Carried(r, n);
    assert Queued(r, Real(n));
    assert forall m: nat :: m != n ==> Queued(r, Real(m)) == Queued(s, Real(m));
  }

  /** A delivery moves the node at the tail into the consumer's hands. */
  lemma PlacesDeliver(s: State, r: State, n: nat)
    requires Shape(s) && Places(s) && SameFlags(s, r) && SameCarriers(s, r)
    requires s.m.tail == Real(n) && r.q.pos == s.q.pos + 1 && r.q.last == s.q.last
    requires !s.consumer.Holding? && r.consumer == Holding(n)
    ensures Places(r)
  {
    assert Queued(s, Real(n));
    assert forall m: nat :: Carried(r, m) == Carried(s, m);
    assert forall m: nat :: m != n ==> Queued(r, Real(m)) == Queued(s, Real(m));
  }

  lemma PlacesRelease(s: State)
    requires Places(s) && s.consumer.Holding?
    ensures Places(ReleaseStep(s)) && Places(RetireStep(s))
  {
  }

  // ---------- the steps of a producer ----------

  ghost predicate Core(s: State) {
    Ring(s) && Places(s) && Pcs(s)
  }

  lemma PcsFrame(s: State, r: State)
    requires Shape(s) && Pcs(s) && Shape(r) && SameQueue(s, r)
    requires r.consumer == s.consumer && r.m.stubPred == s.m.stubPred && r.m.next == s.m.next
    requires forall t: nat :: At(r.producers, t).Swapping? ==> At(r.producers, t) == At(s.producers, t)
    ensures Pcs(r)
  {
  }

  lemma CoreBegin(s: State, t: nat, n: nat, cause: Cause)
    requires Core(s) && t < |s.producers| && At(s.producers, t).Out? && n < s.created
    ensures Core(BeginStep(s, t, n, cause))
  {
    var r := BeginStep(s, t, n, cause);
    PlacesBegin(s, t, n, cause);
    assert forall u: nat :: u != t ==> At(r.producers, u) == At(s.producers, u);
    assert At(r.producers, t).Out? || At(r.producers, t) == Entry(n, cause);
    assert SameLinkers(s, r);
    RingFrame(s, r);
    PcsFrame(s, r);
  }

  lemma CoreUpgrading(s: State, t: nat, n: nat)
    requires Core(s) && At(s.producers, t) == Upgrading(n)
    ensures Core(MoveStep(s, t))
  {
    var r := MoveStep(s, t);
    assert forall u: nat :: At(r.producers, u) == if u == t then Resetting(n) else At(s.producers, u);
    RingFrame(s, r);
    PlacesFrame(s, r);
    PcsFrame(s, r);
  }

  lemma CoreResetting(s: State, t: nat, n: nat)
    requires Core(s) && At(s.producers, t) == Resetting(n)
    ensures Core(MoveStep(s, t))
  {
    var r := MoveStep(s, t);
    assert forall u: nat :: At(r.producers, u) == if u == t then Swapping(n) else At(s.producers, u);
    assert Carried(s, n);
    RingFrame(s, r);
    PlacesFrame(s, r);
    assert Pcs(r);
  }

  lemma PcsSwapping(s: State, r: State, p: Ptr, t: nat)
    requires Ring(s) && Pcs(s) && Shape(r) && Swap(s, r, p, t) && p.Real?
    requires r.m.stubPred == s.m.stubPred
    ensures Pcs(r)
  {
  }

  lemma CoreSwapping(s: State, t: nat, n: nat)
    requires Core(s) && At(s.producers, t) == Swapping(n)
    ensures Core(MoveStep(s, t))
  {
    var r := MoveStep(s, t);
    assert forall u: nat :: At(r.producers, u) == if u == t then Linking(n, s.m.head) else At(s.producers, u);
    assert Carried(s, n);
    assert Swap(s, r, Real(n), t);
    RingSwap(s, r, Real(n), t);
    PlacesSwap(s, r, t, n);
    PcsSwapping(s, r, Real(n), t);
  }

  lemma PcsLinking(s: State, r: State, at: nat, t: nat)
    requires Ring(s) && Pcs(s) && Places(s) && Shape(r) && Link(s, r, at, t) && s.q.chain[at].Real?
    requires r.m.stubPred == s.m.stubPred && !At(r.producers, t).Swapping?
    ensures Pcs(r)
  {
    assert Queued(s, s.q.chain[at - 1]);
    forall u: nat | At(r.producers, u).Swapping?
      ensures Load(r.m.next, Real(At(r.producers, u).node)) == Null
    {
      assert Carried(s, At(s.producers, u).node);
    }
  }

  lemma CoreLinking(s: State, t: nat, n: nat, pred: Ptr)
    requires Core(s) && At(s.producers, t) == Linking(n, pred)
    ensures Core(MoveStep(s, t))
  {
    var r := MoveStep(s, t);
    assert forall u: nat :: At(r.producers, u) == if u == t then Waking(n) else At(s.producers, u);
    var at := s.q.last[Real(n)];
    assert Owed(s, at) && Link(s, r, at, t);
    RingLink(s, r, at, t);
    PlacesFrame(s, r);
    PcsLinking(s, r, at, t);
  }

  lemma CoreWaking(s: State, t: nat, n: nat)
    requires Core(s) && At(s.producers, t) == Waking(n)
    ensures Core(MoveStep(s, t))
  {
    var r := MoveStep(s, t);
    assert r.producers == s.producers[t := Out];
    assert forall u: nat :: At(r.producers, u) == if u == t then Out else At(s.producers, u);
    assert SameQueue(s, r) && r.m.next == s.m.next;
    WakingFrame(s, r);
  }

  lemma WakingFrame(s: State, r: State)
    requires Core(s) && SameQueue(s, r) && SameFlags(s, r)
    requires r.consumer == s.consumer && r.m.stubPred == s.m.stubPred && r.m.next == s.m.next
    requires forall u: nat ::
      At(r.producers, u) == At(s.producers, u) || (At(s.producers, u).Waking? && At(r.producers, u).Out?)
    ensures Core(r)
  {
    RingFrame(s, r);
    PlacesFrame(s, r);
    PcsFrame(s, r);
  }

  lemma CoreMove(s: State, t: nat)
    requires Core(s)
    ensures Core(MoveStep(s, t))
  {
    match At(s.producers, t)
    case Out =>
    case Upgrading(n) => CoreUpgrading(s, t, n);
    case Resetting(n) => CoreResetting(s, t, n);
    case Swapping(n) => CoreSwapping(s, t, n);
    case Linking(n, pred) => CoreLinking(s, t, n, pred);
    case Waking(n) => CoreWaking(s, t, n);
  }

  // ---------- the steps of the consumer ----------

  /** The consumer changes its program counter and nothing else that matters here. */
  lemma CoreFrame(s: State, r: State)
    requires Core(s) && SameQueue(s, r) && SameFlags(s, r)
    requires r.producers == s.producers && r.m.next == s.m.next && r.m.stubPred == s.m.stubPred
    requires !s.consumer.LinkingStub? && !r.consumer.LinkingStub? && !s.consumer.Holding? && !r.consumer.Holding?
    requires
      || r.consumer.Idle? || r.consumer.Registered? || (r.consumer.SawEnd? && r.m.tail.Real?)
      || (r.consumer.ResettingStub? && r.m.tail.Real? && r.m.tail == r.m.head)
    ensures Core(r)
  {
    RingFrame(s, r);
    PlacesFrame(s, r);
    if Queued(s, Stub) && s.m.tail == s.m.head {
      assert s.q.last[Stub] == s.q.pos;
    }
    assert Pcs(r);
  }

  lemma CoreDeliver(s: State, r: State, n: nat)
    requires Core(s) && s.m.tail == Real(n) && Load(s.m.next, s.m.tail) != Null
    requires s.consumer.Idle? || s.consumer.SkippedStub? || s.consumer.Rechecking?
    requires SameFlags(s, r) && r.m.stubPred == s.m.stubPred && r.m.next == s.m.next && r.producers == s.producers
    requires r.q.chain == s.q.chain && r.q.via == s.q.via && r.q.last == s.q.last && r.q.pos == s.q.pos + 1
    requires r.m.head == s.m.head && r.m.tail == Load(s.m.next, s.m.tail) && r.consumer == Holding(n)
    ensures Core(r)
  {
    RingAdvance(s, r);
    PlacesDeliver(s, r, n);
    assert Pcs(r);
  }

  lemma CoreSkip(s: State, r: State)
    requires Core(s) && s.consumer.Idle? && s.m.tail == Stub && Load(s.m.next, s.m.tail) != Null
    requires SameFlags(s, r) && r.m.stubPred == s.m.stubPred && r.m.next == s.m.next && r.producers == s.producers
    requires r.q.chain == s.q.chain && r.q.via == s.q.via && r.q.last == s.q.last && r.q.pos == s.q.pos + 1
    requires r.m.head == s.m.head && r.m.tail == Load(s.m.next, s.m.tail) && r.consumer == SkippedStub
    ensures Core(r)
  {
    RingAdvance(s, r);
    assert s.q.last[Stub] == s.q.pos;
    assert s.q.last[r.m.tail] == s.q.pos + 1;
    PlacesFrame(s, r);
    assert Pcs(r);
  }

  lemma CoreResettingStub(s: State)
    requires Core(s) && s.consumer.ResettingStub?
    ensures Core(DequeueStep(s))
  {
    var r := DequeueStep(s);
    RingFrame(s, r);
    PlacesFrame(s, r);
    assert Pcs(r);
  }

  lemma CoreSwappingStub(s: State)
    requires Core(s) && s.consumer.SwappingStub?
    ensures Core(DequeueStep(s))
  {
    var r := DequeueStep(s);
    RingSwap(s, r, Stub, 0);
    PlacesFrame(s, r);
    assert Pcs(r);
  }

  lemma CoreLinkingStub(s: State)
    requires Core(s) && s.consumer.LinkingStub?
    ensures Core(DequeueStep(s))
  {
    var r := DequeueStep(s);
    var at := s.q.last[Stub];
    RingLink(s, r, at, 0);
    PlacesFrame(s, r);
    assert Queued(s, s.q.chain[at - 1]);
    assert s.q.last[Stub] == at;
    forall u: nat | At(r.producers, u).Swapping?
      ensures Load(r.m.next, Real(At(r.producers, u).node)) == Null
    {
      assert Carried(s, At(s.producers, u).node);
    }
    assert Pcs(r);
  }

  lemma CoreFirstRead(s: State)
    requires Core(s) && s.consumer.Idle?
    ensures Core(DequeueStep(s))
  {
    var r := DequeueStep(s);
    if Load(s.m.next, s.m.tail) == Null {
      CoreFrame(s, r);
    } else if s.m.tail == Stub {
      CoreSkip(s, r);
    } else {
      CoreDeliver(s, r, s.m.tail.id);
    }
  }

  lemma CoreLaterRead(s: State)
    requires Core(s) && (s.consumer.SkippedStub? || s.consumer.Rechecking?)
    ensures Core(DequeueStep(s))
  {
    var r := DequeueStep(s);
    if Load(s.m.next, s.m.tail) == Null {
      CoreFrame(s, r);
    } else {
      CoreDeliver(s, r, s.m.tail.id);
    }
  }

  lemma CoreDequeue(s: State)
    requires Core(s)
    ensures Core(DequeueStep(s))
  {
    match s.consumer
    case Idle(_) => CoreFirstRead(s);
    case SkippedStub => CoreLaterRead(s);
    case SawEnd => CoreFrame(s, DequeueStep(s));
    case ResettingStub => CoreResettingStub(s);
    case SwappingStub => CoreSwappingStub(s);
    case LinkingStub(_) => CoreLinkingStub(s);
    case Rechecking => CoreLaterRead(s);
    case _ =>
  }

  lemma CoreRelease(s: State)
    requires Core(s) && s.consumer.Holding?
    ensures Core(ReleaseStep(s))
  {
    PlacesRelease(s);
    RingFrame(s, ReleaseStep(s));
  }

  lemma CoreRetire(s: State)
    requires Core(s) && s.consumer.Holding?
    ensures Core(RetireStep(s))
  {
    PlacesRelease(s);
    RingFrame(s, RetireStep(s));
  }

  lemma CoreApply(s: State, a: Action)
    requires Core(s) && Enabled(s, a)
    ensures Core(Apply(s, a))
  {
    match a
    case Create => RingFrame(s, Apply(s, a)); PlacesFrame(s, Apply(s, a));
    case Begin(t, n, cause) => CoreBegin(s, t, n, cause);
    case Move(t) => CoreMove(s, t);
    case Register(_) => CoreFrame(s, Apply(s, a));
    case LoadHead => CoreFrame(s, Apply(s, a));
    case Dequeue => CoreDequeue(s);
    case Release => CoreRelease(s);
    case Retire => CoreRetire(s);
  }
}
