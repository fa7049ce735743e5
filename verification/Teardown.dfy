/** The drop of the queue, when its last reference goes: lines 207-255 of `src/queue.rs`. */
module Teardowns {
  import opened Protocol
  import opened Queues
  import opened Lists
  import opened References
  import opened ReferenceSteps
  import opened ReferenceTheorems

  /** The links lead along the pointers, from the first one to null. */
  ghost predicate Linked(next: map<Ptr, Ptr>, chain: seq<Ptr>) {
    && (forall i :: 0 <= i < |chain| ==> chain[i] != Null)
    && (forall i, j :: 0 <= i < j < |chain| ==> chain[i] != chain[j])
    && (forall i :: 0 <= i < |chain| ==> Load(next, chain[i]) == First(chain[i + 1..]))
  }

  function First(chain: seq<Ptr>): Ptr {
    if chain == [] then Null else chain[0]
  }

  /** With nobody in `enqueue_inner` no link is missing. */
  lemma RestingIsLinked(s: State)
    requires Inv(s) && AtRest(s)
    ensures s.q.pos < |s.q.chain| && Linked(s.m.next, s.q.chain[s.q.pos..]) && First(s.q.chain[s.q.pos..]) == s.m.tail
  {
    hide Owers, Places, Pcs, Delivered, Gaps, Wakes, Reasons;
    var chain := s.q.chain[s.q.pos..];
    forall i | 0 <= i < |chain|
      ensures Load(s.m.next, chain[i]) == First(chain[i + 1..])
    {
      if i + 1 < |chain| {
        LinkedInside(s, s.q.pos + i);
      }
    }
    Different(s);
  }

  lemma LinkedInside(s: State, i: nat)
    requires Inv(s) && AtRest(s) && s.q.pos <= i < |s.q.chain| - 1
    ensures Load(s.m.next, s.q.chain[i]) == s.q.chain[i + 1]
  {
    hide Owers, Places, Pcs, Delivered, Gaps, Wakes, Reasons;
    assert LinkAt(s, i);
    assert !Owed(s, i + 1);
  }

  lemma Different(s: State)
    requires Shape(s)
    ensures var chain := s.q.chain[s.q.pos..];
      && (forall i :: 0 <= i < |chain| ==> chain[i] != Null)
      && (forall i, j :: 0 <= i < j < |chain| ==> chain[i] != chain[j])
  {
    var chain := s.q.chain[s.q.pos..];
    forall i, j | 0 <= i < j < |chain|
      ensures chain[i] != chain[j]
    {
      assert s.q.last[chain[i]] == s.q.pos + i && s.q.last[chain[j]] == s.q.pos + j;
    }
  }

  /** How many of the nodes panic when their reference is dropped. */
  function Panics(nodes: seq<nat>, panics: nat -> bool): nat {
    if nodes == [] then 0 else (if panics(nodes[0]) then 1 else 0) + Panics(nodes[1..], panics)
  }

  ghost predicate OnePanics(nodes: seq<nat>, panics: nat -> bool) {
    exists i :: 0 <= i < |nodes| && panics(nodes[i])
  }

  ghost predicate MorePanic(nodes: seq<nat>, panics: nat -> bool) {
    exists i, j :: 0 <= i < j < |nodes| && panics(nodes[i]) && panics(nodes[j])
  }

  lemma {:induction false} PanicsMeans(nodes: seq<nat>, panics: nat -> bool)
    ensures Panics(nodes, panics) > 0 <==> OnePanics(nodes, panics)
    ensures Panics(nodes, panics) > 1 <==> MorePanic(nodes, panics)
  {
    if nodes != [] {
      var rest := nodes[1..];
      PanicsMeans(rest, panics);
      assert forall i :: 0 <= i < |rest| ==> rest[i] == nodes[i + 1];
      assert forall i :: 0 < i < |nodes| ==> nodes[i] == rest[i - 1];
    }
  }

  /**
   The guard's loop. A node may be freed with its reference, so its link is read first: `released` lists the
   references dropped so far, and no pointer is followed after that. The guard goes on while a panic unwinds;
   a second panic aborts the process.
   */
  method ReleaseAll(next: map<Ptr, Ptr>, tail: Ptr, panics: nat -> bool, unwinding: bool, ghost chain: seq<Ptr>,
                    ghost before: seq<nat>)
    returns (outcome: DropOutcome, ghost released: seq<nat>)
    requires Linked(next, chain) && tail == First(chain)
    requires forall p <- chain :: p.Real? ==> p.id !in before
    ensures before <= released <= before + Reals(chain)
    ensures !outcome.Aborted? ==> released == before + Reals(chain)
    ensures outcome == Verdict(Panics(Reals(chain), panics) + if unwinding then 1 else 0)
    decreases |chain|
  {
    hide Linked, Reals, Panics;
    var at := tail;
    ghost var rest := chain;
    released := before;
    while at != Null
      invariant |rest| <= |chain| && Linked(next, rest) && at == First(rest)
      invariant before <= released && released + Reals(rest) == before + Reals(chain)
      invariant forall p <- rest :: p.Real? ==> p.id !in released
      invariant Panics(Reals(rest), panics) == Panics(Reals(chain), panics)
      decreases |rest|
    {
      LinkedTail(next, rest);
      PanicsFrom(rest[0], Reals(rest[1..]), panics);
      if at == Stub {
        at := Load(next, at);
        rest := rest[1..];
        assert [] + Reals(rest) == Reals(rest);
        continue;
      }
      assert at.id !in released;
      var dropped := at.id;
      at := Load(next, at);
      rest := rest[1..];
      MoreReleased(before, Reals(chain), released, dropped, Reals(rest));
      released := released + [dropped];
      if panics(dropped) {
        if unwinding {
          AllReleased(before, Reals(chain), released, Reals(rest));
          return Aborted, released;
        }
        outcome, released := ReleaseAll(next, at, panics, true, rest, released);
        return;
      }
    }
    NoneLeft(next, rest, panics);
    return if unwinding then DropOutcome.Panicked else Completed, released;
  }

  lemma PanicsFrom(p: Ptr, nodes: seq<nat>, panics: nat -> bool)
    ensures Panics((if p.Real? then [p.id] else []) + nodes, panics) ==
      Panics(nodes, panics) + if p.Real? && panics(p.id) then 1 else 0
  {
    if p.Real? {
      assert ([p.id] + nodes)[1..] == nodes;
    } else {
      assert [] + nodes == nodes;
    }
  }

  lemma MoreReleased(before: seq<nat>, all: seq<nat>, released: seq<nat>, n: nat, rest: seq<nat>)
    requires released + ([n] + rest) == before + all
    ensures (released + [n]) + rest == before + all
  {
  }

  lemma AllReleased(before: seq<nat>, all: seq<nat>, released: seq<nat>, rest: seq<nat>)
    requires released + rest == before + all
    ensures released <= before + all
  {
  }

  lemma NoneLeft(next: map<Ptr, Ptr>, rest: seq<Ptr>, panics: nat -> bool)
    requires First(rest) == Null && Linked(next, rest)
    ensures rest == [] && Reals(rest) == [] && Panics(Reals(rest), panics) == 0
  {
  }

  lemma LinkedTail(next: map<Ptr, Ptr>, chain: seq<Ptr>)
    requires Linked(next, chain) && chain != []
    ensures Linked(next, chain[1..]) && Load(next, chain[0]) == First(chain[1..])
    ensures chain[0] !in chain[1..]
    ensures Reals(chain) == (if chain[0].Real? then [chain[0].id] else []) + Reals(chain[1..])
  {
    var rest := chain[1..];
    forall i | 0 <= i < |rest|
      ensures Load(next, rest[i]) == First(rest[i + 1..])
    {
      assert rest[i] == chain[i + 1] && rest[i + 1..] == chain[i + 2..];
    }
  }

  // ---------- the drop ----------

  /**
   When the queue is dropped, the references that it holds are those of the waiting nodes, one each. The only other
   ones that are not the owners' are those of threads that set a flag and find, or will find, the queue gone.
   */
  lemma WaitingIsShare(c: Counts, a: RefAction, n: nat)
    requires RefInv(c) && Closes(c, a)
    ensures c.s.q.pos <= |c.s.q.chain|
    ensures c.strong[n] == Owned(c, n) + multiset(Waiting(c.s))[n] + Late(RefStep(c, a), n)
    ensures RefStep(c, a).strong[n] == Owned(c, n) + Late(RefStep(c, a), n)
  {
    hide RefInv, Inv, RefStep;
    ClosesAtRest(c, a);
    RefInvStep(c, a);
    SharedCounts(RefStep(c, a), n);
    OwnersStay(c, a, n);
    InvOf(c);
    WaitingOnce(c.s, n);
    ClosingCount(c, a, n);
  }

  /**
   So the references that are left when the queue is gone are those of ids and wakers, of the list, and of late threads.
   */
  lemma ClosedConserves(c: Counts, a: RefAction)
    requires RefInv(c) && Closes(c, a) && c.s.q.pos <= |c.s.q.chain|
    ensures RefStep(c, a).strong == c.strong - multiset(Waiting(c.s))
    ensures forall n: nat :: RefStep(c, a).strong[n] == Owned(c, n) + Late(RefStep(c, a), n)
  {
    hide RefInv, RefStep, Waiting;
    ClosesAtRest(c, a);
    forall n: nat
      ensures RefStep(c, a).strong[n] == Owned(c, n) + Late(RefStep(c, a), n)
    {
      WaitingIsShare(c, a, n);
    }
  }

  /** The reference of a thread between the swap of the flag and an upgrade that fails. */
  function Late(c: Counts, n: nat): nat {
    if exists t :: 0 <= t < |c.phases| && c.phases[t] == Swapped(n, true) then 1 else 0
  }

  lemma OwnersStay(c: Counts, a: RefAction, n: nat)
    requires Closes(c, a)
    ensures Owned(RefStep(c, a), n) == Owned(c, n)
  {
    hide Apply, MoveStep, BeginStep;
    OnlyLetGoCloses(c, a);
  }

  /** What is dropped was counted. */
  lemma ClosingCount(c: Counts, a: RefAction, n: nat)
    requires RefInv(c) && Closes(c, a) && c.s.q.pos <= |c.s.q.chain|
    ensures c.strong[n] >= multiset(Waiting(c.s))[n]
  {
    hide Inv;
    WaitingOnce(c.s, n);
    if Queued(c.s, Real(n)) {
      ReferencedIsLive(c, n);
    }
  }

  /**
   `Queue::drop`, in the step that drops the last reference to the queue: every reference that the queue holds is
   dropped once, in the order of the queue. That nobody is in `enqueue_inner` follows from the count.
   */
  method DropQueue(queue: Receiver, ghost c: Counts, ghost a: RefAction, panics: nat -> bool)
    returns (outcome: DropOutcome, ghost released: seq<nat>)
    requires queue.Valid() && queue.View() == c.s && RefInv(c) && Closes(c, a)
    ensures released <= Waiting(queue.View())
    ensures !outcome.Aborted? ==>
      released == Waiting(queue.View()) && RefStep(c, a).strong == c.strong - multiset(released)
    ensures outcome == Verdict(Panics(Waiting(queue.View()), panics))
    ensures outcome.Completed? <==> !OnePanics(Waiting(queue.View()), panics)
    ensures outcome.Aborted? <==> MorePanic(Waiting(queue.View()), panics)
  {
    hide Inv, AtRest, Linked, RefInv, RefStep, OnePanics, MorePanic, Panics;
    ClosesAtRest(c, a);
    RestingIsLinked(c.s);
    ghost var chain := c.s.q.chain[c.s.q.pos..];
    outcome, released := ReleaseAll(queue.next, queue.tail, panics, false, chain, []);
    assert [] + Reals(chain) == Waiting(c.s);
    PanicsMeans(Waiting(c.s), panics);
  }
}
