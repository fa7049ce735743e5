/** The promises of the wake queue, for every run of any number of threads. */
module ProtocolTheorems {
  import opened Wrappers
  import opened Protocol
  import opened ProtocolInvariant
  import opened ProtocolHistory
  import opened ProtocolRuns

  // ---------- first in, first out ----------

  /** The node a step swaps into `head`. */
  ghost function SwappedBy(s: State, a: Action): seq<nat> {
    if a.Move? && At(s.producers, a.thread).Swapping? then [At(s.producers, a.thread).node] else []
  }

  /** The node with which a step ends a call of `dequeue`. */
  ghost function ReturnedBy(s: State, a: Action): seq<nat> {
    var r := Step(s, a);
    if a.Dequeue? && !s.consumer.Holding? && r.consumer.Holding? then [r.consumer.node] else []
  }

  /** The nodes a run swaps into `head`, in order. */
  ghost function Swapped(s: State, run: seq<Action>): seq<nat>
    decreases |run|
  {
    if run == [] then [] else SwappedBy(s, run[0]) + Swapped(Step(s, run[0]), run[1..])
  }

  /** The nodes the calls of `dequeue` in a run return, in order. */
  ghost function Returned(s: State, run: seq<Action>): seq<nat>
    decreases |run|
  {
    if run == [] then [] else ReturnedBy(s, run[0]) + Returned(Step(s, run[0]), run[1..])
  }

  lemma ChainAfterMove(s: State, t: nat)
    ensures s.q.chain <= MoveStep(s, t).q.chain && MoveStep(s, t).h.delivered == s.h.delivered
    ensures Reals(MoveStep(s, t).q.chain) == Reals(s.q.chain) + SwappedBy(s, Move(t))
  {
    var r := MoveStep(s, t);
    if At(s.producers, t).Swapping? {
      RealsConcat(s.q.chain, [r.m.head]);
      assert [r.m.head][1..] == [];
    }
  }

  lemma DequeueAppends(s: State)
    requires s.consumer.Idle? || Dequeuing(s.consumer)
    ensures DequeueStep(s).q.chain == s.q.chain + if s.consumer.SwappingStub? then [Stub] else []
  {
  }

  lemma DequeueReturns(s: State)
    requires s.consumer.Idle? || Dequeuing(s.consumer)
    ensures DequeueStep(s).h.delivered == s.h.delivered + ReturnedBy(s, Dequeue)
  {
  }

  lemma ChainAfterDequeue(s: State)
    requires s.consumer.Idle? || Dequeuing(s.consumer)
    ensures s.q.chain <= DequeueStep(s).q.chain
    ensures Reals(DequeueStep(s).q.chain) == Reals(s.q.chain)
    ensures DequeueStep(s).h.delivered == s.h.delivered + ReturnedBy(s, Dequeue)
  {
    hide DequeueStep;
    DequeueAppends(s);
    DequeueReturns(s);
    assert s.q.chain + [] == s.q.chain;
    RealsConcat(s.q.chain, [Stub]);
    assert [Stub][1..] == [];
  }

  lemma StepHistory(s: State, a: Action)
    ensures s.q.chain <= Step(s, a).q.chain
    ensures Reals(Step(s, a).q.chain) == Reals(s.q.chain) + SwappedBy(s, a)
    ensures Step(s, a).h.delivered == s.h.delivered + ReturnedBy(s, a)
  {
    if a.Move? {
      ChainAfterMove(s, a.thread);
    } else if a.Dequeue? && Enabled(s, a) {
      ChainAfterDequeue(s);
    }
  }

  lemma RunHistoryGlue(a: seq<nat>, b: seq<nat>, c: seq<nat>)
    ensures (a + b) + c == a + (b + c)
  {
  }

  lemma {:induction false} RunHistory(s: State, run: seq<Action>)
    ensures s.q.chain <= Exec(s, run).q.chain
    ensures Reals(Exec(s, run).q.chain) == Reals(s.q.chain) + Swapped(s, run)
    ensures Exec(s, run).h.delivered == s.h.delivered + Returned(s, run)
    decreases |run|
  {
    if run != [] {
      StepHistory(s, run[0]);
      var r := Step(s, run[0]);
      RunHistory(r, run[1..]);
      RunHistoryGlue(Reals(s.q.chain), SwappedBy(s, run[0]), Swapped(r, run[1..]));
      RunHistoryGlue(s.h.delivered, ReturnedBy(s, run[0]), Returned(r, run[1..]));
    }
  }

  /**
   In every interleaving, `dequeue` returns the nodes in the order of their swaps of `head`,
   and what it has not returned is what still waits: nothing is lost, invented, reordered or duplicated.
   */
  lemma FirstInFirstOut(threads: nat, run: seq<Action>)
    ensures Inv(Exec(Init(threads), run))
    ensures Swapped(Init(threads), run) == Returned(Init(threads), run) + Waiting(Exec(Init(threads), run))
  {
    var s := Init(threads);
    InvInit(threads);
    InvExec(s, run);
    RunHistory(s, run);
    StartsEmpty(threads);
    OrderSplits(s, run);
  }

  lemma StartsEmpty(threads: nat)
    ensures Reals(Init(threads).q.chain) == [] && Init(threads).h.delivered == []
  {
    assert [Stub][1..] == [];
  }

  lemma OrderSplits(s: State, run: seq<Action>)
    requires Reals(s.q.chain) == [] && s.h.delivered == []
    requires Reals(Exec(s, run).q.chain) == Reals(s.q.chain) + Swapped(s, run)
    requires Exec(s, run).h.delivered == s.h.delivered + Returned(s, run)
    requires Inv(Exec(s, run))
    ensures Swapped(s, run) == Returned(s, run) + Waiting(Exec(s, run))
  {
    var r := Exec(s, run);
    HistorySplits(r);
    assert [] + Swapped(s, run) == Swapped(s, run) && [] + Returned(s, run) == Returned(s, run);
    assert r.h.delivered == Reals(r.q.chain[..r.q.pos]);
  }

  /** No node waits twice. */
  lemma {:induction false} WaitingAt(s: State, i: nat)
    requires Shape(s) && s.q.pos <= i <= |s.q.chain|
    ensures forall n: nat :: n in Reals(s.q.chain[i..]) ==> Real(n) in s.q.last && i <= s.q.last[Real(n)] < |s.q.chain|
    decreases |s.q.chain| - i
  {
    if i < |s.q.chain| {
      WaitingAt(s, i + 1);
      assert s.q.chain[i..][1..] == s.q.chain[i + 1..];
    }
  }

  ghost predicate Distinct(log: seq<nat>) {
    forall i, j :: 0 <= i < j < |log| ==> log[i] != log[j]
  }

  lemma {:induction false} WaitingDistinct(s: State, i: nat)
    requires Shape(s) && s.q.pos <= i <= |s.q.chain|
    ensures Distinct(Reals(s.q.chain[i..]))
    decreases |s.q.chain| - i
  {
    if i < |s.q.chain| {
      WaitingDistinct(s, i + 1);
      WaitingAt(s, i + 1);
      assert s.q.chain[i..][1..] == s.q.chain[i + 1..];
      var rest := Reals(s.q.chain[i + 1..]);
      if s.q.chain[i].Real? {
        assert s.q.last[s.q.chain[i]] == i;
        assert s.q.chain[i].id !in rest;
      }
    }
  }

  // ---------- the marker ----------

  lemma {:induction false} LastReal(c: seq<Ptr>)
    requires c != [] && c[|c| - 1].Real?
    ensures Reals(c) != [] && Reals(c)[|Reals(c)| - 1] == c[|c| - 1].id
  {
    var front := c[..|c| - 1];
    RealsConcat(front, [c[|c| - 1]]);
    assert c == front + [c[|c| - 1]];
    assert [c[|c| - 1]][1..] == [];
  }

  /**
   At its load of `head`, `register_waker` returns null exactly on an empty queue, and otherwise the last waiting node.
   */
  lemma MarkerIsLast(s: State)
    requires Inv(s) && s.consumer.Registered?
    ensures Marker(s) == Null <==> Waiting(s) == []
    ensures Waiting(s) != [] ==> Marker(s) == Real(Waiting(s)[|Waiting(s)| - 1])
  {
    hide Links, Owers, Places, Delivered, Gaps, Wakes, Reasons;
    var n := |s.q.chain|;
    assert s.q.last[s.m.head] == n - 1;
    if s.m.head.Real? {
      LastReal(s.q.chain[s.q.pos..]);
    } else if s.m.tail == Stub {
      OnlyStubWaits(s);
    } else {
      var c := s.q.chain[s.q.pos..n - 1];
      assert s.q.pos < n - 1;
      assert s.q.last[s.q.chain[n - 2]] == n - 2;
      LastReal(c);
      RealsConcat(c, [Stub]);
      assert s.q.chain[s.q.pos..] == c + [Stub];
      assert [Stub][1..] == [];
    }
  }

  // ---------- what None means ----------

  /** The link leaving the tail is owed by a producer that has not called `wake` yet. */
  ghost predicate TailLinkOwed(s: State)
    requires Shape(s)
  {
    exists t: nat :: At(s.producers, t).Linking? && At(s.producers, t).pred == s.m.tail
  }

  lemma NullIsOwed(s: State)
    requires Ring(s) && Load(s.m.next, s.m.tail) == Null && !s.consumer.LinkingStub?
    ensures s.m.head == s.m.tail || TailLinkOwed(s)
  {
    if s.q.pos + 1 < |s.q.chain| {
      assert LinkAt(s, s.q.pos);
      assert Owed(s, s.q.pos + 1);
      var t := s.q.via[s.q.pos + 1];
      assert At(s.producers, t).Linking? && At(s.producers, t).pred == s.m.tail;
    }
  }

  /** The step that makes `dequeue` return None after a load of a link: lines 65-68 and 102-105. */
  ghost predicate MissesAtLink(s: State) {
    DequeueStep(s).consumer == Idle(Missed) && (s.consumer.Idle? || s.consumer.Rechecking?)
  }

  /** The step that makes `dequeue` return None after its load of `head`: lines 85-88. */
  ghost predicate MissesAtHead(s: State) {
    DequeueStep(s).consumer == Idle(Missed) && s.consumer.SawEnd?
  }

  /** A None after a load of a link: the queue is empty, or an enqueue is unfinished and its wakeup still to come. */
  lemma MissAtLink(s: State)
    requires Inv(s) && MissesAtLink(s)
    ensures Waiting(s) == [] || TailLinkOwed(s)
  {
    NullIsOwed(s);
    if s.m.head == s.m.tail {
      assert s.q.last[s.m.head] == |s.q.chain| - 1 == s.q.pos;
      if s.m.tail == Stub {
        OnlyStubWaits(s);
      }
    }
  }

  /**
   A None after the load of `head` says less: the tail waits, and its link is owed only if it is
   still missing. A producer may have written it, and woken the consumer, since the link was loaded.
   */
  lemma MissAtHead(s: State)
    requires Inv(s) && MissesAtHead(s)
    ensures Waiting(s) != []
    ensures TailLinkOwed(s) <==> Load(s.m.next, s.m.tail) == Null
    ensures s.w.gapped
  {
    hide Places, Delivered, Wakes, Reasons;
    WaitingAdvance(s, Advanced(s, s.m.tail));
    assert s.q.last[s.m.head] == |s.q.chain| - 1;
    assert LinkAt(s, s.q.pos);
    if Load(s.m.next, s.m.tail) == Null {
      NullIsOwed(s);
    }
    forall t: nat | At(s.producers, t).Linking? && At(s.producers, t).pred == s.m.tail
      ensures Owed(s, s.q.pos + 1)
    {
      assert s.q.last[s.m.tail] == s.q.last[Real(At(s.producers, t).node)] - 1;
    }
  }

  lemma {:induction false} ExecSnoc(s: State, run: seq<Action>, a: Action)
    ensures Exec(s, run + [a]) == Step(Exec(s, run), a)
    decreases |run|
  {
    if run == [] {
      assert [] + [a] == [a] && [a][1..] == [];
      assert Exec(Step(s, a), []) == Step(s, a);
    } else {
      assert (run + [a])[1..] == run[1..] + [a];
      ExecSnoc(Step(s, run[0]), run[1..], a);
    }
  }

  lemma {:induction false} ExecConcat(s: State, a: seq<Action>, b: seq<Action>)
    ensures Exec(s, a + b) == Exec(Exec(s, a), b)
    decreases |a|
  {
    if a == [] {
      assert a + b == b;
    } else {
      assert (a + b)[0] == a[0] && (a + b)[1..] == a[1..] + b;
      ExecConcat(Step(s, a[0]), a[1..], b);
    }
  }

  /** Thread t wakes a node without being disturbed. */
  lemma EnqueueAlone(s: State, run: seq<Action>, t: nat, n: nat) returns (run': seq<Action>, s': State)
    requires t < |s.producers| && s.producers[t] == Out && n < s.created && n !in s.m.flags && s.m.waker == None
    ensures run' == run + [Begin(t, n, Woken), Move(t), Move(t), Move(t), Move(t), Move(t)]
    ensures forall s0 :: s == Exec(s0, run) ==> s' == Exec(s0, run')
    ensures s'.producers == s.producers && s'.created == s.created && s'.consumer == s.consumer && s'.m.waker == None
    ensures s'.q == s.q.(chain := s.q.chain + [Real(n)], via := s.q.via + [t], last := s.q.last[Real(n) := |s.q.chain|])
    ensures s'.m == s.m.(head := Real(n), flags := s.m.flags + {n},
                         next := s.m.next[Real(n) := Null][s.m.head := Real(n)])
    ensures s'.h == s.h.(winner := s.h.winner[n := t], requests := s.h.requests + [Request(n, Woken)])
  {
    var s1 := Step(s, Begin(t, n, Woken));
    var s2 := Step(s1, Move(t));
    var s3 := Step(s2, Move(t));
    assert s3.producers == s.producers[t := Swapping(n)];
    var s4 := Step(s3, Move(t));
    var s5 := Step(s4, Move(t));
    assert s5.producers == s.producers[t := Waking(n)];
    s' := Step(s5, Move(t));
    var r1 := run + [Begin(t, n, Woken)];
    var r3 := r1 + [Move(t)] + [Move(t)];
    var r5 := r3 + [Move(t)] + [Move(t)];
    run' := r5 + [Move(t)];
    forall s0 | s == Exec(s0, run)
      ensures s' == Exec(s0, run')
    {
      hide Step;
      ExecSnoc(s0, run, Begin(t, n, Woken));
      ExecSnoc(s0, r1, Move(t));
      ExecSnoc(s0, r1 + [Move(t)], Move(t));
      ExecSnoc(s0, r3, Move(t));
      ExecSnoc(s0, r3 + [Move(t)], Move(t));
      ExecSnoc(s0, r5, Move(t));
    }
  }

  lemma TwoNodes() returns (run: seq<Action>, s: State)
    ensures s == Exec(Init(2), run) && s == Init(2).(created := 2)
  {
    var s1 := Step(Init(2), Create);
    s := Step(s1, Create);
    run := [] + [Create] + [Create];
    ExecSnoc(Init(2), [], Create);
    ExecSnoc(Init(2), [] + [Create], Create);
  }

  /** One node is enqueued, and `dequeue` loads the links up to the end of the queue. */
  lemma AboutToLoadHead() returns (run: seq<Action>, s: State)
    ensures s == Exec(Init(2), run)
    ensures s.consumer == SawEnd && s.producers == [Out, Out] && s.created == 2 && s.m.flags == {0} && s.m.waker == None
    ensures s.m.head == s.m.tail == Real(0) && s.q.chain == [Stub, Real(0)] && s.q.pos == 1
  {
    var s0 := Init(2);
    var r2, s2 := TwoNodes();
    assert s2.producers == [Out, Out];
    var r3, s3 := EnqueueAlone(s2, r2, 1, 0);
    assert s3.m.tail == Stub && Load(s3.m.next, Stub) == Real(0);
    var s4 := Step(s3, Dequeue);
    ExecSnoc(s0, r3, Dequeue);
    assert s4.consumer == SkippedStub && s4.m.tail == Real(0) && Load(s4.m.next, Real(0)) == Null;
    s := Step(s4, Dequeue);
    run := r3 + [Dequeue] + [Dequeue];
    ExecSnoc(s0, r3 + [Dequeue], Dequeue);
  }

  /**
   A run that makes `dequeue` return None although two nodes wait, every link is written and no
   producer is at work: the second node was enqueued between the load of the link and the load of `head`.
   */
  lemma MissOnQuietQueue() returns (run: seq<Action>, s: State)
    ensures s == Exec(Init(2), run)
    ensures MissesAtHead(s) && Load(s.m.next, s.m.tail) == Real(1)
    ensures s.q.chain == [Stub, Real(0), Real(1)] && s.q.pos == 1
    ensures forall t: nat :: At(s.producers, t).Out?
  {
    var r5, s5 := AboutToLoadHead();
    run, s := EnqueueAlone(s5, r5, 1, 1);
    assert s.m.tail == Real(0) && s.m.head == Real(1);
  }

  /** A call of `dequeue` that no producer disturbs returns None only on an empty queue. */
  lemma UndisturbedMiss(s: State)
    requires Inv(s) && s.consumer == Idle(Missed) && !s.w.gapped
    ensures Waiting(s) == []
  {
  }
}
