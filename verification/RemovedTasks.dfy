/** Runs of removed tasks in which the code does not do what its comments say. */
module RemovedTasks {
  import opened Wrappers
  import opened Protocol
  import opened ProtocolRuns
  import opened References
  import opened Wakers

  lemma Goes(run: seq<RefAction>, c: Counts, a: RefAction) returns (run': seq<RefAction>, c': Counts)
    requires c == RefExec(Start(2), run)
    ensures run' == run + [a] && c' == RefStep(c, a) && c' == RefExec(Start(2), run')
  {
    RunGoesOn(Start(2), run, a, 0);
    run', c' := run + [a], RefStep(c, a);
  }

  /** Who refers to node 0, when the other thread does nothing. */
  ghost predicate Refers(c: Counts, strong: multiset<nat>, handles: multiset<nat>, stored: set<nat>, local: Option<nat>,
                         phase: Phase) {
    && c.strong == strong && c.handles == handles && c.stored == stored && c.local == local
    && c.phases == [phase, Outside] && c.owners == 1 && c.receiver && !c.closed && c.s.created == 1
  }

  /** A task is pushed; its enqueue has begun. */
  lemma Pushing() returns (run: seq<RefAction>, c: Counts)
    ensures c == RefExec(Start(2), run)
    ensures Refers(c, multiset{0, 0}, multiset{}, {0}, None, Inside(false))
    ensures c.s.m == Init(2).m.(flags := {0}) && c.s.producers == [Resetting(0), Out]
    ensures c.s.consumer == Idle(Outcome.Fresh)
  {
    hide RefExec;
    Nothing(Start(2));
    assert Start(2).phases == [Outside, Outside] && Init(2).producers == [Out, Out];
    run, c := Goes([], Start(2), Push);
  }

  /** One atomic of an enqueue by thread 0. */
  lemma Moves(run: seq<RefAction>, c: Counts, q: Producer) returns (run': seq<RefAction>, c': Counts)
    requires c == RefExec(Start(2), run) && c.phases == [Inside(false), Outside] && c.s.producers == [q, Out] && !q.Out?
    ensures c' == RefExec(Start(2), run')
    ensures c' == c.(s := MoveStep(c.s, 0), phases := if q.Waking? then [Outside, Outside] else c.phases)
  {
    hide RefExec;
    run', c' := Goes(run, c, RefAction.Move(0));
  }

  /** A task is pushed and enqueued. */
  lemma Pushed() returns (run: seq<RefAction>, c: Counts)
    ensures c == RefExec(Start(2), run)
    ensures Refers(c, multiset{0, 0}, multiset{}, {0}, None, Outside)
    ensures c.s.m.head == Real(0) && c.s.m.tail == Stub && c.s.m.flags == {0} && c.s.m.waker == None
    ensures c.s.producers == [Out, Out] && c.s.consumer == Idle(Outcome.Fresh)
    ensures Load(c.s.m.next, Stub) == Real(0) && Load(c.s.m.next, Real(0)) == Null
  {
    hide RefExec;
    var r1, c1 := Pushing();
    var r2, c2 := Moves(r1, c1, Resetting(0));
    assert c2.s.producers == [Swapping(0), Out];
    var r3, c3 := Moves(r2, c2, Swapping(0));
    assert c3.s.producers == [Linking(0, Stub), Out];
    var r4, c4 := Moves(r3, c3, Linking(0, Stub));
    assert c4.s.producers == [Waking(0), Out];
    run, c := Moves(r4, c4, Waking(0));
    assert c.s.producers == [Out, Out];
  }

  /** One step of `dequeue`. */
  lemma Steps(run: seq<RefAction>, c: Counts) returns (run': seq<RefAction>, c': Counts)
    requires c == RefExec(Start(2), run) && c.receiver && c.local == None
    requires c.s.consumer.Idle? || Dequeuing(c.s.consumer)
    ensures c' == RefExec(Start(2), run') && c' == c.(s := DequeueStep(c.s))
  {
    hide RefExec, DequeueStep;
    run', c' := Goes(run, c, Consume(Dequeue));
  }

  /** The task is dequeued. */
  lemma Dequeued() returns (run: seq<RefAction>, c: Counts)
    ensures c == RefExec(Start(2), run)
    ensures Refers(c, multiset{0, 0}, multiset{}, {0}, None, Outside)
    ensures c.s.m.head == c.s.m.tail == Stub && c.s.m.flags == {0}
    ensures c.s.m.waker == None && Load(c.s.m.next, Stub) == Null
    ensures c.s.producers == [Out, Out] && c.s.consumer == Holding(0)
  {
    hide RefExec;
    var r2, c2 := SawTheEnd();
    var r3, c3 := Steps(r2, c2);
    var r4, c4 := Steps(r3, c3);
    var r5, c5 := Steps(r4, c4);
    assert c5.s.consumer == LinkingStub(Real(0)) && c5.s.m.head == Stub && Load(c5.s.m.next, Stub) == Null;
    var r6, c6 := Steps(r5, c5);
    run, c := Steps(r6, c6);
  }

  lemma SawTheEnd() returns (run: seq<RefAction>, c: Counts)
    ensures c == RefExec(Start(2), run)
    ensures Refers(c, multiset{0, 0}, multiset{}, {0}, None, Outside)
    ensures c.s.m.head == c.s.m.tail == Real(0) && c.s.m.flags == {0} && c.s.m.waker == None
    ensures c.s.producers == [Out, Out] && c.s.consumer == SawEnd
  {
    hide RefExec;
    var r0, c0 := Pushed();
    var r1, c1 := Steps(r0, c0);
    assert c1.s.consumer == SkippedStub && c1.s.m.tail == Real(0);
    run, c := Steps(r1, c1);
  }

  lemma Released() returns (run: seq<RefAction>, c: Counts)
    ensures c == RefExec(Start(2), run)
    ensures Refers(c, multiset{0, 0}, multiset{}, {0}, Some(0), Outside)
    ensures c.s.m.head == Stub && c.s.m.flags == {} && c.s.m.waker == None
    ensures c.s.producers == [Out, Out] && c.s.consumer == Idle(Outcome.Fresh)
  {
    hide RefExec;
    var r0, c0 := Dequeued();
    run, c := Goes(r0, c0, RefAction.Release);
  }

  /** The task is polled, without a result and without a wake; an id of it is left. */
  lemma Polled() returns (run: seq<RefAction>, c: Counts)
    ensures c == RefExec(Start(2), run)
    ensures Refers(c, multiset{0, 0}, multiset{0}, {0}, None, Outside)
    ensures c.s.m.head == Stub && c.s.m.flags == {} && c.s.m.waker == None
    ensures c.s.producers == [Out, Out] && c.s.consumer == Idle(Outcome.Fresh)
  {
    hide RefExec;
    var r1, c1 := Released();
    var r2, c2 := Goes(r1, c1, RefAction.Clone(0));
    assert Refers(c2, multiset{0, 0, 0}, multiset{0}, {0}, Some(0), Outside);
    run, c := Goes(r2, c2, Finish);
  }

  // ---------- lines 26-27 of id.rs ----------

  /** The task is removed and its value is gone; thread 1 wakes it by the id that is left. */
  lemma RemovedIsWoken() returns (run: seq<RefAction>, c: Counts)
    ensures c == RefExec(Start(2), run)
    ensures c.stored == {} && c.strong == multiset{0} && c.handles == multiset{0} && c.owners == 1 && c.s.m.head == Stub
    ensures c.phases == [Outside, Swapped(0, false)] && c.s.producers == [Out, Upgrading(0)]
  {
    hide RefExec;
    var r0, c0 := Polled();
    var r1, c1 := Goes(r0, c0, Discard(0));
    assert Refers(c1, multiset{0}, multiset{0}, {}, None, Outside);
    run, c := Goes(r1, c1, WakeByRef(1, 0));
  }

  lemma RemovedIsCloned() returns (run: seq<RefAction>, c: Counts)
    ensures c == RefExec(Start(2), run)
    ensures c.stored == {} && c.strong == multiset{0, 0} && c.handles == multiset{0} && c.s.m.head == Stub
    ensures c.phases == [Outside, Inside(true)] && c.s.producers == [Out, Resetting(0)]
  {
    hide RefExec;
    var r2, c2 := RemovedIsWoken();
    var r3, c3 := Goes(r2, c2, Upgrade(1));
    assert c3.phases == [Outside, Upgraded(0)] && c3.strong == multiset{0} && c3.s == c2.s;
    run, c := Goes(r3, c3, CloneNode(1));
  }

  /**
   A wake of a removed task enqueues its node. The task was polled and removed, its value is gone; then thread 1
   wakes it by the id that is left, and the node is in the queue again.
   */
  lemma RemovedIsEnqueued() returns (run: seq<RefAction>, c: Counts)
    ensures c == RefExec(Start(2), run)
    ensures 0 !in c.stored && c.strong == multiset{0, 0} && c.handles == multiset{0}
    ensures c.s.m.head == Real(0) && At(c.s.producers, 1) == Linking(0, Stub)
  {
    hide RefExec;
    var r4, c4 := RemovedIsCloned();
    var r5, c5 := Goes(r4, c4, RefAction.Move(1));
    assert c5.phases == [Outside, Inside(true)] && c5.s.producers == [Out, Swapping(0)];
    run, c := Goes(r5, c5, RefAction.Move(1));
  }

  // ---------- lines 41-49 of selector.rs ----------

  /**
   A removed task is freed although the selector is not polled again: it was polled before, it is not in the queue,
   and its id and its `Removed` are dropped.
   */
  lemma FreedUnobserved() returns (run: seq<RefAction>, c: Counts)
    ensures c == RefExec(Start(2), run + [Discard(0), RefAction.Drop(0)])
    ensures 0 in RefExec(Start(2), run).stored && c.strong[0] == 0 && c.s.created == 1 && c.receiver && !c.closed
  {
    hide RefExec;
    var c0;
    run, c0 := Polled();
    var r1, c1 := Goes(run, c0, Discard(0));
    assert Refers(c1, multiset{0}, multiset{0}, {}, None, Outside);
    var r2;
    r2, c := Goes(r1, c1, RefAction.Drop(0));
    assert r2 == run + [Discard(0), RefAction.Drop(0)];
  }

  lemma Nothing(c: Counts)
    ensures RefExec(c, []) == c
  {
  }
}
