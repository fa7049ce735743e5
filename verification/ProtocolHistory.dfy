/** What the history of the wake queue says: order of delivery, gaps, signals and reasons. */
module ProtocolHistory {
  import opened Wrappers
  import opened Protocol
  import opened ProtocolInvariant

  // ---------- the waiting nodes ----------

  lemma WaitingAdvance(s: State, r: State)
    requires s.q.pos < |s.q.chain| && r.q.pos == s.q.pos + 1 && r.q.chain == s.q.chain
    ensures Waiting(s) == Reals([s.q.chain[s.q.pos]]) + Waiting(r)
    ensures Reals(r.q.chain[..r.q.pos]) == Reals(s.q.chain[..s.q.pos]) + Reals([s.q.chain[s.q.pos]])
  {
    RealsConcat([s.q.chain[s.q.pos]], r.q.chain[r.q.pos..]);
    assert s.q.chain[s.q.pos..] == [s.q.chain[s.q.pos]] + r.q.chain[r.q.pos..];
    RealsConcat(s.q.chain[..s.q.pos], [s.q.chain[s.q.pos]]);
    assert r.q.chain[..r.q.pos] == s.q.chain[..s.q.pos] + [s.q.chain[s.q.pos]];
  }

  lemma OnlyStubWaits(s: State)
    requires Shape(s) && s.m.head == s.m.tail == Stub
    ensures Waiting(s) == []
  {
    assert s.q.last[Stub] == s.q.pos == |s.q.chain| - 1;
    assert s.q.chain[s.q.pos..] == [Stub] && [Stub][1..] == [];
  }

  /** A null link leaving the tail means the end of the queue or a producer between its swap and its link. */
  lemma NullAtTail(s: State)
    requires Ring(s) && Load(s.m.next, s.m.tail) == Null && !s.consumer.LinkingStub?
    ensures s.m.head == s.m.tail || SomeLinking(s)
  {
    if s.q.pos + 1 < |s.q.chain| {
      assert LinkAt(s, s.q.pos);
      assert Owed(s, s.q.pos + 1);
      assert At(s.producers, s.q.via[s.q.pos + 1]).Linking?;
    }
  }

  // ---------- order of delivery ----------

  lemma HistoryFrame(s: State, r: State)
    requires Shape(s) && Delivered(s) && Shape(r)
    requires r.q.pos == s.q.pos && s.q.chain <= r.q.chain && r.h.delivered == s.h.delivered
    ensures Delivered(r)
  {
    assert r.q.chain[..r.q.pos] == s.q.chain[..s.q.pos];
  }

  lemma HistoryAdvance(s: State, r: State)
    requires Shape(s) && Delivered(s) && Shape(r)
    requires r.q.pos == s.q.pos + 1 && r.q.chain == s.q.chain
    requires r.h.delivered == s.h.delivered + if s.m.tail.Real? then [s.m.tail.id] else []
    ensures Delivered(r)
  {
    WaitingAdvance(s, r);
    assert [s.m.tail][1..] == [];
  }

  lemma HistoryMove(s: State, t: nat)
    requires Shape(s) && Delivered(s) && Shape(MoveStep(s, t))
    ensures Delivered(MoveStep(s, t))
  {
    HistoryFrame(s, MoveStep(s, t));
  }

  lemma HistoryDequeue(s: State)
    requires Shape(s) && Delivered(s) && Shape(DequeueStep(s)) && !DequeueStep(s).consumer.Broken?
    requires s.consumer.SkippedStub? ==> s.m.tail.Real?
    ensures Delivered(DequeueStep(s))
  {
    hide Shape, DequeueStep, Delivered;
    var r := DequeueStep(s);
    DequeueCounts(s);
    if r.q.pos == s.q.pos {
      HistoryFrame(s, r);
    } else {
      HistoryAdvance(s, r);
    }
  }

  /** A step of `dequeue` delivers the tail when it moves past it, and appends at most the stub. */
  lemma DequeueCounts(s: State)
    requires !DequeueStep(s).consumer.Broken?
    requires s.consumer.SkippedStub? ==> s.m.tail.Real?
    ensures var r := DequeueStep(s);
      && s.q.chain <= r.q.chain
      && (r.q.pos == s.q.pos ==> r.h.delivered == s.h.delivered)
      && (r.q.pos != s.q.pos ==> r.q.pos == s.q.pos + 1 && r.q.chain == s.q.chain)
      && (r.q.pos != s.q.pos ==> r.h.delivered == s.h.delivered + if s.m.tail.Real? then [s.m.tail.id] else [])
  {
  }

  // ---------- gaps ----------

  /** A swap opens a gap; any other step of a producer opens none. */
  lemma GapsFrame(s: State, r: State)
    requires Shape(s) && Gaps(s) && Shape(r) && r.consumer == s.consumer
    requires r.w.gapped || (SameQueue(s, r) && r.w.gapped == s.w.gapped)
    requires !r.w.gapped ==> forall t: nat :: At(r.producers, t).Linking? ==> At(s.producers, t).Linking?
    ensures Gaps(r)
  {
  }

  lemma GapsBegin(s: State, t: nat, n: nat, cause: Cause)
    requires Shape(s) && Gaps(s) && t < |s.producers| && At(s.producers, t).Out? && Shape(BeginStep(s, t, n, cause))
    ensures Gaps(BeginStep(s, t, n, cause))
  {
    var r := BeginStep(s, t, n, cause);
    assert forall u: nat :: At(r.producers, u).Linking? ==> At(s.producers, u).Linking?;
    GapsFrame(s, r);
  }

  lemma GapsMove(s: State, t: nat)
    requires Shape(s) && Gaps(s) && Shape(MoveStep(s, t))
    ensures Gaps(MoveStep(s, t))
  {
    var r := MoveStep(s, t);
    if !At(s.producers, t).Swapping? {
      assert SameQueue(s, r) && r.w.gapped == s.w.gapped;
      assert forall u: nat :: At(r.producers, u).Linking? ==> At(s.producers, u).Linking?;
    }
    GapsFrame(s, r);
  }

  /** The consumer leaves the producers alone, and `gapped` covers them. */
  lemma GapsConsumer(s: State, r: State)
    requires Shape(r) && r.producers == s.producers
    requires SomeLinking(s) ==> r.w.gapped
    requires r.consumer.SawEnd? ==> r.m.head == r.m.tail || r.w.gapped
    requires r.consumer == Idle(Missed) ==> Waiting(r) == [] || r.w.gapped
    ensures Gaps(r)
  {
    assert SomeLinking(r) ==> SomeLinking(s);
  }

  lemma GapsIdle(s: State)
    requires Core(s) && s.consumer.Idle? && Shape(DequeueStep(s))
    ensures Gaps(DequeueStep(s))
  {
    var r := DequeueStep(s);
    assert SomeLinking(s) == r.w.gapped;
    if Load(s.m.next, s.m.tail) == Null {
      NullAtTail(s);
      if s.m.head == s.m.tail == Stub {
        OnlyStubWaits(s);
      }
    }
    GapsConsumer(s, r);
  }

  lemma GapsRead(s: State)
    requires Core(s) && Gaps(s) && (s.consumer.SkippedStub? || s.consumer.Rechecking?) && Shape(DequeueStep(s))
    ensures Gaps(DequeueStep(s))
  {
    var r := DequeueStep(s);
    if Load(s.m.next, s.m.tail) == Null {
      NullAtTail(s);
      assert s.q.last[s.m.head] == |s.q.chain| - 1 && s.q.last[s.m.tail] == s.q.pos;
    }
    GapsConsumer(s, r);
  }

  lemma GapsDequeue(s: State)
    requires Core(s) && Gaps(s) && Shape(DequeueStep(s))
    ensures Gaps(DequeueStep(s))
  {
    if s.consumer.Idle? {
      GapsIdle(s);
    } else if s.consumer.SkippedStub? || s.consumer.Rechecking? {
      GapsRead(s);
    } else if Dequeuing(s.consumer) {
      GapsConsumer(s, DequeueStep(s));
    }
  }

  // ---------- signals ----------

  /** Producers that only move forward keep a due wakeup due, or deliver it. */
  lemma WakesFrame(s: State, r: State)
    requires Shape(s) && Wakes(s) && Shape(r)
    requires r.w.session == s.w.session && r.w.mark == s.w.mark
    requires r.w.regAt == s.w.regAt && r.q.pos == s.q.pos && s.q.chain <= r.q.chain
    requires r.consumer == s.consumer && r.m.tail == s.m.tail
    requires
      || (r.m.waker == s.m.waker && r.w.woken == s.w.woken)
      || (s.m.waker.Some? && r.m.waker == None && r.w.woken == s.w.woken + [s.m.waker.value])
    requires s.w.session.Some? && WakeDue(s) ==> WakeDue(r)
    requires (r.q.chain == s.q.chain && r.m.head == s.m.head) || WakeDue(r)
    ensures Wakes(r)
  {
  }

  lemma WakesBegin(s: State, t: nat, n: nat, cause: Cause)
    requires Shape(s) && Wakes(s) && t < |s.producers| && At(s.producers, t).Out? && Shape(BeginStep(s, t, n, cause))
    ensures Wakes(BeginStep(s, t, n, cause))
  {
    var r := BeginStep(s, t, n, cause);
    assert forall u: nat :: u != t ==> At(r.producers, u) == At(s.producers, u);
    if InFlight(s) {
      var u: nat :| At(s.producers, u).Linking? || At(s.producers, u).Waking?;
      assert At(r.producers, u) == At(s.producers, u);
    }
    WakesFrame(s, r);
  }

  /** Thread t does anything but its call of `wake`. */
  lemma InFlightMoves(s: State, t: nat)
    requires !At(s.producers, t).Waking?
    ensures WakeDue(s) ==> WakeDue(MoveStep(s, t))
    ensures At(s.producers, t).Swapping? ==> WakeDue(MoveStep(s, t))
  {
    var r := MoveStep(s, t);
    assert forall u: nat :: u != t ==> At(r.producers, u) == At(s.producers, u);
    if At(s.producers, t).Swapping? || At(s.producers, t).Linking? {
      assert At(r.producers, t).Linking? || At(r.producers, t).Waking?;
    } else if InFlight(s) {
      var u: nat :| At(s.producers, u).Linking? || At(s.producers, u).Waking?;
      assert At(r.producers, u) == At(s.producers, u);
    }
  }

  lemma WakesMove(s: State, t: nat)
    requires Shape(s) && Wakes(s) && Shape(MoveStep(s, t))
    ensures Wakes(MoveStep(s, t))
  {
    var r := MoveStep(s, t);
    if At(s.producers, t).Waking? {
      assert s.w.session.Some? ==> Signalled(r);
      assert r.q.chain == s.q.chain && r.m.head == s.m.head;
    } else {
      InFlightMoves(s, t);
      assert (r.q.chain == s.q.chain && r.m.head == s.m.head) || At(s.producers, t).Swapping?;
    }
    WakesFrame(s, r);
  }

  /** The consumer's own steps change neither the producers nor the waker. */
  lemma WakesConsumer(s: State, r: State)
    requires Shape(s) && Wakes(s) && Shape(r) && !s.consumer.Registered? && !r.consumer.Registered?
    requires r.w.session == s.w.session && r.w.mark == s.w.mark
    requires r.w.regAt == s.w.regAt && r.m.waker == s.m.waker && r.w.woken == s.w.woken
    requires r.producers == s.producers
    requires r.q.chain == s.q.chain || r.q.chain == s.q.chain + [Stub]
    requires s.w.session.Some? && r.consumer.SawEnd? ==> r.m.head == r.m.tail || WakeDue(s)
    requires s.w.session.Some? && r.consumer == Idle(Missed) ==> Waiting(r) == [] || WakeDue(s)
    requires r.consumer != Idle(Marked(Null))
    ensures Wakes(r)
  {
    assert InFlight(r) == InFlight(s);
    if s.w.session.Some? && !WakeDue(r) {
      forall i | r.w.regAt <= i < |r.q.chain|
        ensures !r.q.chain[i].Real?
      {
      }
    }
  }

  lemma LinkingIsInFlight(s: State)
    requires SomeLinking(s)
    ensures InFlight(s)
  {
    var t: nat :| At(s.producers, t).Linking?;
    assert At(s.producers, t).Linking? || At(s.producers, t).Waking?;
  }

  lemma WakesRead(s: State)
    requires Core(s) && Wakes(s) && Shape(DequeueStep(s))
    requires s.consumer.Idle? || s.consumer.SkippedStub? || s.consumer.Rechecking?
    ensures Wakes(DequeueStep(s))
  {
    var r := DequeueStep(s);
    if Load(s.m.next, s.m.tail) == Null {
      NullAtTail(s);
      if SomeLinking(s) {
        LinkingIsInFlight(s);
      } else if s.m.tail == Stub {
        OnlyStubWaits(s);
      }
      assert s.q.last[s.m.head] == |s.q.chain| - 1 && s.q.last[s.m.tail] == s.q.pos;
    }
    WakesConsumer(s, r);
  }

  lemma WakesDequeue(s: State)
    requires Core(s) && Wakes(s) && Shape(DequeueStep(s))
    ensures Wakes(DequeueStep(s))
  {
    if s.consumer.Idle? || s.consumer.SkippedStub? || s.consumer.Rechecking? {
      WakesRead(s);
    } else if s.consumer.SawEnd? {
      WakesConsumer(s, DequeueStep(s));
    } else if Dequeuing(s.consumer) {
      WakesConsumer(s, DequeueStep(s));
    }
  }

  lemma WakesRegister(s: State, w: nat)
    requires Shape(s) && Shape(RegisterStep(s, w))
    ensures Wakes(RegisterStep(s, w))
  {
  }

  lemma WakesLoadHead(s: State)
    requires Core(s) && Wakes(s) && s.consumer.Registered? && Shape(LoadHeadStep(s))
    ensures Wakes(LoadHeadStep(s))
  {
    var r := LoadHeadStep(s);
    if s.m.head == s.m.tail == Stub {
      OnlyStubWaits(s);
    } else if s.m.head == Stub {
      assert s.q.last[Stub] == |s.q.chain| - 1;
      assert s.m.stubPred != Null;
    }
  }

  // ---------- reasons ----------

  lemma ReasonsBegin(s: State, t: nat, n: nat, cause: Cause)
    requires Reasons(s) && t < |s.producers|
    ensures Reasons(BeginStep(s, t, n, cause))
  {
    var r := BeginStep(s, t, n, cause);
    assert r.h.requests[..|r.h.requests| - 1] == s.h.requests;
    forall m: nat
      ensures Times(r.h.released, m) + (if m in r.m.flags then 1 else 0) <= Asked(r.h.requests, m)
    {
      assert Times(s.h.released, m) + (if m in s.m.flags then 1 else 0) <= Asked(s.h.requests, m);
    }
  }

  lemma ReasonsRelease(s: State)
    requires Reasons(s) && s.consumer.Holding? && s.consumer.node in s.m.flags
    ensures Reasons(ReleaseStep(s))
  {
    var r := ReleaseStep(s);
    assert r.h.released[..|r.h.released| - 1] == s.h.released;
    forall m: nat
      ensures Times(r.h.released, m) + (if m in r.m.flags then 1 else 0) <= Asked(r.h.requests, m)
    {
      assert Times(s.h.released, m) + (if m in s.m.flags then 1 else 0) <= Asked(s.h.requests, m);
    }
  }

  lemma ReasonsDequeue(s: State)
    requires Reasons(s)
    ensures Reasons(DequeueStep(s))
  {
    var r := DequeueStep(s);
    assert r.m.flags == s.m.flags && r.h.released == s.h.released && r.h.requests == s.h.requests;
  }
}
