/** Promises of the wake queue that relate two moments of a run. */
module ProtocolWakeups {
  import opened Protocol
  import opened ProtocolInvariant
  import opened ProtocolHistory
  import opened ProtocolRuns
  import opened ProtocolTheorems

  // ---------- no lost wakeup ----------

  /** The waker registered last was signalled since then, once. */
  ghost predicate Answered(s: State) {
    s.w.session.Some? && s.w.mark <= |s.w.woken| && s.w.woken[s.w.mark..] == [s.w.session.value]
  }

  /** A waiting node has signalled the waker registered last, or its producer is about to. */
  ghost predicate Parked(s: State) {
    && s.w.session.Some? && !s.consumer.Registered? && s.q.pos <= |s.q.chain|
    && (Waiting(s) == [] || WakeDue(s))
  }

  /** The three ways in which a consumer may stop: an empty snapshot, a None, an exhausted snapshot. */
  ghost predicate MayPark(s: State) {
    && s.w.session.Some? && !s.consumer.Registered?
    && (|| s.consumer == Idle(Marked(Null))
        || s.consumer == Idle(Missed)
        || (forall i :: s.q.pos <= i < |s.q.chain| && i < s.w.regAt ==> !s.q.chain[i].Real?))
  }

  lemma {:induction false} NoRealWaits(s: State)
    requires s.q.pos <= |s.q.chain|
    requires forall i :: s.q.pos <= i < |s.q.chain| ==> !s.q.chain[i].Real?
    ensures Waiting(s) == []
  {
    RealsEmpty(s.q.chain[s.q.pos..]);
  }

  lemma ParkingIsSafe(s: State)
    requires Inv(s) && MayPark(s)
    ensures Parked(s)
  {
    if s.consumer != Idle(Marked(Null)) && s.consumer != Idle(Missed) && !WakeDue(s) {
      NoRealWaits(s);
    }
  }

  ghost predicate OthersAct(run: seq<Action>) {
    forall i :: 0 <= i < |run| ==> run[i].Begin? || run[i].Move? || run[i].Create?
  }

  lemma ParkedBegin(s: State, t: nat, n: nat, cause: Cause)
    requires Parked(s) && t < |s.producers| && At(s.producers, t).Out?
    ensures Parked(BeginStep(s, t, n, cause))
  {
    var r := BeginStep(s, t, n, cause);
    assert forall u: nat :: u != t ==> At(r.producers, u) == At(s.producers, u);
    if InFlight(s) {
      var u: nat :| At(s.producers, u).Linking? || At(s.producers, u).Waking?;
      assert At(r.producers, u) == At(s.producers, u);
    }
  }

  lemma ParkedMove(s: State, t: nat)
    requires Shape(s) && Wakes(s) && Parked(s)
    ensures Parked(MoveStep(s, t))
  {
    var r := MoveStep(s, t);
    if At(s.producers, t).Waking? {
      assert Signalled(r);
    } else {
      InFlightMoves(s, t);
    }
  }

  lemma ParkedStep(s: State, a: Action)
    requires Inv(s) && Parked(s) && (a.Begin? || a.Move? || a.Create?)
    ensures Parked(Step(s, a)) && Step(s, a).w.session == s.w.session && Step(s, a).w.mark == s.w.mark
  {
    if Enabled(s, a) {
      match a
      case Begin(t, n, cause) => ParkedBegin(s, t, n, cause);
      case Move(t) => ParkedMove(s, t);
      case Create => assert InFlight(Step(s, a)) == InFlight(s);
    }
  }

  /**
   No lost wakeup: from the moment the consumer parks, in every later state before it registers again,
   if a node waits then the registered waker has been signalled since its registration,
   or a producer has still to call `wake`.
   */
  lemma {:induction false} NoLostWakeup(s: State, run: seq<Action>)
    requires Inv(s) && Parked(s) && OthersAct(run)
    ensures var r := Exec(s, run);
      && r.w.session == s.w.session && r.w.mark == s.w.mark && r.q.pos <= |r.q.chain|
      && (Waiting(r) != [] ==> Answered(r) || InFlight(r))
    decreases |run|
  {
    if run == [] {
      assert Signalled(s) ==> Answered(s);
    } else {
      ParkedStep(s, run[0]);
      InvStep(s, run[0]);
      NoLostWakeup(Step(s, run[0]), run[1..]);
    }
  }

  lemma WakingAnswers(s: State, t: nat)
    requires Shape(s) && Wakes(s) && s.w.session.Some? && At(s.producers, t).Waking?
    ensures Answered(MoveStep(s, t))
  {
  }

  /** The wakeup still to come needs at most two more steps of the thread that owes it. */
  lemma OwedWakeupComes(s: State, t: nat)
    requires Inv(s) && s.w.session.Some? && (At(s.producers, t).Linking? || At(s.producers, t).Waking?)
    ensures At(s.producers, t).Linking? ==> Answered(Step(Step(s, Move(t)), Move(t)))
    ensures At(s.producers, t).Waking? ==> Answered(Step(s, Move(t)))
  {
    if At(s.producers, t).Linking? {
      var r := MoveStep(s, t);
      InvMove(s, t);
      assert At(r.producers, t).Waking? && r.w == s.w;
      WakingAnswers(r, t);
    } else {
      WakingAnswers(s, t);
    }
  }

  // ---------- no swallowed wake ----------

  /** A node whose flag is set is in exactly one of four places. */
  lemma FlaggedIsSomewhere(s: State, n: nat)
    requires Inv(s)
    ensures n in s.m.flags <==> Queued(s, Real(n)) || Carried(s, n) || s.consumer == Holding(n) || n in s.h.retired
    ensures !(Queued(s, Real(n)) && Carried(s, n)) && !(Queued(s, Real(n)) && s.consumer == Holding(n))
    ensures !(Queued(s, Real(n)) && n in s.h.retired) && !(Carried(s, n) && s.consumer == Holding(n))
    ensures !(Carried(s, n) && n in s.h.retired) && !(s.consumer == Holding(n) && n in s.h.retired)
  {
    if Carried(s, n) {
      assert PreSwap(At(s.producers, s.h.winner[n]));
    }
  }

  lemma ReleasedGrows(s: State, a: Action)
    ensures s.h.released <= Step(s, a).h.released
    ensures s.m.flags - (set n | n in Step(s, a).h.released[|s.h.released|..]) <= Step(s, a).m.flags
    ensures s.h.retired <= Step(s, a).h.retired
  {
    if a.Move? {
      assert MoveStep(s, a.thread).h == s.h;
    }
  }

  /**
   No wake is swallowed: whoever finds or sets the flag of a node, either the flag is still set
   later on, or the consumer has released the node in between, to look at it after the wake.
   */
  lemma {:induction false} WakeIsServed(s: State, run: seq<Action>, n: nat)
    requires n in s.m.flags
    ensures s.h.released <= Exec(s, run).h.released
    ensures n in Exec(s, run).m.flags || n in Exec(s, run).h.released[|s.h.released|..]
    decreases |run|
  {
    if run != [] {
      var r := Step(s, run[0]);
      var e := Exec(r, run[1..]);
      ReleasedGrows(s, run[0]);
      if n in r.m.flags {
        WakeIsServed(r, run[1..], n);
        assert e.h.released[|s.h.released|..][|r.h.released| - |s.h.released|..] == e.h.released[|r.h.released|..];
      } else {
        ReleasedOnlyGrows(r, run[1..]);
        assert n in r.h.released[|s.h.released|..];
        assert r.h.released[|s.h.released|..] <= e.h.released[|s.h.released|..];
      }
    }
  }

  lemma {:induction false} ReleasedOnlyGrows(s: State, run: seq<Action>)
    ensures s.h.released <= Exec(s, run).h.released
    decreases |run|
  {
    if run != [] {
      ReleasedGrows(s, run[0]);
      ReleasedOnlyGrows(Step(s, run[0]), run[1..]);
    }
  }

  // ---------- retired nodes ----------

  lemma RetiredStep(s: State, a: Action, n: nat)
    requires Inv(s) && n in s.h.retired
    ensures n in Step(s, a).h.retired && n !in ReturnedBy(s, a)
  {
    ReleasedGrows(s, a);
    if a.Dequeue? && s.m.tail.Real? {
      assert Queued(s, s.m.tail);
    }
  }

  /** A node dropped with its flag set never comes back, however often it is woken. */
  lemma {:induction false} RetiredStaysOut(s: State, run: seq<Action>, n: nat)
    requires Inv(s) && n in s.h.retired
    ensures n in Exec(s, run).h.retired && n !in Returned(s, run)
    decreases |run|
  {
    if run != [] {
      RetiredStep(s, run[0], n);
      InvStep(s, run[0]);
      RetiredStaysOut(Step(s, run[0]), run[1..], n);
    }
  }

  /** Node n is not released in the run. */
  ghost predicate Unreleased(s: State, run: seq<Action>, n: nat) {
    s.h.released <= Exec(s, run).h.released && n !in Exec(s, run).h.released[|s.h.released|..]
  }

  lemma UnreleasedStep(s: State, run: seq<Action>, n: nat)
    requires run != [] && Unreleased(s, run, n)
    ensures Unreleased(Step(s, run[0]), run[1..], n) && !(s.consumer == Holding(n) && run[0].Release?)
  {
    hide Exec, Step;
    var r := Step(s, run[0]);
    assert Exec(s, run) == Exec(r, run[1..]) by {
      ExecCons(s, run);
    }
    ReleasedGrows(s, run[0]);
    ReleasedOnlyGrows(r, run[1..]);
    if s.consumer.Holding? {
      ReleaseAdds(s);
    }
    SuffixSplits(s.h.released, r.h.released, Exec(r, run[1..]).h.released);
  }

  lemma ExecCons(s: State, run: seq<Action>)
    requires run != []
    ensures Exec(s, run) == Exec(Step(s, run[0]), run[1..])
  {
  }

  lemma SuffixSplits(a: seq<nat>, b: seq<nat>, c: seq<nat>)
    requires a <= b <= c
    ensures c[|a|..] == b[|a|..] + c[|b|..]
  {
  }

  lemma ReleaseAdds(s: State)
    requires s.consumer.Holding?
    ensures Step(s, Release).h.released == s.h.released + [s.consumer.node]
  {
  }

  lemma HeldStep(s: State, a: Action, n: nat)
    requires s.consumer == Holding(n) && !a.Release?
    ensures ReturnedBy(s, a) == []
    ensures Step(s, a).consumer == Holding(n) || n in Step(s, a).h.retired
  {
  }

  lemma {:induction false} HeldStaysOut(s: State, run: seq<Action>, n: nat)
    requires Inv(s) && (s.consumer == Holding(n) || n in s.h.retired)
    requires Unreleased(s, run, n)
    ensures n !in Returned(s, run)
    decreases |run|
  {
    hide Inv;
    if n in s.h.retired {
      RetiredStaysOut(s, run, n);
    } else if run != [] {
      UnreleasedStep(s, run, n);
      HeldStep(s, run[0], n);
      InvStep(s, run[0]);
      HeldStaysOut(Step(s, run[0]), run[1..], n);
    }
  }

  /**
   A node that is never released again, such as that of a removed task, is dequeued at most once more, however often it
   is woken.
   */
  lemma {:induction false} AtMostOnceMore(s: State, run: seq<Action>, n: nat)
    requires Inv(s) && Unreleased(s, run, n)
    ensures forall i, j :: 0 <= i < j < |Returned(s, run)| ==> Returned(s, run)[i] != n || Returned(s, run)[j] != n
    decreases |run|
  {
    hide Inv;
    if run != [] {
      var r := Step(s, run[0]);
      UnreleasedStep(s, run, n);
      InvStep(s, run[0]);
      if ReturnedBy(s, run[0]) == [n] {
        HeldStaysOut(r, run[1..], n);
      } else {
        AtMostOnceMore(r, run[1..], n);
      }
    }
  }

  /** Every dequeued node was released to be polled, or dropped, or is at hand; nothing else is. */
  ghost predicate Handled(s: State) {
    multiset(s.h.delivered) ==
      multiset(s.h.released) + multiset(s.h.retired)
      + if s.consumer.Holding? then multiset{s.consumer.node} else multiset{}
  }

  lemma HandledStep(s: State, a: Action)
    requires Inv(s) && Handled(s)
    ensures Handled(Step(s, a))
  {
    hide Inv, DequeueStep, Handled;
    if a.Dequeue? && Enabled(s, a) {
      HandledDequeue(s);
    } else if a.Release? && Enabled(s, a) {
      HandledRelease(s);
    } else if a.Retire? && Enabled(s, a) {
      HandledRetire(s);
    } else {
      HandledOtherwise(s, a);
    }
  }

  lemma HandledRelease(s: State)
    requires Handled(s) && s.consumer.Holding?
    ensures Handled(ReleaseStep(s))
  {
  }

  lemma HandledDequeue(s: State)
    requires Handled(s) && (s.consumer.Idle? || Dequeuing(s.consumer))
    ensures Handled(DequeueStep(s))
  {
    hide DequeueStep;
    ChainAfterDequeue(s);
    DequeueKeeps(s);
  }

  lemma HandledRetire(s: State)
    requires Inv(s) && Handled(s) && s.consumer.Holding?
    ensures Handled(RetireStep(s))
  {
    hide Inv;
    HeldIsNotRetired(s);
    assert multiset(s.h.retired + {s.consumer.node}) == multiset(s.h.retired) + multiset{s.consumer.node};
  }

  lemma HandledOtherwise(s: State, a: Action)
    requires Handled(s) && (Enabled(s, a) ==> !a.Dequeue? && !a.Release? && !a.Retire?)
    ensures Handled(Step(s, a))
  {
    if a.Move? {
      assert MoveStep(s, a.thread).h == s.h;
    }
  }

  lemma HeldIsNotRetired(s: State)
    requires Inv(s) && s.consumer.Holding?
    ensures s.consumer.node !in s.h.retired
  {
  }

  lemma DequeueKeeps(s: State)
    requires s.consumer.Idle? || Dequeuing(s.consumer)
    ensures var r := DequeueStep(s);
      && r.h.released == s.h.released && r.h.retired == s.h.retired
      && ReturnedBy(s, Dequeue) == if r.consumer.Holding? then [r.consumer.node] else []
  {
  }

  lemma {:induction false} DeliveredIsHandled(threads: nat, run: seq<Action>)
    ensures Handled(Exec(Init(threads), run))
  {
    InvInit(threads);
    HandledRun(Init(threads), run);
  }

  lemma {:induction false} HandledRun(s: State, run: seq<Action>)
    requires Inv(s) && Handled(s)
    ensures Handled(Exec(s, run))
    decreases |run|
  {
    hide Inv, Handled;
    if run != [] {
      HandledStep(s, run[0]);
      InvStep(s, run[0]);
      HandledRun(Step(s, run[0]), run[1..]);
    }
  }

  // ---------- round robin ----------

  /**
   Round robin: between two deliveries of one node, every node that waited at the first is delivered,
   in the order in which it waited.
   */
  lemma RoundRobin(s: State, run: seq<Action>, i: nat)
    requires Inv(s) && s.consumer.Holding?
    requires i < |Returned(s, run)| && Returned(s, run)[i] == s.consumer.node
    ensures Waiting(s) <= Returned(s, run)[..i]
  {
    WaitingThenSwapped(s, run);
    HeldDoesNotWait(s);
    AllBefore(Returned(s, run), Waiting(Exec(s, run)), Waiting(s), Swapped(s, run), i);
  }

  /** What is dequeued in a run is at hand at its end, or was released to be polled, or dropped. */
  lemma {:induction false} ReturnedIsHandled(s: State, run: seq<Action>, m: nat)
    requires m in Returned(s, run) || s.consumer == Holding(m)
    ensures var r := Exec(s, run);
      && s.h.released <= r.h.released
      && (r.consumer == Holding(m) || m in r.h.released[|s.h.released|..] || m in r.h.retired)
    decreases |run|
  {
    ReleasedOnlyGrows(s, run);
    if run != [] {
      hide Step, Exec;
      var a, s', rest := run[0], Step(s, run[0]), run[1..];
      ExecCons(s, run);
      ReleasedGrows(s, a);
      ReleasedOnlyGrows(s', rest);
      SuffixSplits(s.h.released, s'.h.released, Exec(s', rest).h.released);
      HeldMoves(s, a, m);
      if s.consumer == Holding(m) && s'.consumer != Holding(m) {
        RetiredOnlyGrows(s', rest);
      } else {
        ReturnedIsHandled(s', rest, m);
      }
    }
  }

  /** The next step of the consumer that holds a node, or is about to. */
  lemma HeldMoves(s: State, a: Action, m: nat)
    ensures var r := Step(s, a);
      && (s.consumer == Holding(m) && r.consumer != Holding(m) ==>
            r.h.released == s.h.released + [m] || m in r.h.retired)
      && (m in ReturnedBy(s, a) ==> r.consumer == Holding(m))
  {
  }

  lemma {:induction false} RetiredOnlyGrows(s: State, run: seq<Action>)
    ensures s.h.retired <= Exec(s, run).h.retired
    decreases |run|
  {
    if run != [] {
      ReleasedGrows(s, run[0]);
      RetiredOnlyGrows(Step(s, run[0]), run[1..]);
    }
  }

  /**
   Round robin: when a node is dequeued again, every node that waited when it was dequeued before
   has been released to be polled, or dropped because its task was gone.
   */
  lemma RoundRobinPolls(s: State, run: seq<Action>, m: nat)
    requires Inv(s) && s.consumer.Holding? && m in Waiting(s)
    requires Returned(s, run) != [] && Returned(s, run)[|Returned(s, run)| - 1] == s.consumer.node
    requires Exec(s, run).consumer == Holding(s.consumer.node)
    ensures s.h.released <= Exec(s, run).h.released
    ensures m in Exec(s, run).h.released[|s.h.released|..] || m in Exec(s, run).h.retired
  {
    hide Inv, Exec, Returned;
    RoundRobin(s, run, |Returned(s, run)| - 1);
    HeldDoesNotWait(s);
    ReturnedIsHandled(s, run, m);
  }

  lemma HeldDoesNotWait(s: State)
    requires Inv(s) && s.consumer.Holding?
    ensures s.consumer.node !in Waiting(s)
  {
    WaitingAt(s, s.q.pos);
  }

  lemma AllBefore(a: seq<nat>, b: seq<nat>, c: seq<nat>, d: seq<nat>, i: nat)
    requires a + b == c + d && i < |a| && a[i] !in c
    ensures c <= a[..i]
  {
    assert forall k :: 0 <= k < |c| ==> (a + b)[k] == c[k];
    assert (a + b)[i] == a[i];
  }

  /** What is returned later is what waits now, and then what is swapped in later. */
  lemma WaitingThenSwapped(s: State, run: seq<Action>)
    requires Inv(s)
    ensures Inv(Exec(s, run))
    ensures Returned(s, run) + Waiting(Exec(s, run)) == Waiting(s) + Swapped(s, run)
  {
    var r := Exec(s, run);
    RunHistory(s, run);
    InvExec(s, run);
    HistorySplits(s);
    HistorySplits(r);
    CancelPrefix(s.h.delivered, Returned(s, run), Waiting(r), Waiting(s), Swapped(s, run));
  }

  lemma CancelPrefix(p: seq<nat>, a: seq<nat>, b: seq<nat>, c: seq<nat>, d: seq<nat>)
    requires (p + a) + b == (p + c) + d
    ensures a + b == c + d
  {
    assert a + b == ((p + a) + b)[|p|..];
    assert c + d == ((p + c) + d)[|p|..];
  }

  // ---------- reasons ----------

  /** A node is released, to be polled, at most once for each time somebody asked for it. */
  lemma ReleasedForAReason(threads: nat, run: seq<Action>, n: nat)
    ensures var r := Exec(Init(threads), run); Times(r.h.released, n) <= Asked(r.h.requests, n)
  {
    InvInit(threads);
    InvExec(Init(threads), run);
  }

  // ---------- structure ----------

  /** Exactly one thread owes a link that is missing inside the queue, and nobody else owes one. */
  lemma OneOwnerPerGap(s: State, i: nat)
    requires Inv(s) && s.q.pos < i < |s.q.chain|
    ensures Load(s.m.next, s.q.chain[i - 1]) == Null <==> Owed(s, i)
    ensures Load(s.m.next, s.q.chain[i - 1]) != Null ==> Load(s.m.next, s.q.chain[i - 1]) == s.q.chain[i]
    ensures forall t: nat ::
      At(s.producers, t).Linking? && Real(At(s.producers, t).node) == s.q.chain[i] <==>
      s.q.chain[i].Real? && Owed(s, i) && t == s.q.via[i]
    ensures forall j :: s.q.pos <= j < i ==> s.q.chain[j] != s.q.chain[i]
  {
    assert LinkAt(s, i - 1);
    forall j | s.q.pos <= j < i
      ensures s.q.chain[j] != s.q.chain[i]
    {
      assert s.q.last[s.q.chain[j]] == j;
    }
  }

  /** The cell a producer is about to clear or to write is not in use by anybody else. */
  lemma StoresDoNotClobber(s: State, t: nat)
    requires Inv(s)
    ensures At(s.producers, t).Resetting? ==>
      var p := Real(At(s.producers, t).node);
      !Queued(s, p) && forall u: nat :: At(s.producers, u).Linking? ==> At(s.producers, u).pred != p
    ensures At(s.producers, t).Linking? ==>
      Queued(s, At(s.producers, t).pred) && Load(s.m.next, At(s.producers, t).pred) == Null
  {
    var p := At(s.producers, t);
    if p.Resetting? {
      assert Carried(s, p.node);
      forall u: nat | At(s.producers, u).Linking?
        ensures At(s.producers, u).pred != Real(p.node)
      {
        var at := s.q.last[Real(At(s.producers, u).node)];
        assert s.q.last[s.q.chain[at - 1]] == at - 1;
      }
    } else if p.Linking? {
      var at := s.q.last[Real(p.node)];
      assert LinkAt(s, at - 1);
      assert s.q.last[s.q.chain[at - 1]] == at - 1;
    }
  }
}
