/** The nodes up to the marker of one registration, while the queue goes on growing. */
module Snapshots {
  import opened Protocol
  import opened ProtocolInvariant
  import opened ProtocolTheorems
  import opened ProtocolWakeups
  import opened ReceiverSteps

  /** At the last registration `before` had been delivered, and `snapshot` waited. */
  ghost predicate SnapshotOf(s: State, before: seq<nat>, snapshot: seq<nat>) {
    && s.w.regAt <= |s.q.chain| && Reals(s.q.chain[..s.w.regAt]) == before + snapshot
    && Distinct(snapshot) && s.w.session.Some?
  }

  /** The same registration, a queue at least as long. */
  ghost predicate Onward(s: State, r: State) {
    && r.created == s.created && s.q.chain <= r.q.chain
    && r.w.regAt == s.w.regAt && r.w.session == s.w.session
  }

  lemma TakeSnapshot(s: State)
    requires Inv(s) && s.w.regAt == |s.q.chain| && s.w.session.Some?
    ensures SnapshotOf(s, s.h.delivered, Waiting(s))
  {
    HistorySplits(s);
    WaitingDistinct(s, s.q.pos);
    assert s.q.chain[..|s.q.chain|] == s.q.chain;
  }

  lemma SnapshotStays(s: State, r: State, before: seq<nat>, snapshot: seq<nat>)
    requires SnapshotOf(s, before, snapshot) && Onward(s, r)
    ensures SnapshotOf(r, before, snapshot)
  {
    assert r.q.chain[..r.w.regAt] == s.q.chain[..s.w.regAt];
  }

  /** What is delivered after k nodes of the snapshot is its next node. */
  lemma NextOfSnapshot(s: State, before: seq<nat>, snapshot: seq<nat>, k: nat, n: nat)
    requires Inv(s) && SnapshotOf(s, before, snapshot) && k < |snapshot|
    requires s.h.delivered == before + snapshot[..k] + [n]
    ensures n == snapshot[k] && s.h.delivered == before + snapshot[..k + 1]
  {
    hide Inv, Reals;
    QueueSplits(s);
    RegisteredPart(s);
    SamePosition(before, snapshot, k, n, Waiting(s), Reals(s.q.chain[s.w.regAt..]));
  }

  lemma SamePosition(before: seq<nat>, snapshot: seq<nat>, k: nat, n: nat, a: seq<nat>, b: seq<nat>)
    requires k < |snapshot| && (before + snapshot[..k] + [n]) + a == (before + snapshot) + b
    ensures n == snapshot[k] && before + snapshot[..k] + [n] == before + snapshot[..k + 1]
  {
    assert ((before + snapshot[..k] + [n]) + a)[|before| + k] == n;
    assert ((before + snapshot) + b)[|before| + k] == snapshot[k];
    assert snapshot[..k + 1] == snapshot[..k] + [snapshot[k]];
  }

  /** A consumer that has taken its whole snapshot may stop. */
  lemma ExhaustedSnapshot(s: State, before: seq<nat>, snapshot: seq<nat>)
    requires Inv(s) && SnapshotOf(s, before, snapshot) && s.h.delivered == before + snapshot && !s.consumer.Registered?
    ensures Parked(s)
  {
    hide Inv, Parked;
    TailInChain(s);
    assert s.h.delivered == Reals(s.q.chain[..s.q.pos]) by {
      DeliveredPart(s);
    }
    if s.q.pos < s.w.regAt {
      NoRealBetween(s.q.chain, s.q.pos, s.w.regAt);
    }
    ParkingIsSafe(s);
  }

  lemma DeliveredPart(s: State)
    requires Inv(s)
    ensures s.q.pos < |s.q.chain| && s.h.delivered == Reals(s.q.chain[..s.q.pos])
  {
  }

  lemma NoRealBetween(chain: seq<Ptr>, from: nat, to: nat)
    requires from <= to <= |chain| && Reals(chain[..from]) == Reals(chain[..to])
    ensures forall i :: from <= i < to ==> !chain[i].Real?
  {
    var rest := chain[from..to];
    RealsConcat(chain[..from], rest);
    assert chain[..to] == chain[..from] + rest;
    RealsEmpty(rest);
    forall i | from <= i < to
      ensures !chain[i].Real?
    {
      assert chain[i] == rest[i - from];
    }
  }

  /** Enqueues on this thread, and the work of others meanwhile; the number of requests aside. */
  ghost predicate Calm(s: State, r: State) {
    && Onward(s, r) && r.consumer == s.consumer && r.h.delivered == s.h.delivered
    && r.h.released == s.h.released && r.h.retired == s.h.retired
    && s.m.flags <= r.m.flags && (Parked(s) ==> Parked(r))
  }

  lemma BesideCalm(s: State, r: State)
    requires Beside(s, r)
    ensures Calm(s, r)
  {
  }

  lemma CalmReflexive(s: State)
    ensures Calm(s, s) && SameRequests(s.h.requests, s.h.requests)
  {
  }

  lemma CalmTransitive(s: State, m: State, r: State)
    requires Calm(s, m) && Calm(m, r)
    ensures Calm(s, r)
    ensures SameRequests(s.h.requests, m.h.requests) && SameRequests(m.h.requests, r.h.requests) ==>
      SameRequests(s.h.requests, r.h.requests)
  {
  }

  lemma CalmMeans(s: State, r: State)
    requires Calm(s, r)
    ensures r.created == s.created && r.consumer == s.consumer && (Parked(s) ==> Parked(r))
    ensures r.h.released == s.h.released && r.h.retired == s.h.retired && r.h.delivered == s.h.delivered
  {
  }

  lemma CalmKeeps(s: State, r: State)
    requires Calm(s, r)
    ensures r.created == s.created && s.m.flags <= r.m.flags
  {
  }

  /** The queue's part of a poll: `into_inner`, then wakes, and one more request if the task continues. */
  ghost predicate PolledOnce(s: State, r: State, n: nat, continued: bool) {
    && Onward(s, r) && r.consumer.Idle? && r.h.delivered == s.h.delivered
    && r.h.released == s.h.released + [n] && r.h.retired == s.h.retired
    && (if continued then AskedOnce(s.h.requests, r.h.requests, Request(n, Continued))
        else SameRequests(s.h.requests, r.h.requests))
  }

  lemma ReleasedIsPolled(s: State, r: State, n: nat)
    requires Settled(s, r) && r.h.released == s.h.released + [n] && r.h.retired == s.h.retired && r.consumer.Idle?
    ensures PolledOnce(s, r, n, false)
  {
  }

  lemma PolledThenCalm(s: State, m: State, r: State, n: nat, continued: bool)
    requires PolledOnce(s, m, n, continued) && Calm(m, r) && SameRequests(m.h.requests, r.h.requests)
    ensures PolledOnce(s, r, n, continued)
  {
  }

  lemma PolledThenContinued(s: State, m: State, r: State, n: nat)
    requires PolledOnce(s, m, n, false) && Beside(m, r) && AskedOnce(m.h.requests, r.h.requests, Request(n, Continued))
    ensures PolledOnce(s, r, n, true)
  {
  }

  lemma PolledKeeps(s: State, r: State, n: nat, continued: bool)
    requires PolledOnce(s, r, n, continued)
    ensures r.created == s.created && r.h.retired == s.h.retired && Onward(s, r)
    ensures r.consumer.Idle? && r.h.delivered == s.h.delivered && r.w.session == s.w.session
  {
  }

  lemma DuringOnward(s: State, r: State)
    requires During(s, r)
    ensures Onward(s, r) && r.h.released == s.h.released && r.h.retired == s.h.retired
    ensures r.created == s.created && r.w.session == s.w.session
    ensures SameRequests(s.h.requests, r.h.requests) && At(r.producers, 0) == At(s.producers, 0)
  {
  }

  /** A wake is not counted among the other requests. */
  lemma WakeIsUncounted(before: seq<Request>, after: seq<Request>, n: nat)
    requires AskedOnce(before, after, Request(n, Woken))
    ensures SameRequests(before, after)
  {
  }

  /** k nodes of the snapshot have been delivered. */
  ghost predicate Progressed(s: State, before: seq<nat>, snapshot: seq<nat>, k: nat) {
    SnapshotOf(s, before, snapshot) && k <= |snapshot| && s.h.delivered == before + snapshot[..k]
  }

  lemma ProgressStarts(s: State, r: State)
    requires Inv(r) && r.q.pos <= |r.q.chain| && r.w.regAt == |r.q.chain| && r.w.session.Some?
    requires s.q.pos <= |s.q.chain| && s.q.chain <= r.q.chain && r.q.pos == s.q.pos && r.h.delivered == s.h.delivered
    ensures Progressed(r, s.h.delivered, Waiting(r), 0) && Waiting(s) <= Waiting(r)
  {
    hide Inv;
    TakeSnapshot(r);
    WaitingGrows(s, r);
  }

  lemma ProgressMeans(s: State, before: seq<nat>, snapshot: seq<nat>, k: nat)
    requires Progressed(s, before, snapshot, k)
    ensures Distinct(snapshot) && k <= |snapshot| && s.h.delivered == before + snapshot[..k]
  {
  }

  lemma NextIsNew(s: State, before: seq<nat>, snapshot: seq<nat>, k: nat)
    requires Progressed(s, before, snapshot, k)
    ensures Distinct(snapshot)
    ensures k > 0 ==> snapshot[k - 1] !in snapshot[..k - 1] && snapshot[..k] == snapshot[..k - 1] + [snapshot[k - 1]]
    ensures k > 0 ==> (Real(snapshot[k - 1]) == Real(snapshot[|snapshot| - 1]) <==> k == |snapshot|)
  {
  }

  lemma TailInChain(s: State)
    requires Inv(s)
    ensures s.q.pos < |s.q.chain|
  {
  }

  lemma WaitingGrows(s: State, r: State)
    requires s.q.pos <= |s.q.chain| && s.q.chain <= r.q.chain && r.q.pos == s.q.pos
    ensures Waiting(s) <= Waiting(r)
  {
    assert r.q.chain[r.q.pos..] == s.q.chain[s.q.pos..] + r.q.chain[|s.q.chain|..];
    RealsConcat(s.q.chain[s.q.pos..], r.q.chain[|s.q.chain|..]);
  }

  lemma ProgressStays(s: State, r: State, before: seq<nat>, snapshot: seq<nat>, k: nat)
    requires Progressed(s, before, snapshot, k) && Onward(s, r) && r.h.delivered == s.h.delivered
    ensures Progressed(r, before, snapshot, k)
  {
    SnapshotStays(s, r, before, snapshot);
  }

  /** `dequeue` hands out the next node of the snapshot. */
  lemma ProgressAdvances(s: State, r: State, before: seq<nat>, snapshot: seq<nat>, k: nat, n: nat)
    requires Progressed(s, before, snapshot, k) && k < |snapshot| && Onward(s, r)
    requires Inv(r) && r.consumer == Holding(n) && r.h.delivered == s.h.delivered + [n]
    ensures n == snapshot[k] && Progressed(r, before, snapshot, k + 1)
    ensures n < r.created && n !in r.h.retired
  {
    SnapshotStays(s, r, before, snapshot);
    NextOfSnapshot(r, before, snapshot, k, n);
  }

  /** A snapshot not yet delivered is still waiting. */
  lemma SnapshotWaits(s: State, before: seq<nat>, snapshot: seq<nat>, k: nat)
    requires Inv(s) && Progressed(s, before, snapshot, k) && k < |snapshot|
    ensures Waiting(s) != []
  {
    hide Inv, Reals;
    QueueSplits(s);
    RegisteredPart(s);
    assert s.h.delivered + Waiting(s) == (before + snapshot) + Reals(s.q.chain[s.w.regAt..]);
    assert |s.h.delivered| < |before + snapshot|;
  }

  /** All that was swapped in was delivered or waits. */
  lemma QueueSplits(s: State)
    requires Inv(s)
    ensures s.q.pos <= |s.q.chain| && s.h.delivered + Waiting(s) == Reals(s.q.chain)
  {
    HistorySplits(s);
  }

  lemma RegisteredPart(s: State)
    requires s.w.regAt <= |s.q.chain|
    ensures Reals(s.q.chain) == Reals(s.q.chain[..s.w.regAt]) + Reals(s.q.chain[s.w.regAt..])
  {
    RealsConcat(s.q.chain[..s.w.regAt], s.q.chain[s.w.regAt..]);
    assert s.q.chain == s.q.chain[..s.w.regAt] + s.q.chain[s.w.regAt..];
  }

  lemma ProgressEnds(s: State, before: seq<nat>, snapshot: seq<nat>, k: nat)
    requires Inv(s) && Progressed(s, before, snapshot, k) && s.consumer.Idle?
    requires k == |snapshot| || s.consumer == Idle(Missed)
    ensures Parked(s)
  {
    if k == |snapshot| {
      assert snapshot[..k] == snapshot;
      ExhaustedSnapshot(s, before, snapshot);
    } else {
      ParkingIsSafe(s);
    }
  }

  lemma AloneIsStill(s: State)
    requires At(s.producers, 0).Out? && forall t: nat :: 0 < t < |s.producers| ==> s.producers[t].Out?
    ensures !SomeLinking(s)
  {
  }
}
