/** What the other threads, and one call of the consumer, may change. */
module ReceiverSteps {
  import opened Wrappers
  import opened Protocol
  import opened ProtocolRuns
  import opened ProtocolTheorems
  import opened ProtocolWakeups

  /** The same number of requests, wakes aside. */
  ghost predicate SameRequests(before: seq<Request>, after: seq<Request>) {
    forall x: Request :: !x.cause.Woken? ==> multiset(after)[x] == multiset(before)[x]
  }

  /** One more request, wakes aside. */
  ghost predicate AskedOnce(before: seq<Request>, after: seq<Request>, asked: Request) {
    forall x: Request :: !x.cause.Woken? ==> multiset(after)[x] == multiset(before)[x] + if x == asked then 1 else 0
  }

  /** Nothing is released, retired or created, nobody asks except to wake, and the queue only grows. */
  ghost predicate During(s: State, r: State) {
    && r.created == s.created
    && |r.producers| == |s.producers| && At(r.producers, 0) == At(s.producers, 0)
    && s.q.chain <= r.q.chain && |Reals(s.q.chain)| <= |Reals(r.q.chain)|
    && s.m.flags <= r.m.flags && r.h.released == s.h.released && r.h.retired == s.h.retired
    && SameRequests(s.h.requests, r.h.requests)
    && r.w.session == s.w.session && r.w.mark == s.w.mark && r.w.regAt == s.w.regAt
  }

  /** The work of other threads: the consumer's own cells stay. */
  ghost predicate Stirred(s: State, r: State) {
    && During(s, r)
    && r.consumer == s.consumer && r.m.tail == s.m.tail && r.m.stubPred == s.m.stubPred
    && r.q.pos == s.q.pos && r.h.delivered == s.h.delivered
    && (Parked(s) ==> Parked(r))
    && (r.w.gapped ==> s.w.gapped || |Reals(s.q.chain)| < |Reals(r.q.chain)|)
    && (SomeLinking(r) ==> SomeLinking(s) || |Reals(s.q.chain)| < |Reals(r.q.chain)|)
  }

  /** A gap met since s: some producer was between its swap and its link in s, or has swapped since. */
  ghost predicate Excused(s: State, r: State) {
    r.w.gapped ==> SomeLinking(s) || |Reals(s.q.chain)| < |Reals(r.q.chain)|
  }

  /** An action of a thread other than the consumer's. */
  predicate Foreign(a: Action) {
    (a.Begin? && a.thread != 0 && a.cause.Woken?) || (a.Move? && a.thread != 0)
  }

  lemma ForeignBegin(s: State, t: nat, n: nat)
    requires t != 0 && t < |s.producers|
    ensures var r := BeginStep(s, t, n, Woken);
      && r.created == s.created && |r.producers| == |s.producers| && At(r.producers, 0) == At(s.producers, 0)
      && s.m.flags <= r.m.flags && r.h.released == s.h.released && r.h.retired == s.h.retired
      && SameRequests(s.h.requests, r.h.requests) && r.h.delivered == s.h.delivered
      && r.m.tail == s.m.tail && r.m.stubPred == s.m.stubPred
      && r.consumer == s.consumer && r.q == s.q && r.w == s.w
      && (SomeLinking(r) ==> SomeLinking(s))
  {
    var r := BeginStep(s, t, n, Woken);
    if SomeLinking(r) {
      var u: nat :| u < |r.producers| && At(r.producers, u).Linking?;
      assert u < |s.producers| && At(s.producers, u).Linking?;
    }
  }

  lemma ForeignMove(s: State, t: nat)
    requires t != 0
    ensures var r := MoveStep(s, t);
      && r.created == s.created && |r.producers| == |s.producers| && At(r.producers, 0) == At(s.producers, 0)
      && r.m.flags == s.m.flags && r.h == s.h && r.m.tail == s.m.tail && r.m.stubPred == s.m.stubPred
      && r.consumer == s.consumer && r.q.pos == s.q.pos
      && r.w.session == s.w.session && r.w.mark == s.w.mark && r.w.regAt == s.w.regAt
      && (r.w.gapped ==> s.w.gapped || At(s.producers, t).Swapping?)
      && (SomeLinking(r) ==> SomeLinking(s) || At(s.producers, t).Swapping?)
  {
    var r := MoveStep(s, t);
    if SomeLinking(r) && !At(s.producers, t).Swapping? {
      var u: nat :| u < |r.producers| && At(r.producers, u).Linking?;
      assert u < |s.producers| && At(s.producers, u).Linking?;
    }
  }

  lemma ForeignStep(s: State, a: Action)
    requires Inv(s) && Foreign(a)
    ensures Inv(Step(s, a)) && Stirred(s, Step(s, a))
  {
    InvStep(s, a);
    var r := Step(s, a);
    if Enabled(s, a) {
      if Parked(s) {
        ParkedStep(s, a);
      }
      if a.Begin? {
        ForeignBegin(s, a.thread, a.node);
      } else {
        ForeignMove(s, a.thread);
        ChainAfterMove(s, a.thread);
      }
      assert r == Apply(s, a);
    }
  }

  lemma StirredTransitive(s: State, m: State, r: State)
    requires Stirred(s, m) && Stirred(m, r)
    ensures Stirred(s, r)
  {
  }

  lemma DequeueFrame(s: State)
    ensures var r := DequeueStep(s);
      && r.created == s.created && r.producers == s.producers && r.m.flags == s.m.flags
      && r.h.released == s.h.released && r.h.retired == s.h.retired && r.h.requests == s.h.requests
      && r.w.session == s.w.session && r.w.mark == s.w.mark && r.w.regAt == s.w.regAt
  {
  }

  lemma DequeueDuring(s: State)
    requires s.consumer.Idle? || Dequeuing(s.consumer)
    ensures During(s, DequeueStep(s))
    ensures Dequeuing(s.consumer) ==> DequeueStep(s).w.gapped == s.w.gapped
  {
    DequeueFrame(s);
    ChainAfterDequeue(s);
  }

  /** What the consumer keeps track of while other threads and its own call change the state it started from. */
  ghost predicate Underway(s0: State, s: State) {
    During(s0, s) && (Dequeuing(s.consumer) ==> Excused(s0, s))
  }

  lemma StirredUnderway(s0: State, s: State, r: State)
    requires Underway(s0, s) && Stirred(s, r)
    ensures Underway(s0, r)
  {
  }

  lemma StepUnderway(s0: State, s: State)
    requires Underway(s0, s) && Inv(s) && Dequeuing(s.consumer)
    ensures Underway(s0, DequeueStep(s)) && Excused(s0, DequeueStep(s))
    ensures Reals(DequeueStep(s).q.chain) == Reals(s.q.chain)
    ensures DequeueStep(s).created == s.created && DequeueStep(s).producers == s.producers
  {
    hide Inv, SomeLinking;
    DequeueFrame(s);
    DequeueDuring(s);
    ChainAfterDequeue(s);
  }

  lemma FirstStepUnderway(s0: State, s: State)
    requires Stirred(s0, s) && Inv(s) && s.consumer.Idle?
    ensures Underway(s0, DequeueStep(s)) && Excused(s0, DequeueStep(s))
    ensures Reals(DequeueStep(s).q.chain) == Reals(s.q.chain)
    ensures DequeueStep(s).created == s.created && DequeueStep(s).producers == s.producers
  {
    hide Inv;
    DequeueFrame(s);
    DequeueDuring(s);
    ChainAfterDequeue(s);
  }

  lemma UnderwayDuring(s0: State, s: State)
    requires Underway(s0, s)
    ensures During(s0, s)
  {
  }

  /** The outcome of a load of the link that leaves the tail. */
  lemma FirstReadEffect(s: State)
    requires Inv(s) && s.consumer.Idle?
    ensures var r := DequeueStep(s); var next := Load(s.m.next, s.m.tail);
      && (s.m.tail == Stub && next == Null ==> r.m == s.m && r.consumer == Idle(Missed) && r.h == s.h)
      && (s.m.tail == Stub && next != Null ==>
            r.m == s.m.(tail := next) && r.consumer == SkippedStub && r.h == s.h && next.Real?)
      && (s.m.tail.Real? && next != Null ==>
            && r.m == s.m.(tail := next) && r.consumer == Holding(s.m.tail.id)
            && r.h == s.h.(delivered := s.h.delivered + [s.m.tail.id]))
      && (s.m.tail.Real? && next == Null ==> r.m == s.m && r.consumer == SawEnd && r.h == s.h)
    ensures s.m.tail != Null
  {
    InvDequeue(s);
  }

  lemma LaterReadEffect(s: State)
    requires Inv(s) && (s.consumer.SkippedStub? || s.consumer.Rechecking?)
    ensures s.m.tail.Real?
    ensures var r := DequeueStep(s); var next := Load(s.m.next, s.m.tail);
      && (next != Null ==>
            && r.m == s.m.(tail := next) && r.consumer == Holding(s.m.tail.id)
            && r.h == s.h.(delivered := s.h.delivered + [s.m.tail.id]))
      && (next == Null ==>
            r.m == s.m && r.h == s.h && r.consumer == if s.consumer.SkippedStub? then SawEnd else Idle(Missed))
  {
  }

  lemma HeadEffect(s: State)
    requires s.consumer.SawEnd?
    ensures DequeueStep(s) == s.(consumer := if s.m.tail != s.m.head then Idle(Missed) else ResettingStub)
  {
  }

  lemma StubEffect(s: State)
    ensures s.consumer.ResettingStub? ==>
      && DequeueStep(s).m == s.m.(next := s.m.next[Stub := Null])
      && DequeueStep(s).consumer == SwappingStub && DequeueStep(s).h == s.h
    ensures s.consumer.SwappingStub? ==>
      && DequeueStep(s).m == s.m.(head := Stub)
      && DequeueStep(s).consumer == LinkingStub(s.m.head) && DequeueStep(s).h == s.h
    ensures s.consumer.LinkingStub? ==>
      DequeueStep(s).m == s.m.(next := s.m.next[s.consumer.pred := Stub], stubPred := s.consumer.pred)
      && DequeueStep(s).consumer == Rechecking && DequeueStep(s).h == s.h
  {
  }

  lemma DequeueIsEnabled(s: State)
    requires s.consumer.Idle? || Dequeuing(s.consumer)
    ensures Step(s, Dequeue) == DequeueStep(s)
  {
  }

  /** A None is excused, or the queue is empty. */
  lemma MissIsExcused(s0: State, s: State)
    requires Inv(s) && s.consumer == Idle(Missed) && Excused(s0, s)
    ensures Waiting(s) == [] || SomeLinking(s0) || |Reals(s0.q.chain)| < |Reals(s.q.chain)|
  {
  }

  // ---------- an enqueue by the consumer's own thread ----------

  /** What an enqueue on this thread changes besides the requests and the queue. */
  ghost predicate Beside(s: State, r: State) {
    && r.created == s.created && |r.producers| == |s.producers|
    && s.q.chain <= r.q.chain && |Reals(s.q.chain)| <= |Reals(r.q.chain)|
    && s.m.flags <= r.m.flags && r.h.released == s.h.released && r.h.retired == s.h.retired
    && r.w.session == s.w.session && r.w.mark == s.w.mark && r.w.regAt == s.w.regAt
    && r.consumer == s.consumer && r.h.delivered == s.h.delivered && r.q.pos == s.q.pos
    && (Parked(s) ==> Parked(r))
  }

  lemma StirredBeside(s0: State, s: State, r: State)
    requires Beside(s0, s) && Stirred(s, r)
    ensures Beside(s0, r) && SameRequests(s.h.requests, r.h.requests) && At(r.producers, 0) == At(s.producers, 0)
    ensures s.m.flags <= r.m.flags
  {
  }

  lemma OwnBegin(s0: State, s: State, n: nat, cause: Cause)
    requires Stirred(s0, s) && Inv(s) && Enabled(s, Begin(0, n, cause))
    ensures var r := Step(s, Begin(0, n, cause));
      && Beside(s0, r) && r.h.requests == s.h.requests + [Request(n, cause)] && n in r.m.flags
      && (n in s.m.flags ==> r.m == s.m && r.producers == s.producers)
      && (n !in s.m.flags ==> r.m == s.m.(flags := s.m.flags + {n}) && r.producers == s.producers[0 := Entry(n, cause)])
      && r.created == s.created && r.q == s.q && r.consumer == s.consumer
  {
    if Parked(s) {
      ParkedBegin(s, 0, n, cause);
    }
  }

  lemma OwnMove(s0: State, s: State)
    requires Beside(s0, s) && Inv(s)
    ensures var r := Step(s, Move(0));
      && Beside(s0, r) && r.h.requests == s.h.requests && r.created == s.created
      && r.consumer == s.consumer && r.m.flags == s.m.flags
      && Reals(r.q.chain) == Reals(s.q.chain) + SwappedBy(s, Move(0))
  {
    ChainAfterMove(s, 0);
    if Parked(s) {
      ParkedMove(s, 0);
    }
    OwnMoveFrame(s);
  }

  lemma OwnMoveFrame(s: State)
    ensures var r := MoveStep(s, 0);
      && |r.producers| == |s.producers| && r.m.flags == s.m.flags && r.h == s.h
      && r.w.session == s.w.session && r.w.mark == s.w.mark && r.w.regAt == s.w.regAt
      && r.consumer == s.consumer && r.q.pos == s.q.pos && r.created == s.created
  {
  }

  lemma OwnMoveEffect(s: State)
    requires 0 < |s.producers|
    ensures var r := Step(s, Move(0)); match At(s.producers, 0)
      case Out => r == s
      case Upgrading(n) => r.m == s.m && r.producers == s.producers[0 := Resetting(n)]
      case Resetting(n) =>
        r.m == s.m.(next := s.m.next[Real(n) := Null]) && r.producers == s.producers[0 := Swapping(n)]
      case Swapping(n) => r.m == s.m.(head := Real(n)) && r.producers == s.producers[0 := Linking(n, s.m.head)]
      case Linking(n, pred) =>
        r.m == s.m.(next := s.m.next[pred := Real(n)]) && r.producers == s.producers[0 := Waking(n)]
      case Waking(_) => r.m == s.m.(waker := None) && r.producers == s.producers[0 := Out]
  {
  }

  // ---------- the end of a delivery ----------

  /** `into_inner` after other threads ran. */
  ghost predicate Settled(s: State, r: State) {
    && r.created == s.created && |r.producers| == |s.producers| && At(r.producers, 0) == At(s.producers, 0)
    && s.q.chain <= r.q.chain && |Reals(s.q.chain)| <= |Reals(r.q.chain)|
    && SameRequests(s.h.requests, r.h.requests) && r.h.delivered == s.h.delivered
    && r.w.session == s.w.session && r.w.mark == s.w.mark && r.w.regAt == s.w.regAt
  }

  lemma StirredKeeps(s: State, r: State)
    requires Stirred(s, r)
    ensures r.created == s.created && At(r.producers, 0) == At(s.producers, 0)
    ensures SameRequests(s.h.requests, r.h.requests)
  {
  }
}
