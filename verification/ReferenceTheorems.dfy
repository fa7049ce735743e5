/** What reference counting promises, for every run of any number of threads. */
module ReferenceTheorems {
  import opened Wrappers
  import opened Protocol
  import opened ProtocolRuns
  import opened ProtocolWakeups
  import opened References
  import opened ReferenceSteps

  // ---------- every step, every run ----------

  /** Every step keeps the counts right, upgrades that fail included. */
  lemma RefInvStep(c: Counts, a: RefAction)
    requires RefInv(c)
    ensures RefInv(RefStep(c, a))
  {
    hide RefInv, RefApply, RefEnabled;
    if RefEnabled(c, a) {
      match a
      case Push => PushKeeps(c);
      case Clone(n) => CloneKeeps(c, n);
      case Drop(n) => DropKeeps(c, n);
      case Discard(n) => DiscardKeeps(c, n);
      case Wake(t, n) => WakeKeeps(c, t, n);
      case WakeByRef(t, n) => WakeByRefKeeps(c, t, n);
      case Upgrade(t) => UpgradeKeeps(c, t);
      case CloneNode(t) => CloneNodeKeeps(c, t);
      case Move(t) => MoveOnKeeps(c, t);
      case Leave(t) => LeaveKeeps(c, t);
      case Requeue => RequeueKeeps(c);
      case Finish => FinishKeeps(c);
      case Consume(b) => ConsumeKeeps(c, b);
      case Release => ReleaseKeeps(c);
      case Retire => RetireKeeps(c);
      case DropReceiver => DropReceiverKeeps(c);
    }
  }

  lemma UpgradeKeeps(c: Counts, t: nat)
    requires RefInv(c) && RefEnabled(c, Upgrade(t))
    ensures RefInv(RefApply(c, Upgrade(t)))
  {
    hide RefInv, RefApply, RefEnabled;
    if c.owners > 0 {
      UpgradeSucceeds(c, t);
    } else {
      UpgradeFails(c, t);
    }
  }

  lemma StartIsRight(threads: nat)
    ensures RefInv(Start(threads))
  {
    hide Inv;
    var c := Start(threads);
    InvInit(threads);
    NobodyHolds(c.phases);
    assert forall t: nat :: Phases(c, t) == Outside && At(c.s.producers, t) == Out;
    assert forall n: nat :: !Shared(c, n);
  }

  lemma {:induction false} NobodyHolds(phases: seq<Phase>)
    requires forall t :: 0 <= t < |phases| ==> !Holds(phases[t])
    ensures Holders(phases) == 0
  {
    if phases != [] {
      NobodyHolds(phases[..|phases| - 1]);
    }
  }

  lemma {:induction false} RefInvExec(c: Counts, run: seq<RefAction>)
    requires RefInv(c)
    ensures RefInv(RefExec(c, run))
    decreases |run|
  {
    hide RefInv;
    if run != [] {
      RefInvStep(c, run[0]);
      RefInvExec(RefStep(c, run[0]), run[1..]);
    }
  }

  /** Conservation holds throughout every run of any number of threads. */
  lemma RunConserves(threads: nat, run: seq<RefAction>)
    ensures var c := RefExec(Start(threads), run);
      && (forall n: nat :: c.strong[n] == Owned(c, n) + if Shared(c, n) then 1 else 0)
      && c.owners == Holders(c.phases) + if c.receiver then 1 else 0
  {
    hide Inv, Aligned, Loans, Shared, Owned;
    StartIsRight(threads);
    RefInvExec(Start(threads), run);
  }

  /** The step drops the queue. */
  ghost predicate Closes(c: Counts, a: RefAction) {
    !c.closed && RefStep(c, a).closed
  }

  /**
   The queue is dropped exactly when the count of its references gets to zero, and then no thread is in
   `enqueue_inner`, nor about to clone a node or to drop the queue, and the consumer is not in a call.
   */
  lemma QueueDropsAtRest(threads: nat, run: seq<RefAction>, a: RefAction)
    ensures var c := RefExec(Start(threads), run);
      && (Closes(c, a) <==> c.owners > 0 && RefStep(c, a).owners == 0)
      && (Closes(c, a) ==> AtRest(c.s) && Inv(c.s) && c.local.None?)
      && (Closes(c, a) ==> forall t: nat :: Phases(RefStep(c, a), t).Outside? || Phases(RefStep(c, a), t).Swapped?)
  {
    hide RefInv, RefStep;
    var c := RefExec(Start(threads), run);
    StartIsRight(threads);
    RefInvExec(Start(threads), run);
    RefInvStep(c, a);
    IsOpen(c);
    IsOpen(RefStep(c, a));
    if Closes(c, a) {
      ClosesAtRest(c, a);
    }
  }

  lemma ClosesAtRest(c: Counts, a: RefAction)
    requires RefInv(c) && Closes(c, a)
    ensures AtRest(c.s) && Inv(c.s) && c.local.None? && RefStep(c, a).strong == c.strong - multiset(Waiting(c.s))
    ensures c.s.q.pos <= |c.s.q.chain|
    ensures forall t: nat :: Phases(RefStep(c, a), t).Outside? || Phases(RefStep(c, a), t).Swapped?
  {
    hide Inv, Surplus, Apply, MoveStep, BeginStep, AtRest, Waiting;
    OnlyLetGoCloses(c, a);
    if a.Leave? {
      LeaveSurplus(c, a.thread);
      LetGoAtRest(c.(phases := c.phases[a.thread := Outside]));
    } else {
      DropReceiverSurplus(c);
      LetGoAtRest(c.(receiver := false));
    }
  }

  lemma OnlyLetGoCloses(c: Counts, a: RefAction)
    requires Closes(c, a)
    ensures RefEnabled(c, a) && (a.Leave? || a.DropReceiver?)
  {
    hide Apply, MoveStep, BeginStep;
  }

  lemma LetGoAtRest(c: Counts)
    requires Surplus(c) && LetGo(c).closed
    ensures AtRest(c.s) && Inv(c.s) && c.local.None? && LetGo(c).strong == c.strong - multiset(Waiting(c.s))
    ensures c.s.q.pos <= |c.s.q.chain|
    ensures forall t: nat :: Phases(LetGo(c), t).Outside? || Phases(LetGo(c), t).Swapped?
  {
    hide Inv, Conserved, Loans, AtRest;
    LastOwnerIsAlone(c);
    WaitingOnce(c.s, 0);
    assert forall t: nat :: Phases(LetGo(c), t) == Phases(c, t);
  }

  // ---------- what the counts give ----------

  /** A raw pointer that the next step of some thread dereferences. */
  ghost predicate Dereferenced(c: Counts, p: Ptr) {
    || (c.receiver && (p == c.s.m.tail || (c.s.consumer.LinkingStub? && p == c.s.consumer.pred)))
    || (c.receiver && c.s.consumer.Holding? && p == Real(c.s.consumer.node))
    || (exists t: nat :: Phases(c, t).Inside? && FollowedBy(At(c.s.producers, t), p))
  }

  predicate FollowedBy(q: Producer, p: Ptr) {
    (q.Resetting? && p == Real(q.node)) || (q.Linking? && p == q.pred)
  }

  lemma FollowedIsHeld(s: State, t: nat, p: Ptr)
    requires Inv(s) && FollowedBy(At(s.producers, t), p)
    ensures p == Stub || (p.Real? && p.id in s.m.flags && p.id !in s.h.retired)
    ensures p.Real? ==> forall u: nat :: At(s.producers, u) != Upgrading(p.id)
  {
    hide Links, Pcs, Delivered, Gaps, Wakes, Reasons;
    if At(s.producers, t).Linking? {
      StoresDoNotClobber(s, t);
    } else {
      assert PreSwap(At(s.producers, t));
    }
    forall u: nat | p.Real?
      ensures At(s.producers, u) != Upgrading(p.id)
    {
      if At(s.producers, u) == Upgrading(p.id) {
        CarriedIsApart(s, u, p.id);
      }
    }
  }

  lemma ConsumerPointerIsHeld(s: State, p: Ptr)
    requires Inv(s)
    requires
      || p == s.m.tail
      || (s.consumer.LinkingStub? && p == s.consumer.pred)
      || (s.consumer.Holding? && p == Real(s.consumer.node))
    ensures p == Stub || (p.Real? && p.id in s.m.flags && p.id !in s.h.retired)
    ensures p.Real? ==> forall u: nat :: At(s.producers, u) != Upgrading(p.id)
  {
    hide Links, Pcs, Delivered, Gaps, Wakes, Reasons;
    if s.consumer.LinkingStub? && p == s.consumer.pred {
      var at := s.q.last[Stub];
      assert s.q.last[s.q.chain[at - 1]] == at - 1;
    }
    assert p == s.m.tail ==> p != Null && Queued(s, p);
    forall u: nat | p.Real?
      ensures At(s.producers, u) != Upgrading(p.id)
    {
      if At(s.producers, u) == Upgrading(p.id) {
        CarriedIsApart(s, u, p.id);
      }
    }
  }

  /** A node that is in the queue's or an enqueueing thread's hands, and not lent, has a reference. */
  lemma HeldIsLive(c: Counts, n: nat)
    requires RefInv(c) && !c.closed && n in c.s.m.flags && n !in c.s.h.retired
    requires forall t: nat :: At(c.s.producers, t) != Upgrading(n)
    ensures c.strong[n] > 0
  {
    hide Inv, Counted;
    LentIsBorrowed(c, n);
    assert forall t: nat :: Agrees(Phases(c, t), At(c.s.producers, t));
  }

  /**
   No dangling pointer: whatever raw pointer a thread is about to follow, the queue is there, and with it the stub;
   and if it leads to a node, that node has a reference left.
   */
  lemma PointersAreLive(c: Counts, p: Ptr)
    requires RefInv(c) && Dereferenced(c, p)
    ensures c.owners > 0 && !c.closed && (p == Stub || (p.Real? && c.strong[p.id] > 0))
  {
    hide RefInv, Inv;
    IsOpen(c);
    if t: nat :| Phases(c, t).Inside? && FollowedBy(At(c.s.producers, t), p) {
      InsideKeepsTheQueue(c, t);
      InvOf(c);
      FollowedIsHeld(c.s, t, p);
    } else {
      InvOf(c);
      ConsumerPointerIsHeld(c.s, p);
    }
    if p.Real? {
      HeldIsLive(c, p.id);
    }
  }

  lemma InvOf(c: Counts)
    requires RefInv(c) && !c.closed
    ensures Inv(c.s)
  {
  }

  /** The node that a thread is about to upgrade from, or to clone, is there. */
  lemma BorrowedIsLive(c: Counts, t: nat, n: nat)
    requires RefInv(c) && Pending(Phases(c, t), n)
    ensures c.strong[n] > 0
  {
    hide Inv, Aligned, Counted;
    if Borrows(Phases(c, t), n) {
      assert Owned(c, n) > 0;
    } else {
      PendingIsShared(c, t, n);
    }
  }

  lemma PendingIsShared(c: Counts, t: nat, n: nat)
    requires RefInv(c) && Phases(c, t) == Swapped(n, true)
    ensures Shared(c, n)
  {
    hide Inv;
    PendingFacts(c, t, n);
    LentIsBorrowed(c, n);
    assert Pending(Phases(c, t), n);
    assert forall u: nat :: Borrows(Phases(c, u), n) ==> Pending(Phases(c, u), n);
    assert t < |c.phases| && c.phases[t] == Swapped(n, true);
  }

  /**
   A node that is stored, held by an id or a waker, or queued, on its way or just dequeued while the queue is there, is
   not freed.
   */
  lemma ReferencedIsLive(c: Counts, n: nat)
    requires RefInv(c)
    requires Owned(c, n) > 0
          || (!c.closed && (Queued(c.s, Real(n)) || Carried(c.s, n) || c.s.consumer == Holding(n)))
    ensures c.strong[n] > 0
  {
    hide RefInv, Inv;
    OwnedIsCounted(c, n);
    if Owned(c, n) == 0 {
      NotLent(c, n);
      InvOf(c);
      FlaggedIsSomewhere(c.s, n);
      SharedCounts(c, n);
    }
  }

  lemma NotLent(c: Counts, n: nat)
    requires RefInv(c) && Owned(c, n) == 0
    ensures !Lent(c, n)
  {
    hide Inv, Conserved, Counted, Aligned;
    LentIsBorrowed(c, n);
  }

  lemma SharedCounts(c: Counts, n: nat)
    requires RefInv(c)
    ensures c.strong[n] == Owned(c, n) + if Shared(c, n) then 1 else 0
  {
    hide Inv;
  }

  /**
   A node without owners, such as that of a removed task whose id and wakers are gone, is freed exactly when
   the queue and the enqueueing threads are done with it.
   */
  lemma UnreferencedIsFreed(c: Counts, n: nat)
    requires RefInv(c) && Owned(c, n) == 0
    ensures !c.closed ==>
      (c.strong[n] == 0 <==> !(Queued(c.s, Real(n)) || Carried(c.s, n) || c.s.consumer == Holding(n)))
    ensures c.closed ==> (c.strong[n] == 0 <==> forall t: nat :: Phases(c, t) != Swapped(n, true))
  {
    hide RefInv, Inv, Lent;
    NotLent(c, n);
    SharedCounts(c, n);
    if !c.closed {
      InvOf(c);
      FlaggedIsSomewhere(c.s, n);
    } else {
      forall t: nat | Phases(c, t) == Swapped(n, true)
        ensures Shared(c, n)
      {
        PendingIsShared(c, t, n);
      }
      assert Shared(c, n) ==> exists t: nat :: Phases(c, t) == Swapped(n, true) by {
        if Shared(c, n) {
          var t :| 0 <= t < |c.phases| && c.phases[t] == Swapped(n, true);
          assert Phases(c, t) == Swapped(n, true);
        }
      }
    }
  }

  /** A wake enqueues a node, its task gone or not, unless its flag is set or the queue was dropped. */
  lemma WakeEntersUnless(c: Counts, t: nat, n: nat)
    requires RefInv(c) && RefEnabled(c, WakeByRef(t, n))
    ensures var d := RefStep(RefStep(c, WakeByRef(t, n)), Upgrade(t));
      Phases(d, t).Outside? <==> n in c.s.m.flags || c.closed
  {
    hide Inv, MoveStep, Conserved;
  }

  // ---------- freed for good ----------

  /** References to a node are made only when it is created, and by whoever has one or borrows one. */
  lemma FreedStep(c: Counts, a: RefAction, n: nat)
    requires RefInv(c) && n < c.s.created && c.strong[n] == 0
    ensures RefStep(c, a).strong[n] == 0 && n < RefStep(c, a).s.created
  {
    hide RefInv, RefApply, RefEnabled;
    if RefEnabled(c, a) {
      if a.Push? {
        PushMakesNone(c, n);
      } else if a.Wake? || a.WakeByRef? || a.Requeue? {
        SwapsMakeNone(c, a, n);
      } else if a.Upgrade? || a.CloneNode? || a.Move? {
        ThreadsMakeNone(c, a, n);
      } else {
        OthersMakeNone(c, a, n);
      }
    }
  }

  lemma SwapsMakeNone(c: Counts, a: RefAction, n: nat)
    requires n < c.s.created && c.strong[n] == 0 && RefEnabled(c, a) && (a.Wake? || a.WakeByRef? || a.Requeue?)
    ensures RefApply(c, a).strong[n] == 0 && n < RefApply(c, a).s.created
  {
    hide Lent, Given, Swap;
    match a
    case Wake(t, m) => SwapMakesNone(c.(handles := c.handles - multiset{m}), t, m, Woken, Swapped(m, true), n);
    case WakeByRef(t, m) => SwapMakesNone(c, t, m, Woken, Swapped(m, false), n);
    case Requeue => GivenMakesNone(c.(local := None), c.local.value, Continued, n);
  }

  lemma ThreadsMakeNone(c: Counts, a: RefAction, n: nat)
    requires RefInv(c) && n < c.s.created && c.strong[n] == 0
    requires RefEnabled(c, a) && (a.Upgrade? || a.CloneNode? || a.Move?)
    ensures RefApply(c, a).strong[n] == 0 && n < RefApply(c, a).s.created
  {
    hide RefInv, MoveStep;
    MoveEffect(c.s, a.thread);
    if a.CloneNode? {
      assert Pending(Phases(c, a.thread), c.phases[a.thread].node);
      BorrowedIsLive(c, a.thread, c.phases[a.thread].node);
    }
  }

  lemma OthersMakeNone(c: Counts, a: RefAction, n: nat)
    requires RefInv(c) && n < c.s.created && c.strong[n] == 0 && RefEnabled(c, a)
    requires !a.Push? && !a.Wake? && !a.WakeByRef? && !a.Requeue? && !a.Upgrade? && !a.CloneNode? && !a.Move?
    ensures RefApply(c, a).strong[n] == 0 && n < RefApply(c, a).s.created
  {
    hide RefInv, Apply, LetGo, Lent;
    OwnedIsCounted(c, n);
    match a
    case Leave(t) => LetGoMakesNone(c.(phases := c.phases[t := Outside]), n);
    case DropReceiver => LetGoMakesNone(c.(receiver := false), n);
    case Consume(b) => Unchanged(c.s, b);
    case _ =>
  }

  lemma SwapMakesNone(c: Counts, t: nat, m: nat, cause: Cause, p: Phase, n: nat)
    requires t < |c.phases| == |c.s.producers|
    ensures Swap(c, t, m, cause, p).strong == c.strong && Swap(c, t, m, cause, p).s.created == c.s.created
  {
  }

  lemma GivenMakesNone(c: Counts, m: nat, cause: Cause, n: nat)
    requires 0 < |c.phases| == |c.s.producers|
    ensures Given(c, m, cause).strong[n] <= c.strong[n] && Given(c, m, cause).s.created == c.s.created
  {
  }

  lemma PushMakesNone(c: Counts, n: nat)
    requires RefEnabled(c, Push) && n < c.s.created && c.strong[n] == 0
    ensures RefApply(c, Push).strong[n] == 0 && n < RefApply(c, Push).s.created
  {
    hide Given;
    var m := c.s.created;
    GivenMakesNone(c.(s := c.s.(created := m + 1), strong := c.strong + multiset{m, m}, stored := c.stored + {m}), m,
                   Pushed, n);
  }

  lemma LetGoMakesNone(c: Counts, n: nat)
    ensures LetGo(c).strong[n] <= c.strong[n] && LetGo(c).s == c.s
  {
  }

  /** A freed node is freed for good. */
  lemma {:induction false} FreedStaysFreed(c: Counts, run: seq<RefAction>, n: nat)
    requires RefInv(c) && n < c.s.created && c.strong[n] == 0
    ensures RefExec(c, run).strong[n] == 0
    decreases |run|
  {
    hide RefStep, RefInv;
    if run != [] {
      FreedStep(c, run[0], n);
      RefInvStep(c, run[0]);
      FreedStaysFreed(RefStep(c, run[0]), run[1..], n);
    }
  }
}
