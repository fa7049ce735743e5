/** Every step of the reference counts keeps their invariant. */
module ReferenceSteps {
  import opened Protocol
  import opened ProtocolRuns
  import opened ProtocolTheorems
  import opened ProtocolWakeups
  import opened References

  // ---------- one thread changes its phase ----------

  lemma PhasesAfter(c: Counts, d: Counts, t: nat, p: Phase)
    requires t < |c.phases| && d.phases == c.phases[t := p]
    ensures forall u: nat :: Phases(d, u) == if u == t then p else Phases(c, u)
  {
  }

  lemma LentIsBorrowed(c: Counts, n: nat)
    ensures Lent(c, n) <==> exists t: nat :: Borrows(Phases(c, t), n)
  {
    if t: nat :| Borrows(Phases(c, t), n) {
      assert t < |c.phases| && Borrows(c.phases[t], n);
    }
    if Lent(c, n) {
      var t :| 0 <= t < |c.phases| && Borrows(c.phases[t], n);
      assert Borrows(Phases(c, t), n);
    }
  }

  lemma LentAfter(c: Counts, d: Counts, t: nat, p: Phase, n: nat)
    requires Loans(c) && t < |c.phases| && d.phases == c.phases[t := p]
    ensures Lent(d, n) <==> Borrows(p, n) || (Lent(c, n) && !Borrows(c.phases[t], n))
  {
    PhasesAfter(c, d, t, p);
    LentIsBorrowed(c, n);
    LentIsBorrowed(d, n);
    if u: nat :| Borrows(Phases(c, u), n) && !Borrows(c.phases[t], n) {
      assert Borrows(Phases(d, u), n);
    }
    if u: nat :| Borrows(Phases(d, u), n) && !Borrows(p, n) {
      assert u != t && Pending(Phases(c, u), n);
      assert Borrows(c.phases[t], n) ==> Pending(Phases(c, t), n);
    }
    if Borrows(p, n) {
      assert Borrows(Phases(d, t), n);
    }
  }

  lemma LentFrame(c: Counts, d: Counts)
    requires d.phases == c.phases
    ensures forall n: nat :: Lent(d, n) == Lent(c, n)
  {
  }

  lemma {:induction false} HoldersAfter(phases: seq<Phase>, t: nat, p: Phase)
    requires t < |phases|
    ensures Holders(phases[t := p]) + (if Holds(phases[t]) then 1 else 0) == Holders(phases) + if Holds(p) then 1 else 0
  {
    var n := |phases| - 1;
    var rest := phases[..n];
    if t == n {
      assert phases[t := p][..n] == rest;
    } else {
      HoldersAfter(rest, t, p);
      assert phases[t := p][..n] == rest[t := p];
    }
  }

  lemma {:induction false} HolderCounts(phases: seq<Phase>, t: nat)
    requires t < |phases| && Holds(phases[t])
    ensures Holders(phases) > 0
  {
    if t < |phases| - 1 {
      HolderCounts(phases[..|phases| - 1], t);
    }
  }

  // ---------- steps that leave the phases alone ----------

  /** The state but for the references: which thread is where, and who has the queue. */
  ghost predicate SameThreads(c: Counts, d: Counts) {
    && d.s == c.s && d.phases == c.phases && d.owners == c.owners && d.receiver == c.receiver && d.closed == c.closed
    && (c.local.None? ==> d.local.None?)
  }

  /** One reference to node n more or less. */
  ghost predicate Differ(c: Counts, d: Counts, n: nat, more: int) {
    && d.strong[n] == c.strong[n] + more && Owned(d, n) == Owned(c, n) + more
    && (forall m: nat :: m != n ==> d.strong[m] == c.strong[m] && Owned(d, m) == Owned(c, m))
  }

  lemma DifferKeeps(c: Counts, d: Counts, n: nat, more: int)
    requires RefInv(c) && SameThreads(c, d) && Differ(c, d, n, more)
    requires (more == 1 && Owned(c, n) > 0) || (more == -1 && Spare(c, n))
    ensures RefInv(d)
  {
    hide Inv, Owned;
    LentFrame(c, d);
    assert forall t: nat :: Phases(d, t) == Phases(c, t);
    forall m: nat
      ensures Shared(d, m) == Shared(c, m)
    {
    }
    forall t: nat, m: nat | Borrows(Phases(d, t), m)
      ensures Owned(d, m) > 0
    {
      LentIsBorrowed(c, m);
      assert Borrows(Phases(c, t), m) && Lent(c, m);
    }
  }

  lemma CloneKeeps(c: Counts, n: nat)
    requires RefInv(c) && RefEnabled(c, Clone(n))
    ensures RefInv(RefApply(c, Clone(n)))
  {
    hide RefInv, Lent;
    DifferKeeps(c, RefApply(c, Clone(n)), n, 1);
  }

  lemma DropKeeps(c: Counts, n: nat)
    requires RefInv(c) && RefEnabled(c, Drop(n))
    ensures RefInv(RefApply(c, Drop(n)))
  {
    hide RefInv, Lent;
    OwnedIsCounted(c, n);
    DifferKeeps(c, RefApply(c, Drop(n)), n, -1);
  }

  lemma DiscardKeeps(c: Counts, n: nat)
    requires RefInv(c) && RefEnabled(c, Discard(n))
    ensures RefInv(RefApply(c, Discard(n)))
  {
    hide RefInv, Lent;
    OwnedIsCounted(c, n);
    DifferKeeps(c, RefApply(c, Discard(n)), n, -1);
  }

  lemma FinishKeeps(c: Counts)
    requires RefInv(c) && RefEnabled(c, Finish)
    ensures RefInv(RefApply(c, Finish))
  {
    hide RefInv, Lent;
    OwnedIsCounted(c, c.local.value);
    DifferKeeps(c, RefApply(c, Finish), c.local.value, -1);
  }

  lemma OwnedIsCounted(c: Counts, n: nat)
    requires RefInv(c)
    ensures c.strong[n] >= Owned(c, n)
  {
    hide Inv, Aligned, Loans, Counted;
  }

  lemma Unchanged(s: State, a: Action)
    requires Enabled(s, a) && (a.Register? || a.LoadHead? || a.Dequeue?)
    ensures var r := Apply(s, a);
      r.m.flags == s.m.flags && r.h.retired == s.h.retired && r.created == s.created && r.producers == s.producers
  {
  }

  lemma ConsumeKeeps(c: Counts, a: Action)
    requires RefInv(c) && RefEnabled(c, Consume(a))
    ensures RefInv(RefApply(c, Consume(a)))
  {
    hide Inv, Apply, Enabled;
    var d := RefApply(c, Consume(a));
    InvStep(c.s, a);
    Unchanged(c.s, a);
    LentFrame(c, d);
    assert forall n: nat :: Shared(d, n) == Shared(c, n) && Owned(d, n) == Owned(c, n);
    assert forall t: nat :: Phases(d, t) == Phases(c, t);
  }

  // ---------- the swap of the flag ----------

  lemma AskedInVain(c: Counts, t: nat, n: nat, cause: Cause)
    requires RefInv(c) && t < |c.phases| && c.phases[t].Outside? && n < c.s.created && n in c.s.m.flags
    ensures RefInv(c.(s := BeginStep(c.s, t, n, cause)))
  {
    hide Inv;
    var d := c.(s := BeginStep(c.s, t, n, cause));
    assert Agrees(Phases(c, t), At(c.s.producers, t));
    if !c.closed {
      InvStep(c.s, Begin(t, n, cause));
    }
    LentFrame(c, d);
    assert forall m: nat :: Shared(d, m) == Shared(c, m) && Owned(d, m) == Owned(c, m);
    assert forall u: nat :: Phases(d, u) == Phases(c, u);
  }

  /** Thread t is the one that sets the flag. */
  ghost predicate Won(c: Counts, d: Counts, t: nat, n: nat, cause: Cause, p: Phase) {
    && t < |c.phases| == |c.s.producers| && c.phases[t].Outside? && n < c.s.created && n !in c.s.m.flags
    && d.s == BeginStep(c.s, t, n, cause) && d.phases == c.phases[t := p]
    && d.owners == c.owners && d.receiver == c.receiver && d.closed == c.closed && (c.local.None? ==> d.local.None?)
    && (if cause.Woken? then p.Swapped? && p.node == n else p == Inside(false) && t == 0 && c.receiver)
  }

  lemma WonShared(c: Counts, d: Counts, t: nat, n: nat, cause: Cause, p: Phase, m: nat)
    requires (!c.closed ==> c.s.h.retired <= c.s.m.flags) && Aligned(c)
    requires Loans(c) && Counted(c) && Won(c, d, t, n, cause, p)
    ensures Shared(d, m) == if m == n then !Borrows(p, n) else Shared(c, m)
  {
    LentAfter(c, d, t, p, m);
    LentIsBorrowed(c, m);
    PhasesAfter(c, d, t, p);
    if c.closed {
      SwappedAfter(c, d, t, p, m);
      SharedIsFlagged(c, n);
    }
  }

  lemma SharedIsFlagged(c: Counts, n: nat)
    requires Loans(c)
    ensures Shared(c, n) ==> n in c.s.m.flags
  {
    if c.closed && Shared(c, n) {
      var u :| 0 <= u < |c.phases| && c.phases[u] == Swapped(n, true);
      assert Pending(Phases(c, u), n);
    }
  }

  lemma SwappedAfter(c: Counts, d: Counts, t: nat, p: Phase, n: nat)
    requires Loans(c) && t < |c.phases| && d.phases == c.phases[t := p] && c.closed && d.closed
    ensures Shared(d, n) <==> p == Swapped(n, true) || (Shared(c, n) && c.phases[t] != Swapped(n, true))
  {
    PhasesAfter(c, d, t, p);
    if Shared(d, n) {
      var u :| 0 <= u < |d.phases| && d.phases[u] == Swapped(n, true);
      assert u != t ==> c.phases[u] == Swapped(n, true) && Pending(Phases(c, u), n);
      assert c.phases[t] == Swapped(n, true) ==> Pending(Phases(c, t), n);
    }
    if Shared(c, n) && c.phases[t] != Swapped(n, true) {
      var u :| 0 <= u < |c.phases| && c.phases[u] == Swapped(n, true);
      assert d.phases[u] == Swapped(n, true);
    }
    if p == Swapped(n, true) {
      assert d.phases[t] == Swapped(n, true);
    }
  }

  lemma WonKeeps(c: Counts, d: Counts, t: nat, n: nat, cause: Cause, p: Phase)
    requires RefInv(c) && Won(c, d, t, n, cause, p)
    requires forall m: nat :: m != n ==> d.strong[m] == c.strong[m] && Owned(d, m) == Owned(c, m)
    requires d.strong[n] == Owned(d, n) + if Borrows(p, n) then 0 else 1
    requires Borrows(p, n) ==> Owned(d, n) > 0
    ensures RefInv(d)
  {
    hide Inv, Shared, Owned;
    assert Agrees(Phases(c, t), At(c.s.producers, t));
    if !c.closed {
      RetiredIsFlagged(c.s);
      InvStep(c.s, Begin(t, n, cause));
    }
    forall m: nat
      ensures d.strong[m] == Owned(d, m) + if Shared(d, m) then 1 else 0
    {
      WonShared(c, d, t, n, cause, p, m);
    }
    HoldersAfter(c.phases, t, p);
    WonAligned(c, d, t, n, cause, p);
    WonLoans(c, d, t, n, cause, p);
  }

  lemma RetiredIsFlagged(s: State)
    requires Inv(s)
    ensures s.h.retired <= s.m.flags
  {
  }

  lemma WonAligned(c: Counts, d: Counts, t: nat, n: nat, cause: Cause, p: Phase)
    requires Aligned(c) && Won(c, d, t, n, cause, p)
    requires forall m: nat :: m != n ==> Owned(d, m) == Owned(c, m)
    ensures Aligned(d)
  {
    PhasesAfter(c, d, t, p);
    forall u: nat
      ensures Agrees(Phases(d, u), At(d.s.producers, u))
    {
      assert Agrees(Phases(c, u), At(c.s.producers, u));
    }
  }

  lemma WonLoans(c: Counts, d: Counts, t: nat, n: nat, cause: Cause, p: Phase)
    requires Loans(c) && Won(c, d, t, n, cause, p)
    requires forall m: nat :: m != n ==> Owned(d, m) == Owned(c, m)
    requires Borrows(p, n) ==> Owned(d, n) > 0
    ensures Loans(d)
  {
    PhasesAfter(c, d, t, p);
    assert forall u: nat :: !Pending(Phases(c, u), n);
    forall u: nat, m: nat | Borrows(Phases(d, u), m)
      ensures Owned(d, m) > 0
    {
      if u != t {
        assert Borrows(Phases(c, u), m) && Pending(Phases(c, u), m);
      }
    }
  }

  /** A thread gives up a reference of its own because the flag was set. */
  lemma GivenInVain(c: Counts, d: Counts, t: nat, n: nat, cause: Cause)
    requires RefInv(c) && t < |c.phases| == |c.s.producers| && c.phases[t].Outside?
    requires n < c.s.created && n in c.s.m.flags && Spare(c, n)
    requires SameThreads(c.(s := BeginStep(c.s, t, n, cause)), d) && Differ(c, d, n, -1)
    ensures RefInv(d)
  {
    hide RefInv, Lent, BeginStep;
    AskedInVain(c, t, n, cause);
    var e := c.(s := BeginStep(c.s, t, n, cause));
    LentFrame(c, e);
    assert forall m: nat :: Owned(e, m) == Owned(c, m);
    DifferKeeps(e, d, n, -1);
  }

  lemma WakeLost(c: Counts, t: nat, n: nat)
    requires RefInv(c) && RefEnabled(c, Wake(t, n)) && n in c.s.m.flags
    ensures RefInv(RefApply(c, Wake(t, n)))
  {
    hide RefInv, Lent, BeginStep;
    OwnedIsCounted(c, n);
    GivenInVain(c, RefApply(c, Wake(t, n)), t, n, Woken);
  }

  lemma WakeWon(c: Counts, t: nat, n: nat)
    requires RefInv(c) && RefEnabled(c, Wake(t, n)) && n !in c.s.m.flags
    ensures RefInv(RefApply(c, Wake(t, n)))
  {
    hide RefInv, Lent, BeginStep;
    NotShared(c, n);
    WonKeeps(c, RefApply(c, Wake(t, n)), t, n, Woken, Swapped(n, true));
  }

  lemma WakeKeeps(c: Counts, t: nat, n: nat)
    requires RefInv(c) && RefEnabled(c, Wake(t, n))
    ensures RefInv(RefApply(c, Wake(t, n)))
  {
    hide RefInv, RefApply, RefEnabled;
    if n in c.s.m.flags {
      WakeLost(c, t, n);
    } else {
      WakeWon(c, t, n);
    }
  }

  /** A node whose flag is clear has no reference but its owners'. */
  lemma NotShared(c: Counts, n: nat)
    requires RefInv(c) && n !in c.s.m.flags
    ensures c.strong[n] == Owned(c, n)
  {
    hide Inv, Aligned, Counted;
    SharedIsFlagged(c, n);
  }

  lemma WakeByRefKeeps(c: Counts, t: nat, n: nat)
    requires RefInv(c) && RefEnabled(c, WakeByRef(t, n))
    ensures RefInv(RefApply(c, WakeByRef(t, n)))
  {
    hide RefInv, Lent, BeginStep;
    if n in c.s.m.flags {
      AskedInVain(c, t, n, Woken);
    } else {
      NotShared(c, n);
      WonKeeps(c, RefApply(c, WakeByRef(t, n)), t, n, Woken, Swapped(n, false));
    }
  }

  lemma RequeueKeeps(c: Counts)
    requires RefInv(c) && RefEnabled(c, Requeue)
    ensures RefInv(RefApply(c, Requeue))
  {
    hide RefInv, Lent, BeginStep;
    var n := c.local.value;
    OwnedIsCounted(c, n);
    if n in c.s.m.flags {
      GivenInVain(c, RefApply(c, Requeue), 0, n, Continued);
    } else {
      NotShared(c, n);
      WonKeeps(c, RefApply(c, Requeue), 0, n, Continued, Inside(false));
    }
  }

  lemma CreateKeeps(c: Counts)
    requires RefInv(c) && c.receiver
    ensures RefInv(c.(s := c.s.(created := c.s.created + 1)))
    ensures Owned(c, c.s.created) == 0 && c.s.created !in c.s.m.flags
  {
    hide Inv;
    var d := c.(s := c.s.(created := c.s.created + 1));
    assert d.s == Step(c.s, Create);
    InvStep(c.s, Create);
    FlagsExist(c.s);
    LentFrame(c, d);
    assert forall m: nat :: Shared(d, m) == Shared(c, m) && Owned(d, m) == Owned(c, m);
    assert forall u: nat :: Phases(d, u) == Phases(c, u);
  }

  lemma FlagsExist(s: State)
    requires Inv(s)
    ensures forall n <- s.m.flags :: n < s.created
  {
  }

  lemma PushKeeps(c: Counts)
    requires RefInv(c) && RefEnabled(c, Push)
    ensures RefInv(RefApply(c, Push))
  {
    hide RefInv, Lent, BeginStep;
    var n := c.s.created;
    CreateKeeps(c);
    var e := c.(s := c.s.(created := n + 1));
    NotShared(e, n);
    WonKeeps(e, RefApply(c, Push), 0, n, Pushed, Inside(false));
  }

  // ---------- upgrade and clone ----------

  /** While the queue is there, thread t goes from one phase to the next, with or without the clone of a node. */
  ghost predicate Passes(c: Counts, d: Counts, t: nat, p: Phase) {
    && t < |c.phases| && d.phases == c.phases[t := p] && !c.closed && !d.closed
    && d.handles == c.handles && d.stored == c.stored && d.local == c.local && d.receiver == c.receiver
    && (p == Inside(false) ==> c.phases[t] == p)
    && (forall n: nat :: Pending(p, n) ==> Pending(c.phases[t], n))
  }

  lemma PassesAligned(c: Counts, d: Counts, t: nat, p: Phase)
    requires Aligned(c) && Passes(c, d, t, p) && d.s.consumer == c.s.consumer && d.s.created == c.s.created
    requires |d.s.producers| == |c.s.producers|
    requires forall u: nat :: u != t ==> At(d.s.producers, u) == At(c.s.producers, u)
    requires Agrees(p, At(d.s.producers, t))
    ensures Aligned(d)
  {
    PhasesAfter(c, d, t, p);
    forall u: nat
      ensures Agrees(Phases(d, u), At(d.s.producers, u))
    {
      assert Agrees(Phases(c, u), At(c.s.producers, u));
    }
    assert Phases(c, t) == c.phases[t];
    assert forall n: nat :: Owned(d, n) == Owned(c, n);
  }

  lemma PassesLoans(c: Counts, d: Counts, t: nat, p: Phase)
    requires Loans(c) && Passes(c, d, t, p) && d.s.m.flags == c.s.m.flags
    requires forall n: nat :: Borrows(p, n) ==> Borrows(c.phases[t], n)
    ensures Loans(d)
  {
    PhasesAfter(c, d, t, p);
    assert forall n: nat :: Owned(d, n) == Owned(c, n);
    assert Phases(c, t) == c.phases[t];
    forall u: nat, m: nat | Borrows(Phases(d, u), m)
      ensures Owned(d, m) > 0
    {
      assert Borrows(Phases(c, u), m);
    }
  }

  lemma PassesConserved(c: Counts, d: Counts, t: nat, p: Phase)
    requires Conserved(c) && Loans(c) && Passes(c, d, t, p)
    requires d.s.m.flags == c.s.m.flags && d.s.h.retired == c.s.h.retired
    requires forall n: nat :: Borrows(p, n) ==> Borrows(c.phases[t], n)
    requires forall n: nat :: Borrows(c.phases[t], n) ==> n !in c.s.h.retired
    requires forall n: nat :: d.strong[n] == c.strong[n] + if Borrows(c.phases[t], n) && !Borrows(p, n) then 1 else 0
    ensures Conserved(d)
  {
    hide Lent;
    forall n: nat
      ensures d.strong[n] == Owned(d, n) + if Shared(d, n) then 1 else 0
    {
      LentAfter(c, d, t, p, n);
      LentIsBorrowed(c, n);
      assert Borrows(c.phases[t], n) ==> Pending(Phases(c, t), n);
    }
  }

  lemma MoveEffect(s: State, t: nat)
    ensures var r := MoveStep(s, t);
      && r.m.flags == s.m.flags && r.h == s.h && r.created == s.created && r.consumer == s.consumer
      && |r.producers| == |s.producers| && (forall u: nat :: u != t ==> At(r.producers, u) == At(s.producers, u))
      && (match At(s.producers, t)
          case Out => At(r.producers, t).Out?
          case Upgrading(_) => At(r.producers, t).Resetting?
          case Resetting(_) => At(r.producers, t).Swapping?
          case Swapping(_) => At(r.producers, t).Linking?
          case Linking(_, _) => At(r.producers, t).Waking?
          case Waking(_) => At(r.producers, t).Out?)
  {
  }

  /** A thread moves on in the protocol, or not. */
  lemma PassesKeeps(c: Counts, d: Counts, t: nat, p: Phase)
    requires RefInv(c) && Passes(c, d, t, p)
    requires d.s == c.s || d.s == MoveStep(c.s, t)
    requires Agrees(p, At(d.s.producers, t))
    requires forall n: nat :: Borrows(p, n) ==> Borrows(c.phases[t], n)
    requires forall n: nat :: Borrows(c.phases[t], n) ==> n !in c.s.h.retired
    requires forall n: nat :: d.strong[n] == c.strong[n] + if Borrows(c.phases[t], n) && !Borrows(p, n) then 1 else 0
    requires d.owners + (if Holds(c.phases[t]) then 1 else 0) == c.owners + if Holds(p) then 1 else 0
    requires d.owners > 0
    ensures RefInv(d)
  {
    hide Inv, MoveStep, Conserved, Loans, Aligned;
    MoveEffect(c.s, t);
    MoveKeeps(c.s, t);
    HoldersAfter(c.phases, t, p);
    PassesAligned(c, d, t, p);
    PassesLoans(c, d, t, p);
    PassesConserved(c, d, t, p);
  }

  lemma MoveKeeps(s: State, t: nat)
    requires Inv(s)
    ensures Inv(MoveStep(s, t))
  {
    hide Inv, MoveStep;
    InvStep(s, Action.Move(t));
    if At(s.producers, t).Out? {
      StaysOut(s, t);
    }
  }

  lemma StaysOut(s: State, t: nat)
    requires At(s.producers, t).Out?
    ensures MoveStep(s, t) == s
  {
  }

  /** What is known of a thread that has set a flag and is outside `enqueue_inner`. */
  lemma PendingFacts(c: Counts, t: nat, n: nat)
    requires RefInv(c) && Pending(Phases(c, t), n)
    ensures At(c.s.producers, t) == Upgrading(n) && n in c.s.m.flags
    ensures !c.closed ==> n !in c.s.h.retired && Carried(c.s, n) && !Queued(c.s, Real(n)) && c.s.consumer != Holding(n)
  {
    hide Conserved, Counted;
    assert Agrees(Phases(c, t), At(c.s.producers, t));
    if !c.closed {
      CarriedIsApart(c.s, t, n);
    }
  }

  lemma CarriedIsApart(s: State, t: nat, n: nat)
    requires Inv(s) && At(s.producers, t) == Upgrading(n)
    ensures Carried(s, n) && s.h.winner[n] == t && n !in s.h.retired && !Queued(s, Real(n)) && s.consumer != Holding(n)
  {
    hide Shape, Links, Owers, Pcs, Delivered, Gaps, Wakes, Reasons;
    assert PreSwap(At(s.producers, t));
  }

  lemma HoldersKeepTheQueue(c: Counts, t: nat)
    requires RefInv(c) && Holds(Phases(c, t))
    ensures c.owners > 0 && !c.closed
  {
    hide Inv, Conserved, Loans, Aligned;
    HolderCounts(c.phases, t);
  }

  lemma UpgradeSucceeds(c: Counts, t: nat)
    requires RefInv(c) && RefEnabled(c, Upgrade(t)) && c.owners > 0
    ensures RefInv(RefApply(c, Upgrade(t)))
  {
    hide RefInv, MoveStep;
    var n, owned := c.phases[t].node, c.phases[t].owned;
    IsOpen(c);
    PendingFacts(c, t, n);
    MoveEffect(c.s, t);
    PassesKeeps(c, RefApply(c, Upgrade(t)), t, if owned then Inside(true) else Upgraded(n));
  }

  lemma IsOpen(c: Counts)
    requires RefInv(c)
    ensures c.closed <==> c.owners == 0
    ensures c.receiver ==> !c.closed
  {
    hide Inv, Conserved, Loans, Aligned;
  }

  /** The flag stays set; the reference is dropped if it is the thread's own. */
  lemma UpgradeFails(c: Counts, t: nat)
    requires RefInv(c) && RefEnabled(c, Upgrade(t)) && c.owners == 0
    ensures RefInv(RefApply(c, Upgrade(t)))
  {
    hide Inv, Conserved;
    var d := RefApply(c, Upgrade(t));
    HoldersAfter(c.phases, t, Outside);
    FailedAligned(c, d, t);
    FailedConserved(c, d, t);
  }

  lemma FailedAligned(c: Counts, d: Counts, t: nat)
    requires Aligned(c) && Loans(c) && RefEnabled(c, Upgrade(t)) && c.owners == 0 && d == RefApply(c, Upgrade(t))
    ensures Aligned(d) && Loans(d)
  {
    PhasesAfter(c, d, t, Outside);
    assert Phases(c, t) == c.phases[t];
    assert forall m: nat :: Owned(d, m) == Owned(c, m);
    forall u: nat
      ensures Agrees(Phases(d, u), At(d.s.producers, u))
    {
      assert Agrees(Phases(c, u), At(c.s.producers, u));
    }
    forall u: nat, m: nat | Borrows(Phases(d, u), m)
      ensures Owned(d, m) > 0
    {
      assert Borrows(Phases(c, u), m);
    }
  }

  lemma FailedConserved(c: Counts, d: Counts, t: nat)
    requires Loans(c) && Conserved(c) && c.closed && RefEnabled(c, Upgrade(t))
    requires c.owners == 0 && d == RefApply(c, Upgrade(t))
    ensures Conserved(d)
  {
    hide Shared, Loans;
    forall m: nat
      ensures d.strong[m] == Owned(d, m) + if Shared(d, m) then 1 else 0
    {
      SwappedAfter(c, d, t, Outside, m);
      SwappedIsShared(c, t, m);
    }
  }

  lemma SwappedIsShared(c: Counts, t: nat, n: nat)
    requires c.closed && t < |c.phases|
    ensures c.phases[t] == Swapped(n, true) ==> Shared(c, n)
  {
  }

  lemma CloneNodeKeeps(c: Counts, t: nat)
    requires RefInv(c) && RefEnabled(c, CloneNode(t))
    ensures RefInv(RefApply(c, CloneNode(t)))
  {
    hide RefInv, MoveStep;
    var n := c.phases[t].node;
    HoldersKeepTheQueue(c, t);
    PendingFacts(c, t, n);
    MoveEffect(c.s, t);
    PassesKeeps(c, RefApply(c, CloneNode(t)), t, Inside(true));
  }

  lemma InsideKeepsTheQueue(c: Counts, t: nat)
    requires RefInv(c) && Phases(c, t).Inside?
    ensures c.owners > 0 && !c.closed && Agrees(Phases(c, t), At(c.s.producers, t))
  {
    hide Inv, Conserved, Loans;
    if c.phases[t].owner {
      HolderCounts(c.phases, t);
    }
  }

  lemma MoveOnKeeps(c: Counts, t: nat)
    requires RefInv(c) && RefEnabled(c, RefAction.Move(t))
    ensures RefInv(RefApply(c, RefAction.Move(t)))
  {
    hide RefInv, MoveStep;
    var d := RefApply(c, RefAction.Move(t));
    InsideKeepsTheQueue(c, t);
    MoveEffect(c.s, t);
    assert d.phases == c.phases[t := d.phases[t]];
    PassesKeeps(c, d, t, d.phases[t]);
  }

  // ---------- the consumer's `Arc` ----------

  lemma HeldFacts(s: State)
    requires Inv(s) && s.consumer.Holding?
    ensures s.consumer.node in s.m.flags && s.consumer.node !in s.h.retired && s.consumer.node < s.created
    ensures Enabled(s, Action.Release) && Enabled(s, Action.Retire)
  {
  }

  /** The held node is not lent: its flag was not set by anybody outside `enqueue_inner`. */
  lemma HeldIsNotLent(c: Counts)
    requires RefInv(c) && !c.closed && c.s.consumer.Holding?
    ensures !Lent(c, c.s.consumer.node) && forall t: nat :: !Pending(Phases(c, t), c.s.consumer.node)
  {
    hide RefInv, Inv;
    var n := c.s.consumer.node;
    LentIsBorrowed(c, n);
    forall t: nat
      ensures !Pending(Phases(c, t), n)
    {
      if Pending(Phases(c, t), n) {
        PendingFacts(c, t, n);
      }
    }
  }

  lemma ReleaseKeeps(c: Counts)
    requires RefInv(c) && RefEnabled(c, RefAction.Release)
    ensures RefInv(RefApply(c, RefAction.Release))
  {
    hide Inv, Lent;
    var d, n := RefApply(c, RefAction.Release), c.s.consumer.node;
    HeldFacts(c.s);
    HeldIsNotLent(c);
    InvStep(c.s, Action.Release);
    LentFrame(c, d);
    assert forall t: nat :: Phases(d, t) == Phases(c, t);
    assert forall m: nat :: m != n ==> Owned(d, m) == Owned(c, m) && Shared(d, m) == Shared(c, m);
    assert Shared(c, n) && !Shared(d, n) && Owned(d, n) == Owned(c, n) + 1;
  }

  lemma RetireKeeps(c: Counts)
    requires RefInv(c) && RefEnabled(c, RefAction.Retire)
    ensures RefInv(RefApply(c, RefAction.Retire))
  {
    hide Inv, Lent;
    var d, n := RefApply(c, RefAction.Retire), c.s.consumer.node;
    HeldFacts(c.s);
    HeldIsNotLent(c);
    InvStep(c.s, Action.Retire);
    LentFrame(c, d);
    assert forall t: nat :: Phases(d, t) == Phases(c, t);
    assert forall m: nat :: m != n ==> Owned(d, m) == Owned(c, m) && Shared(d, m) == Shared(c, m);
    assert Shared(c, n) && !Shared(d, n) && Owned(d, n) == Owned(c, n);
  }

  // ---------- references to the queue ----------

  /** One reference to the queue is to be dropped: the count is one more than there are holders. */
  ghost predicate Surplus(c: Counts) {
    && c.owners == Holders(c.phases) + (if c.receiver then 1 else 0) + 1 && !c.closed
    && Inv(c.s) && Aligned(c) && Loans(c) && Conserved(c)
  }

  lemma LeaveSurplus(c: Counts, t: nat)
    requires RefInv(c) && RefEnabled(c, Leave(t))
    ensures Surplus(c.(phases := c.phases[t := Outside]))
  {
    hide Inv, Conserved;
    var d := c.(phases := c.phases[t := Outside]);
    HoldersKeepTheQueue(c, t);
    HoldersAfter(c.phases, t, Outside);
    PassesAligned(c, d, t, Outside);
    PassesLoans(c, d, t, Outside);
    PassesConserved(c, d, t, Outside);
  }

  lemma DropReceiverSurplus(c: Counts)
    requires RefInv(c) && RefEnabled(c, DropReceiver)
    ensures Surplus(c.(receiver := false))
  {
    hide Inv;
    var d := c.(receiver := false);
    IsOpen(c);
    LentFrame(c, d);
    assert forall t: nat :: Phases(d, t) == Phases(c, t);
    assert forall m: nat :: Owned(d, m) == Owned(c, m) && Shared(d, m) == Shared(c, m);
  }

  /** Nobody is in `enqueue_inner`, and the consumer is not in the middle of a call. */
  ghost predicate AtRest(s: State) {
    s.consumer.Idle? && forall t: nat :: At(s.producers, t).Out? || At(s.producers, t).Upgrading?
  }

  /**
   When the last reference to the queue is about to be dropped, no thread is in `enqueue_inner`: the count says so.
   There may be threads between the swap of a flag and their upgrade.
   */
  lemma LastOwnerIsAlone(c: Counts)
    requires Surplus(c) && c.owners == 1
    ensures AtRest(c.s) && !c.receiver
    ensures forall t: nat :: Phases(c, t).Outside? || Phases(c, t).Swapped?
  {
    hide Inv, Conserved, Loans;
    forall t: nat
      ensures Phases(c, t).Outside? || Phases(c, t).Swapped?
      ensures At(c.s.producers, t).Out? || At(c.s.producers, t).Upgrading?
    {
      if t < |c.phases| && Holds(c.phases[t]) {
        HolderCounts(c.phases, t);
      }
      assert Agrees(Phases(c, t), At(c.s.producers, t));
    }
  }

  lemma {:induction false} RealsMember(c: seq<Ptr>, n: nat)
    ensures n in Reals(c) <==> Real(n) in c
  {
    if c != [] {
      RealsMember(c[1..], n);
      assert c == [c[0]] + c[1..];
    }
  }

  lemma {:induction false} DistinctCount(nodes: seq<nat>, n: nat)
    requires Distinct(nodes)
    ensures multiset(nodes)[n] == if n in nodes then 1 else 0
  {
    if nodes != [] {
      var rest := nodes[..|nodes| - 1];
      DistinctCount(rest, n);
      assert nodes == rest + [nodes[|nodes| - 1]];
    }
  }

  /** Each waiting node is in the queue once. */
  lemma WaitingOnce(s: State, n: nat)
    requires Inv(s)
    ensures s.q.pos <= |s.q.chain| && Rest(s) == Waiting(s)
    ensures multiset(Waiting(s))[n] == if Queued(s, Real(n)) then 1 else 0
  {
    hide Links, Owers, Places, Pcs, Delivered, Gaps, Wakes, Reasons;
    WaitingDistinct(s, s.q.pos);
    DistinctCount(Waiting(s), n);
    RealsMember(s.q.chain[s.q.pos..], n);
    if Queued(s, Real(n)) {
      assert s.q.chain[s.q.pos..][s.q.last[Real(n)] - s.q.pos] == Real(n);
    }
  }

  /** At rest, a flagged node waits, or a thread has it between its swap and its upgrade, or it is retired. */
  lemma RestPlaces(c: Counts, n: nat)
    requires Surplus(c) && c.owners == 1
    ensures Shared(c, n) <==> Queued(c.s, Real(n)) || exists t :: 0 <= t < |c.phases| && c.phases[t] == Swapped(n, true)
    ensures !(Queued(c.s, Real(n)) && exists t :: 0 <= t < |c.phases| && c.phases[t] == Swapped(n, true))
  {
    hide Inv, Conserved, Surplus;
    assert Aligned(c) && Loans(c) && Inv(c.s) && !c.closed by {
      SurplusMeans(c);
    }
    LastOwnerIsAlone(c);
    FlaggedIsSomewhere(c.s, n);
    LentIsBorrowed(c, n);
    forall t: nat | Pending(Phases(c, t), n)
      ensures Carried(c.s, n) && n !in c.s.h.retired && !Queued(c.s, Real(n))
    {
      assert Agrees(Phases(c, t), At(c.s.producers, t));
      CarriedIsApart(c.s, t, n);
    }
    if t :| 0 <= t < |c.phases| && c.phases[t] == Swapped(n, true) {
      assert Pending(Phases(c, t), n);
    }
    if Carried(c.s, n) {
      var t := c.s.h.winner[n];
      assert Agrees(Phases(c, t), At(c.s.producers, t));
      assert Phases(c, t).Swapped? && Pending(Phases(c, t), n);
      assert !Phases(c, t).owned ==> Borrows(Phases(c, t), n);
    }
  }

  lemma SurplusMeans(c: Counts)
    requires Surplus(c)
    ensures Aligned(c) && Loans(c) && Inv(c.s) && !c.closed
  {
  }

  lemma LetGoKeeps(c: Counts)
    requires Surplus(c)
    ensures RefInv(LetGo(c)) && (LetGo(c).closed <==> c.owners == 1)
  {
    hide Inv, Conserved;
    var d := LetGo(c);
    if c.owners == 1 {
      LastOwnerIsAlone(c);
      LastGoesConserved(c);
      assert forall t: nat :: Phases(d, t) == Phases(c, t);
      assert forall n: nat :: Owned(d, n) == Owned(c, n);
    } else {
      LentFrame(c, d);
      assert forall t: nat :: Phases(d, t) == Phases(c, t);
      assert forall n: nat :: Owned(d, n) == Owned(c, n) && Shared(d, n) == Shared(c, n);
      SameConserved(c, d);
    }
  }

  lemma SameConserved(c: Counts, d: Counts)
    requires Conserved(c) && d.strong == c.strong
    requires forall n: nat :: Owned(d, n) == Owned(c, n) && Shared(d, n) == Shared(c, n)
    ensures Conserved(d)
  {
  }

  /** The drop of the queue takes one reference from each waiting node, and from no other. */
  lemma LastGoesConserved(c: Counts)
    requires Surplus(c) && c.owners == 1
    ensures Conserved(LetGo(c))
  {
    var d := LetGo(c);
    forall n: nat
      ensures d.strong[n] == Owned(d, n) + if Shared(d, n) then 1 else 0
    {
      LastGoesAt(c, n);
    }
  }

  lemma LastGoesAt(c: Counts, n: nat)
    requires Surplus(c) && c.owners == 1
    ensures var d := LetGo(c); d.strong[n] == Owned(d, n) + if Shared(d, n) then 1 else 0
  {
    hide Inv, Aligned, Loans, Waiting;
    RestPlaces(c, n);
    WaitingOnce(c.s, n);
    assert c.strong[n] == Owned(c, n) + if Shared(c, n) then 1 else 0;
    assert LetGo(c).phases == c.phases;
  }

  lemma LeaveKeeps(c: Counts, t: nat)
    requires RefInv(c) && RefEnabled(c, Leave(t))
    ensures RefInv(RefApply(c, Leave(t)))
  {
    hide RefInv, Surplus, LetGo;
    LeaveSurplus(c, t);
    LetGoKeeps(c.(phases := c.phases[t := Outside]));
  }

  lemma DropReceiverKeeps(c: Counts)
    requires RefInv(c) && RefEnabled(c, DropReceiver)
    ensures RefInv(RefApply(c, DropReceiver))
  {
    hide RefInv, Surplus, LetGo;
    DropReceiverSurplus(c);
    LetGoKeeps(c.(receiver := false));
  }
}
