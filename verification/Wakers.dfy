/**
 The functions of the waker's vtable, lines 32-58 of `src/selector/waker.rs`, with lines 281-300 of
 `src/queue.rs`, statement by statement amid other threads.

 Between any two atomics the other threads run: they take the steps that `schedule`, an arbitrary
 oracle, has for that moment. So the queue may go between the swap of a flag and the upgrade.
 */
module Wakers {
  import opened Wrappers
  import opened Protocol
  import opened References
  import opened ReferenceSteps
  import opened ReferenceTheorems

  /** How a wake ends: the flag was set, the queue was gone, or the node is in the queue. */
  datatype WakeOutcome = Lost | Failed | Entered

  /** The thread that takes a step; references are cloned and dropped by any thread. */
  function Performer(a: RefAction): Option<nat> {
    match a
    case Wake(t, _) => Some(t)
    case WakeByRef(t, _) => Some(t)
    case Upgrade(t) => Some(t)
    case CloneNode(t) => Some(t)
    case Move(t) => Some(t)
    case Leave(t) => Some(t)
    case Clone(_) => None
    case Drop(_) => None
    case Discard(_) => None
    case _ => Some(0)
  }

  /** The steps of thread t in a run. */
  function Own(run: seq<RefAction>, t: nat): seq<RefAction> {
    if run == [] then []
    else (if Performer(run[0]) == Some(t) then [run[0]] else []) + Own(run[1..], t)
  }

  /** From the upgrade to the end of the enqueue. */
  function Entering(t: nat, borrowed: bool): seq<RefAction> {
    [Upgrade(t)] + (if borrowed then [CloneNode(t)] else []) + Inner(t)
  }

  function Inner(t: nat): seq<RefAction> {
    [RefAction.Move(t), RefAction.Move(t), RefAction.Move(t), RefAction.Move(t), Leave(t)]
  }

  /** The steps of a wake. */
  function Script(outcome: WakeOutcome, t: nat, first: RefAction, borrowed: bool): seq<RefAction> {
    match outcome
    case Lost => [first]
    case Failed => [first, Upgrade(t)]
    case Entered => [first] + Entering(t, borrowed)
  }

  lemma {:induction false} OwnConcat(a: seq<RefAction>, b: seq<RefAction>, t: nat)
    ensures Own(a + b, t) == Own(a, t) + Own(b, t)
  {
    if a == [] {
      assert a + b == b;
    } else {
      assert (a + b)[0] == a[0] && (a + b)[1..] == a[1..] + b;
      OwnConcat(a[1..], b, t);
    }
  }

  lemma {:induction false} RefExecConcat(c: Counts, a: seq<RefAction>, b: seq<RefAction>)
    ensures RefExec(c, a + b) == RefExec(RefExec(c, a), b)
    decreases |a|
  {
    if a == [] {
      assert a + b == b;
    } else {
      assert (a + b)[0] == a[0] && (a + b)[1..] == a[1..] + b;
      RefExecConcat(RefStep(c, a[0]), a[1..], b);
    }
  }

  lemma OneStep(c: Counts, a: RefAction, t: nat)
    ensures RefExec(c, [a]) == RefStep(c, a)
    ensures Own([a], t) == if Performer(a) == Some(t) then [a] else []
  {
    assert [a][1..] == [];
    assert RefExec(RefStep(c, a), []) == RefStep(c, a);
  }

  lemma RunGoesOn(c: Counts, run: seq<RefAction>, a: RefAction, t: nat)
    ensures RefExec(c, run + [a]) == RefStep(RefExec(c, run), a)
    ensures Own(run + [a], t) == Own(run, t) + if Performer(a) == Some(t) then [a] else []
  {
    RefExecConcat(c, run, [a]);
    OwnConcat(run, [a], t);
    OneStep(RefExec(c, run), a, t);
  }

  /** Nobody else changes where thread t is, and a queue that was dropped stays dropped. */
  ghost predicate Keeps(c: Counts, d: Counts, t: nat) {
    Phases(d, t) == Phases(c, t) && At(d.s.producers, t) == At(c.s.producers, t) && (c.closed ==> d.closed)
  }

  lemma SwapKeeps(c: Counts, u: nat, n: nat, cause: Cause, p: Phase, t: nat)
    requires u < |c.phases| == |c.s.producers| && u != t
    ensures Keeps(c, Swap(c, u, n, cause, p), t) && Swap(c, u, n, cause, p).closed == c.closed
  {
  }

  lemma SwapsKeep(c: Counts, a: RefAction, t: nat)
    requires RefEnabled(c, a) && Performer(a) != Some(t) && (a.Push? || a.Wake? || a.WakeByRef? || a.Requeue?)
    ensures Keeps(c, RefApply(c, a), t)
  {
    hide Lent, Swap;
    match a
    case Push =>
      var n := c.s.created;
      SwapKeeps(c.(s := c.s.(created := n + 1), strong := c.strong + multiset{n, n}, stored := c.stored + {n}), 0, n,
                Pushed, Inside(false), t);
    case Wake(u, n) => SwapKeeps(c.(handles := c.handles - multiset{n}), u, n, Woken, Swapped(n, true), t);
    case WakeByRef(u, n) => SwapKeeps(c, u, n, Woken, Swapped(n, false), t);
    case Requeue => SwapKeeps(c.(local := None), 0, c.local.value, Continued, Inside(false), t);
  }

  lemma ThreadsKeep(c: Counts, a: RefAction, t: nat)
    requires RefEnabled(c, a) && Performer(a) != Some(t) && (a.Upgrade? || a.CloneNode? || a.Move?)
    ensures Keeps(c, RefApply(c, a), t)
  {
    hide MoveStep;
    MoveEffect(c.s, a.thread);
  }

  lemma RestKeeps(c: Counts, a: RefAction, t: nat)
    requires RefEnabled(c, a) && Performer(a) != Some(t)
    requires !a.Push? && !a.Wake? && !a.WakeByRef? && !a.Requeue? && !a.Upgrade? && !a.CloneNode? && !a.Move?
    ensures Keeps(c, RefApply(c, a), t)
  {
    hide Apply, Lent, LetGo;
    match a
    case Consume(b) => Unchanged(c.s, b);
    case Leave(u) => LetGoStays(c.(phases := c.phases[u := Outside]));
    case DropReceiver => LetGoStays(c.(receiver := false));
    case _ =>
  }

  lemma LetGoStays(c: Counts)
    ensures LetGo(c).phases == c.phases && LetGo(c).s == c.s && (c.closed ==> LetGo(c).closed)
  {
  }

  lemma OthersKeep(c: Counts, a: RefAction, t: nat)
    requires Performer(a) != Some(t)
    ensures Keeps(c, RefStep(c, a), t)
  {
    hide RefApply, RefEnabled;
    if RefEnabled(c, a) {
      if a.Push? || a.Wake? || a.WakeByRef? || a.Requeue? {
        SwapsKeep(c, a, t);
      } else if a.Upgrade? || a.CloneNode? || a.Move? {
        ThreadsKeep(c, a, t);
      } else {
        RestKeeps(c, a, t);
      }
    }
  }

  class Nodes {
    var c: Counts
    const schedule: nat -> seq<RefAction>
    var clock: nat

    ghost predicate Valid()
      reads this
    {
      RefInv(c)
    }

    constructor (threads: nat, schedule: nat -> seq<RefAction>)
      ensures Valid() && c == Start(threads)
    {
      c, clock := Start(threads), 0;
      this.schedule := schedule;
      StartIsRight(threads);
    }

    /** The other threads do what they like. */
    method Interfere(t: nat, ghost before: Counts, ghost run: seq<RefAction>) returns (ghost more: seq<RefAction>)
      requires Valid() && c == RefExec(before, run)
      modifies this
      ensures Valid() && c == RefExec(before, more) && Own(more, t) == Own(run, t)
      ensures Keeps(old(c), c, t)
    {
      hide RefInv, RefStep, RefExec, Own;
      more := run;
      var actions := schedule(clock);
      clock := clock + 1;
      for i := 0 to |actions|
        invariant Valid() && c == RefExec(before, more) && Own(more, t) == Own(run, t)
        invariant Keeps(old(c), c, t)
      {
        if Performer(actions[i]) != Some(t) {
          RefInvStep(c, actions[i]);
          OthersKeep(c, actions[i], t);
          RunGoesOn(before, more, actions[i], t);
          c := RefStep(c, actions[i]);
          more := more + [actions[i]];
        }
      }
    }

    method DoClone(node: nat)
      requires Valid() && RefEnabled(c, Clone(node))
      modifies this`c
      ensures Valid() && c == RefStep(old(c), Clone(node)) && c.strong == old(c.strong) + multiset{node}
    {
      hide RefInv;
      RefInvStep(c, Clone(node));
      c := c.(strong := c.strong + multiset{node}, handles := c.handles + multiset{node});
    }

    method DoDrop(node: nat)
      requires Valid() && RefEnabled(c, Drop(node))
      modifies this`c
      ensures Valid() && c == RefStep(old(c), Drop(node)) && c.strong == old(c.strong) - multiset{node}
    {
      hide RefInv;
      RefInvStep(c, Drop(node));
      c := c.(strong := c.strong - multiset{node}, handles := c.handles - multiset{node});
    }

    /** `Node::enqueue`: the waker's own reference moves to the queue, or is dropped. */
    method DoWake(t: nat, node: nat) returns (outcome: WakeOutcome, ghost run: seq<RefAction>)
      requires Valid() && RefEnabled(c, Wake(t, node))
      modifies this
      ensures Valid() && Phases(c, t).Outside? && c == RefExec(old(c), run)
      ensures Own(run, t) == Script(outcome, t, Wake(t, node), false)
      ensures outcome.Lost? <==> node in old(c.s.m.flags)
      ensures old(c.closed) && !outcome.Lost? ==> outcome.Failed?
      ensures outcome.Failed? ==> c.closed
    {
      hide RefInv, RefExec, Own, Keeps;
      RefInvStep(c, Wake(t, node));
      OneStep(c, Wake(t, node), t);
      run := [Wake(t, node)];
      var wasSet := node in c.s.m.flags;
      c := c.(s := BeginStep(c.s, t, node, Woken), handles := c.handles - multiset{node});
      if wasSet {
        c := c.(strong := c.strong - multiset{node});
        return Lost, run;
      }
      c := c.(phases := c.phases[t := Swapped(node, true)]);
      outcome, run := EnterUpgraded(t, node, true, old(c), run);
    }

    /** `Node::enqueue_by_ref`: the queue gets a reference of its own. */
    method DoWakeByRef(t: nat, node: nat) returns (outcome: WakeOutcome, ghost run: seq<RefAction>)
      requires Valid() && RefEnabled(c, WakeByRef(t, node))
      modifies this
      ensures Valid() && Phases(c, t).Outside? && c == RefExec(old(c), run)
      ensures Own(run, t) == Script(outcome, t, WakeByRef(t, node), true)
      ensures outcome.Lost? <==> node in old(c.s.m.flags)
      ensures old(c.closed) && !outcome.Lost? ==> outcome.Failed?
      ensures outcome.Failed? ==> c.closed
    {
      hide RefInv, RefExec, Own, Keeps;
      RefInvStep(c, WakeByRef(t, node));
      OneStep(c, WakeByRef(t, node), t);
      run := [WakeByRef(t, node)];
      var wasSet := node in c.s.m.flags;
      c := c.(s := BeginStep(c.s, t, node, Woken));
      if wasSet {
        return Lost, run;
      }
      c := c.(phases := c.phases[t := Swapped(node, false)]);
      outcome, run := EnterUpgraded(t, node, false, old(c), run);
    }

    /** Lines 285-287 and 297-299: the queue is upgraded, or it is gone. */
    method EnterUpgraded(t: nat, node: nat, owned: bool, ghost before: Counts, ghost run: seq<RefAction>)
      returns (outcome: WakeOutcome, ghost more: seq<RefAction>)
      requires Valid() && c == RefExec(before, run) && Phases(c, t) == Swapped(node, owned)
      modifies this
      ensures Valid() && Phases(c, t).Outside? && c == RefExec(before, more)
      ensures !outcome.Lost? && (outcome.Failed? ==> c.closed) && (old(c.closed) ==> outcome.Failed?)
      ensures Own(more, t) == Own(run, t) + if outcome.Failed? then [Upgrade(t)] else Entering(t, !owned)
    {
      hide RefInv, RefExec, Own, RefStep;
      more := Interfere(t, before, run);
      IsOpen(c);
      if c.owners == 0 {
        more := GiveUp(t, node, owned, before, more);
        return Failed, more;
      }
      more := GetHold(t, node, owned, before, more);
      if !owned {
        more := CloneBorrowed(t, node, before, more);
      }
      more := EnqueueInner(t, before, more);
      outcome := Entered;
    }

    /** The upgrade fails: the flag stays set, a reference of the thread's own is dropped. */
    method GiveUp(t: nat, node: nat, owned: bool, ghost before: Counts, ghost run: seq<RefAction>)
      returns (ghost more: seq<RefAction>)
      requires Valid() && c == RefExec(before, run) && Phases(c, t) == Swapped(node, owned) && c.owners == 0
      modifies this`c
      ensures Valid() && Phases(c, t).Outside? && c == RefExec(before, more) && c.closed == old(c.closed)
      ensures Own(more, t) == Own(run, t) + [Upgrade(t)]
    {
      hide RefInv, RefExec, Own;
      LengthsAgree(c);
      RefInvStep(c, Upgrade(t));
      RunGoesOn(before, run, Upgrade(t), t);
      more := run + [Upgrade(t)];
      c := c.(phases := c.phases[t := Outside], s := c.s.(producers := c.s.producers[t := Out]),
              strong := if owned then c.strong - multiset{node} else c.strong);
    }

    /** The upgrade succeeds: there is one more reference to the queue. */
    method GetHold(t: nat, node: nat, owned: bool, ghost before: Counts, ghost run: seq<RefAction>)
      returns (ghost more: seq<RefAction>)
      requires Valid() && c == RefExec(before, run) && Phases(c, t) == Swapped(node, owned) && c.owners > 0
      modifies this`c
      ensures Valid() && c == RefExec(before, more) && c.owners == old(c.owners) + 1
      ensures if owned then Phases(c, t) == Inside(true) && At(c.s.producers, t).Resetting?
              else Phases(c, t) == Upgraded(node)
      ensures Own(more, t) == Own(run, t) + [Upgrade(t)]
    {
      hide RefInv, RefExec, Own, MoveStep;
      LengthsAgree(c);
      PhaseAgrees(c, t);
      MoveEffect(c.s, t);
      RefInvStep(c, Upgrade(t));
      RunGoesOn(before, run, Upgrade(t), t);
      more := run + [Upgrade(t)];
      c := c.(owners := c.owners + 1);
      if owned {
        c := c.(phases := c.phases[t := Inside(true)], s := MoveStep(c.s, t));
      } else {
        c := c.(phases := c.phases[t := Upgraded(node)]);
      }
    }

    lemma LengthsAgree(c: Counts)
      requires RefInv(c)
      ensures |c.phases| == |c.s.producers|
    {
    }

    /** `self.clone()`. */
    method CloneBorrowed(t: nat, node: nat, ghost before: Counts, ghost run: seq<RefAction>)
      returns (ghost more: seq<RefAction>)
      requires Valid() && c == RefExec(before, run) && Phases(c, t) == Upgraded(node)
      modifies this
      ensures Valid() && c == RefExec(before, more) && Phases(c, t) == Inside(true) && At(c.s.producers, t).Resetting?
      ensures Own(more, t) == Own(run, t) + [CloneNode(t)]
    {
      hide RefInv, RefExec, Own;
      more := Interfere(t, before, run);
      PhaseAgrees(c, t);
      RefInvStep(c, CloneNode(t));
      RunGoesOn(before, more, CloneNode(t), t);
      c := c.(strong := c.strong + multiset{node}, phases := c.phases[t := Inside(true)], s := MoveStep(c.s, t));
      more := more + [CloneNode(t)];
    }

    lemma PhaseAgrees(c: Counts, t: nat)
      requires RefInv(c)
      ensures Agrees(Phases(c, t), At(c.s.producers, t))
    {
    }

    /** The four atomics of `enqueue_inner`, and the drop of the upgraded reference. */
    method EnqueueInner(t: nat, ghost before: Counts, ghost run: seq<RefAction>) returns (ghost more: seq<RefAction>)
      requires Valid() && c == RefExec(before, run) && Phases(c, t) == Inside(true) && At(c.s.producers, t).Resetting?
      modifies this
      ensures Valid() && c == RefExec(before, more) && Phases(c, t).Outside?
      ensures Own(more, t) == Own(run, t) + Inner(t)
    {
      hide RefInv, RefExec, Own, MoveStep, RefStep;
      more := run;
      for i := 0 to 4
        invariant Valid() && c == RefExec(before, more)
        invariant Own(more, t) == Own(run, t) + Inner(t)[..i]
        invariant if i == 4 then Phases(c, t).Leaving?
                  else Phases(c, t) == Inside(true) && AtStep(At(c.s.producers, t), i)
      {
        more := Interfere(t, before, more);
        RefInvStep(c, RefAction.Move(t));
        RunGoesOn(before, more, RefAction.Move(t), t);
        MoveOnEffect(c, t);
        c := RefStep(c, RefAction.Move(t));
        more := more + [RefAction.Move(t)];
      }
      more := Interfere(t, before, more);
      RefInvStep(c, Leave(t));
      RunGoesOn(before, more, Leave(t), t);
      LeaveEffect(c, t);
      c := RefStep(c, Leave(t));
      more := more + [Leave(t)];
    }
  }

  /** Where a thread is after i atomics of `enqueue_inner`. */
  predicate AtStep(q: Producer, i: nat) {
    match i
    case 0 => q.Resetting?
    case 1 => q.Swapping?
    case 2 => q.Linking?
    case _ => q.Waking?
  }

  lemma MoveOnEffect(c: Counts, t: nat)
    requires Phases(c, t) == Inside(true)
    ensures var d := RefStep(c, RefAction.Move(t));
      match At(c.s.producers, t)
      case Resetting(_) => Phases(d, t) == Inside(true) && At(d.s.producers, t).Swapping?
      case Swapping(_) => Phases(d, t) == Inside(true) && At(d.s.producers, t).Linking?
      case Linking(_, _) => Phases(d, t) == Inside(true) && At(d.s.producers, t).Waking?
      case Waking(_) => Phases(d, t).Leaving?
      case _ => true
  {
    hide MoveStep;
    MoveEffect(c.s, t);
  }

  lemma LeaveEffect(c: Counts, t: nat)
    requires Phases(c, t).Leaving?
    ensures Phases(RefStep(c, Leave(t)), t).Outside?
  {
  }
}
