/** What holds in every run of the wake queue, for any number of threads and any scheduler. */
module ProtocolRuns {
  import opened Wrappers
  import opened Protocol
  import opened ProtocolInvariant
  import opened ProtocolHistory

  /** An empty queue and any number of threads, none of them enqueueing. */
  function Init(threads: nat): State {
    State(
      Memory(Stub, Stub, map[], {}, Null, None),
      Order([Stub], [0], map[Stub := 0], 0),
      History(map[], [], [], {}, []),
      Signals(None, 0, [], 0, false),
      0, seq(threads, _ => Out), Idle(Fresh))
  }

  lemma InvInit(threads: nat)
    ensures Inv(Init(threads))
  {
    var s := Init(threads);
    assert forall t: nat :: At(s.producers, t) == Out;
    assert Reals(s.q.chain[..s.q.pos]) == [];
    assert Places(s);
  }

  lemma InvBegin(s: State, t: nat, n: nat, cause: Cause)
    requires Inv(s) && Enabled(s, Begin(t, n, cause))
    ensures Inv(BeginStep(s, t, n, cause))
  {
    hide Shape, Links, Owers, Places, Pcs, Delivered, Gaps, Wakes, Reasons;
    CoreBegin(s, t, n, cause);
    HistoryFrame(s, BeginStep(s, t, n, cause));
    GapsBegin(s, t, n, cause);
    WakesBegin(s, t, n, cause);
    ReasonsBegin(s, t, n, cause);
  }

  lemma InvMove(s: State, t: nat)
    requires Inv(s)
    ensures Inv(MoveStep(s, t))
  {
    hide MoveStep, Shape, Links, Owers, Places, Pcs, Delivered, Gaps, Wakes, Reasons;
    CoreMove(s, t);
    HistoryMove(s, t);
    GapsMove(s, t);
    WakesMove(s, t);
    ReasonsMove(s, t);
  }

  lemma ReasonsMove(s: State, t: nat)
    requires Reasons(s)
    ensures Reasons(MoveStep(s, t))
  {
    assert MoveStep(s, t).h == s.h && MoveStep(s, t).m.flags == s.m.flags;
  }

  lemma InvDequeue(s: State)
    requires Inv(s)
    ensures Inv(DequeueStep(s))
  {
    hide DequeueStep, Shape, Links, Owers, Places, Delivered, Gaps, Wakes, Reasons;
    CoreDequeue(s);
    HistoryDequeue(s);
    GapsDequeue(s);
    WakesDequeue(s);
    ReasonsDequeue(s);
  }

  lemma InvRegister(s: State, w: nat)
    requires Inv(s) && s.consumer.Idle?
    ensures Inv(RegisterStep(s, w))
  {
    CoreFrame(s, RegisterStep(s, w));
    WakesRegister(s, w);
  }

  lemma InvLoadHead(s: State)
    requires Inv(s) && s.consumer.Registered?
    ensures Inv(LoadHeadStep(s))
  {
    CoreFrame(s, LoadHeadStep(s));
    WakesLoadHead(s);
  }

  lemma InvRelease(s: State)
    requires Inv(s) && s.consumer.Holding?
    ensures Inv(ReleaseStep(s))
  {
    var r := ReleaseStep(s);
    assert Core(r) by {
      CoreRelease(s);
    }
    assert Reasons(r) by {
      ReasonsRelease(s);
    }
    assert Wakes(r) by {
      WakesConsumer(s, r);
    }
  }

  lemma InvRetire(s: State)
    requires Inv(s) && s.consumer.Holding?
    ensures Inv(RetireStep(s))
  {
    CoreRetire(s);
    WakesConsumer(s, RetireStep(s));
  }

  /** The invariant is kept by every step of every thread. */
  lemma InvStep(s: State, a: Action)
    requires Inv(s)
    ensures Inv(Step(s, a))
  {
    if Enabled(s, a) {
      match a
      case Create => CoreApply(s, a); WakesFrame(s, Apply(s, a));
      case Begin(t, n, cause) => InvBegin(s, t, n, cause);
      case Move(t) => InvMove(s, t);
      case Register(w) => InvRegister(s, w);
      case LoadHead => InvLoadHead(s);
      case Dequeue => InvDequeue(s);
      case Release => InvRelease(s);
      case Retire => InvRetire(s);
    }
  }

  /** The invariant holds in every reachable state. */
  lemma {:induction false} InvExec(s: State, run: seq<Action>)
    requires Inv(s)
    ensures Inv(Exec(s, run))
    decreases |run|
  {
    if run != [] {
      InvStep(s, run[0]);
      InvExec(Step(s, run[0]), run[1..]);
    }
  }
}
