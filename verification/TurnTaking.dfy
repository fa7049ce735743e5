/**
 When streams that are always ready take turns: exactly when there is one of them, or no other thread, or no
 other thread that wakes.

 The program is the first example of the repository's README: n streams are pushed, then `next` is called again
 and again. Its thread runs amid the others, and takes one step of the protocol at a time.
 */
module TurnTaking {
  import opened Protocol
  import opened ProtocolRuns
  import opened ProtocolTheorems
  import opened ReceiverSteps
  import opened Snapshots
  import opened TurnOrders

  /** Where the program is, enqueues aside. */
  datatype Place =
    | Filling(task: nat)                        // about to create the node of a task
    | Storing(task: nat)                        // about to enqueue it
    | Between                                   // about to call `poll_next`
    | Called                                    // the waker is stored
    | Fetching                                  // about to dequeue, in `dequeue`, or with a `Dequeued`
    | Polling(node: nat)

  datatype Conf = Conf(s: State, place: Place)

  /**
   The steps that may come next. Another thread may go on with its enqueue, or begin one if it wakes nodes at all;
   the program finishes an enqueue that it began, and otherwise goes on from where it is. Its own wakes come between
   two calls of the selector, or from a stream that is polled, which then continues.
   */
  predicate May(wakes: bool, c: Conf, a: Action) {
    if Foreign(a) then wakes || a.Move?
    else if !At(c.s.producers, 0).Out? then a == Move(0)
    else match c.place
      case Filling(_) => a.Create? || OwnWake(a)
      case Storing(i) => a == Begin(0, i, Pushed)
      case Between => a.Register? || OwnWake(a)
      case Called => a.LoadHead?
      case Fetching => if c.s.consumer.Holding? then a.Release? else a.Dequeue?
      case Polling(m) => a == Begin(0, m, Continued) || OwnWake(a)
  }

  predicate OwnWake(a: Action) {
    a.Begin? && a.thread == 0 && a.cause.Woken?
  }

  /** Where the program is after a step of its own, with n tasks. */
  function After(n: nat, c: Conf, a: Action): Place {
    match c.place
    case Filling(i) => if a.Create? then Storing(i) else c.place
    case Storing(i) => if i + 1 < n then Filling(i + 1) else Between
    case Between => if a.Register? then Called else Between
    case Called => if Marker(c.s) == Null then Between else Fetching
    case Fetching =>
      if c.s.consumer.Holding? then Polling(c.s.consumer.node)
      else if Step(c.s, a).consumer == Idle(Missed) then Between
      else Fetching
    case Polling(m) => if a.Begin? && a.cause.Continued? then Between else c.place
  }

  function Next(n: nat, c: Conf, a: Action): Conf {
    Conf(Step(c.s, a), if Foreign(a) || !At(c.s.producers, 0).Out? then c.place else After(n, c, a))
  }

  function Program(n: nat, threads: nat, run: seq<Action>): Conf {
    if run == [] then Conf(Init(threads), Filling(0))
    else Next(n, Program(n, threads, run[..|run| - 1]), run[|run| - 1])
  }

  /** A run of the program with n tasks and this many threads. */
  predicate Lawful(n: nat, threads: nat, wakes: bool, run: seq<Action>) {
    run == [] ||
    (Lawful(n, threads, wakes, run[..|run| - 1]) && May(wakes, Program(n, threads, run[..|run| - 1]), run[|run| - 1]))
  }

  /** The tasks are dequeued in turn. */
  ghost predicate InTurn(n: nat, threads: nat, run: seq<Action>)
    requires n > 0
  {
    var delivered := Exec(Init(threads), run).h.delivered;
    delivered == Turns(n, 0, |delivered|)
  }

  lemma NoSteps(threads: nat)
    ensures Exec(Init(threads), []) == Init(threads)
  {
  }

  lemma {:induction false} IsRun(n: nat, threads: nat, run: seq<Action>)
    ensures Program(n, threads, run).s == Exec(Init(threads), run)
    ensures Inv(Program(n, threads, run).s) && |Program(n, threads, run).s.producers| == threads
  {
    hide Exec, Inv;
    if run == [] {
      InvInit(threads);
      NoSteps(threads);
    } else {
      var rest, a := run[..|run| - 1], run[|run| - 1];
      IsRun(n, threads, rest);
      ExecSnoc(Init(threads), rest, a);
      assert run == rest + [a];
      InvStep(Program(n, threads, rest).s, a);
    }
  }

  // ---------- nobody else wakes ----------

  /** The node that this thread is about to swap in. */
  ghost function Carry(s: State): seq<nat> {
    var p := At(s.producers, 0);
    if PreSwap(p) then [p.node] else []
  }

  /** How many enqueues there have been. */
  ghost function Entered(n: nat, c: Conf): nat
    requires n > 0
  {
    var d := |c.s.h.delivered|;
    match c.place
    case Filling(i) => i
    case Storing(i) => i
    case Fetching => if c.s.consumer.Holding? then d + n - 1 else d + n
    case Polling(m) => if m in c.s.m.flags then d + n else d + n - 1
    case _ => d + n
  }

  /** What is known at each place. */
  ghost predicate Located(n: nat, c: Conf)
    requires n > 0
  {
    var s, d := c.s, |c.s.h.delivered|;
    match c.place
    case Filling(i) => i < n && s.created == i && AllSet(s.m.flags, i) && d == 0 && s.consumer.Idle?
    case Storing(i) => i < n && s.created == i + 1 && AllSet(s.m.flags, i) && d == 0 && s.consumer.Idle?
    case Between => s.created == n && AllSet(s.m.flags, n) && s.consumer.Idle?
    case Called => s.created == n && AllSet(s.m.flags, n) && s.consumer.Registered?
    case Fetching =>
      && s.created == n && AllSet(s.m.flags, n)
      && (s.consumer.Idle? || Dequeuing(s.consumer) || s.consumer.Holding?)
      && (s.consumer.Holding? ==> d > 0 && s.consumer.node == Whose(d - 1, n))
    case Polling(m) =>
      && s.created == n && AllSet(s.m.flags + {m}, n) && s.consumer.Idle?
      && d > 0 && m == Whose(d - 1, n)
  }

  /** The nodes have entered the queue in turn, and no other thread is at work. */
  ghost predicate Orderly(n: nat, c: Conf)
    requires n > 0
  {
    && (forall t: nat :: 0 < t < |c.s.producers| ==> c.s.producers[t].Out?)
    && Reals(c.s.q.chain) + Carry(c.s) == Turns(n, 0, Entered(n, c))
    && Located(n, c)
  }

  /** A step of a thread that is inside an enqueue. */
  lemma MovesOn(s: State, t: nat)
    requires !At(s.producers, t).Out?
    ensures var r := Step(s, Move(t));
      && Reals(r.q.chain) == Reals(s.q.chain) + SwappedBy(s, Move(t)) && r.h.delivered == s.h.delivered
      && r.m.flags == s.m.flags && r.consumer == s.consumer && r.created == s.created
      && |r.producers| == |s.producers| && (forall u: nat :: u != t ==> At(r.producers, u) == At(s.producers, u))
      && (t == 0 ==> SwappedBy(s, Move(0)) + Carry(r) == Carry(s))
  {
    ChainAfterMove(s, t);
  }

  /** A step of `dequeue`. */
  lemma Dequeues(s: State)
    requires Inv(s) && (s.consumer.Idle? || Dequeuing(s.consumer))
    ensures var r := DequeueStep(s);
      && Inv(r) && Reals(r.q.chain) == Reals(s.q.chain) && r.m.flags == s.m.flags && r.created == s.created
      && r.producers == s.producers
      && (r.consumer == Idle(Missed) || Dequeuing(r.consumer) || (r.consumer.Holding? && r.consumer.node in r.m.flags))
      && r.h.delivered == s.h.delivered + (if r.consumer.Holding? then [r.consumer.node] else [])
      && (r.consumer.Holding? ==>
            |s.h.delivered| < |Reals(s.q.chain)| && r.consumer.node == Reals(s.q.chain)[|s.h.delivered|])
  {
    hide Inv, DequeueStep, Reals;
    var r := DequeueStep(s);
    assert Inv(r) by {
      InvStep(s, Action.Dequeue);
    }
    ChainAfterDequeue(s);
    DequeueFrame(s);
    DequeueEnds(s);
    QueueSplits(r);
    if r.consumer.Holding? {
      assert (r.h.delivered + Waiting(r))[|s.h.delivered|] == r.consumer.node;
    }
  }

  lemma DequeueEnds(s: State)
    requires s.consumer.Idle? || Dequeuing(s.consumer)
    requires Inv(DequeueStep(s))
    ensures var r := DequeueStep(s);
      r.consumer == Idle(Missed) || Dequeuing(r.consumer) || (r.consumer.Holding? && r.consumer.node in r.m.flags)
  {
    hide Shape, Links, Owers, Delivered, Gaps, Wakes, Reasons;
  }

  /** What thread 0 does to the flags, and to itself, when it begins an enqueue. */
  lemma Begins(s: State, n: nat, cause: Cause)
    requires 0 < |s.producers| && s.producers[0].Out?
    ensures var r := Step(s, Begin(0, n, cause));
      && r.q == s.q && r.h.delivered == s.h.delivered && r.consumer == s.consumer && r.created == s.created
      && (if n < s.created && n !in s.m.flags then
            r.m.flags == s.m.flags + {n} && r.producers == s.producers[0 := Entry(n, cause)]
          else
            r.m.flags == s.m.flags && r.producers == s.producers)
  {
  }

  lemma {:induction false} StaysOrderly(n: nat, threads: nat, wakes: bool, run: seq<Action>)
    requires n > 0 && threads > 0 && (threads == 1 || !wakes) && Lawful(n, threads, wakes, run)
    ensures Orderly(n, Program(n, threads, run))
  {
    hide Inv, Orderly, May, Next;
    if run == [] {
      FirstIsOrderly(n, threads);
    } else {
      var rest, a := run[..|run| - 1], run[|run| - 1];
      StaysOrderly(n, threads, wakes, rest);
      IsRun(n, threads, rest);
      OrderlyStep(n, threads, wakes, Program(n, threads, rest), a);
    }
  }

  lemma FirstIsOrderly(n: nat, threads: nat)
    requires n > 0
    ensures Orderly(n, Conf(Init(threads), Filling(0)))
  {
    StartsEmpty(threads);
  }

  lemma OrderlyStep(n: nat, threads: nat, wakes: bool, c: Conf, a: Action)
    requires n > 0 && threads > 0 && (threads == 1 || !wakes) && |c.s.producers| == threads
    requires Orderly(n, c) && Inv(c.s) && May(wakes, c, a)
    ensures Orderly(n, Next(n, c, a))
  {
    hide Inv, Orderly, Next, Step;
    if Foreign(a) {
      OrderlyForeign(n, threads, wakes, c, a);
    } else if !At(c.s.producers, 0).Out? {
      OrderlyMove(n, c);
    } else {
      match c.place
      case Storing(i) => OrderlyStore(n, c);
      case Fetching => OrderlyFetch(n, c, a);
      case Polling(m) => OrderlyPoll(n, c, a);
      case _ =>
        if OwnWake(a) {
          OrderlyWake(n, c, a);
        } else {
          OrderlyQuiet(n, c, a);
        }
    }
  }

  lemma OrderlyForeign(n: nat, threads: nat, wakes: bool, c: Conf, a: Action)
    requires n > 0 && threads > 0 && (threads == 1 || !wakes) && |c.s.producers| == threads
    requires Orderly(n, c) && May(wakes, c, a) && Foreign(a)
    ensures Orderly(n, Next(n, c, a))
  {
    assert Step(c.s, a) == c.s;
  }

  lemma OrderlyMove(n: nat, c: Conf)
    requires n > 0 && Orderly(n, c) && !At(c.s.producers, 0).Out?
    ensures Orderly(n, Next(n, c, Move(0)))
  {
    hide Step;
    var s, r := c.s, Step(c.s, Move(0));
    MovesOn(s, 0);
    RunHistoryGlue(Reals(s.q.chain), SwappedBy(s, Move(0)), Carry(r));
    forall t: nat | 0 < t < |r.producers|
      ensures r.producers[t].Out?
    {
      assert At(r.producers, t) == At(s.producers, t);
    }
  }

  /** When all flags are set a wake does nothing. */
  lemma OrderlyWake(n: nat, c: Conf, a: Action)
    requires n > 0 && 0 < |c.s.producers| && At(c.s.producers, 0).Out? && Orderly(n, c)
    requires (c.place.Filling? || c.place.Between?) && OwnWake(a)
    ensures Orderly(n, Next(n, c, a))
  {
    hide Step;
    Begins(c.s, a.node, a.cause);
  }

  lemma OrderlyQuiet(n: nat, c: Conf, a: Action)
    requires n > 0 && At(c.s.producers, 0).Out? && Orderly(n, c)
    requires
      || (c.place.Filling? && a.Create?)
      || (c.place.Between? && a.Register?)
      || (c.place.Called? && a.LoadHead?)
    ensures Orderly(n, Next(n, c, a))
  {
  }

  lemma OrderlyStore(n: nat, c: Conf)
    requires n > 0 && 0 < |c.s.producers| && At(c.s.producers, 0).Out? && c.place.Storing? && Orderly(n, c)
    ensures Orderly(n, Next(n, c, Begin(0, c.place.task, Pushed)))
  {
    hide Step;
    Begins(c.s, c.place.task, Pushed);
    TurnsSnoc(n, c.place.task);
  }

  lemma OrderlyFetch(n: nat, c: Conf, a: Action)
    requires n > 0 && At(c.s.producers, 0).Out? && c.place.Fetching? && Orderly(n, c) && Inv(c.s)
    requires if c.s.consumer.Holding? then a.Release? else a.Dequeue?
    ensures Orderly(n, Next(n, c, a))
  {
    hide Inv;
    if c.s.consumer.Holding? {
      assert c.s.m.flags - {c.s.consumer.node} + {c.s.consumer.node} == c.s.m.flags;
    } else {
      OrderlyDequeue(n, c);
    }
  }

  lemma OrderlyDequeue(n: nat, c: Conf)
    requires n > 0 && At(c.s.producers, 0).Out? && c.place.Fetching? && Orderly(n, c) && Inv(c.s)
    requires !c.s.consumer.Holding?
    ensures Orderly(n, Next(n, c, Action.Dequeue))
  {
    hide Inv, DequeueStep;
    Dequeues(c.s);
    var d := |c.s.h.delivered|;
    assert Reals(c.s.q.chain) + Carry(c.s) == Reals(c.s.q.chain);
    if DequeueStep(c.s).consumer.Holding? {
      TurnsAt(n, 0, d + n, d);
    }
  }

  lemma OrderlyPoll(n: nat, c: Conf, a: Action)
    requires n > 0 && 0 < |c.s.producers| && At(c.s.producers, 0).Out? && c.place.Polling? && Orderly(n, c)
    requires a == Begin(0, c.place.node, Continued) || OwnWake(a)
    ensures Orderly(n, Next(n, c, a))
  {
    hide Step, Inv;
    var s, r, d, m := c.s, Step(c.s, a), |c.s.h.delivered|, c.place.node;
    Begins(s, a.node, a.cause);
    assert Whose(d - 1 + n, n) == m;
    TurnsSnoc(n, d + n - 1);
    assert Reals(s.q.chain) + Carry(s) == Reals(s.q.chain);
    assert m in s.m.flags ==> s.m.flags + {m} == s.m.flags;
    if a.node == m {
      assert r.m.flags == s.m.flags + {m} && r.m.flags + {m} == r.m.flags;
    } else {
      assert a.node < n ==> a.node in s.m.flags + {m};
      assert r.m.flags == s.m.flags && r.producers == s.producers;
    }
  }

  /** Nodes that entered in turn are dequeued in turn. */
  lemma OrderlyIsInTurn(n: nat, c: Conf)
    requires n > 0 && Orderly(n, c) && Inv(c.s)
    ensures c.s.h.delivered == Turns(n, 0, |c.s.h.delivered|)
  {
    hide Inv;
    QueueSplits(c.s);
    var all, d := Turns(n, 0, Entered(n, c)), |c.s.h.delivered|;
    assert c.s.h.delivered + (Waiting(c.s) + Carry(c.s)) == all;
    TurnsLength(n, 0, Entered(n, c));
    TurnsLength(n, 0, d);
    forall k | 0 <= k < d
      ensures c.s.h.delivered[k] == Turns(n, 0, d)[k]
    {
      TurnsAt(n, 0, Entered(n, c), k);
      TurnsAt(n, 0, d, k);
    }
  }

  lemma OrderlyRun(n: nat, threads: nat, wakes: bool, run: seq<Action>)
    requires n > 0 && threads > 0 && (threads == 1 || !wakes) && Lawful(n, threads, wakes, run)
    ensures InTurn(n, threads, run)
  {
    hide Inv, Orderly, Lawful, Program, Exec;
    StaysOrderly(n, threads, wakes, run);
    IsRun(n, threads, run);
    OrderlyIsInTurn(n, Program(n, threads, run));
  }

  // ---------- one task ----------

  /** No more than n nodes, and no other node is dequeued. */
  ghost predicate Few(n: nat, c: Conf) {
    && (match c.place
        case Filling(i) => i < n && c.s.created == i
        case Storing(i) => i < n && c.s.created == i + 1
        case _ => c.s.created == n)
    && forall x <- c.s.h.delivered :: x < n
  }

  lemma {:induction false} StaysFew(n: nat, threads: nat, wakes: bool, run: seq<Action>)
    requires n > 0 && Lawful(n, threads, wakes, run)
    ensures Few(n, Program(n, threads, run))
  {
    hide Inv, May, Next;
    if run != [] {
      hide Few;
      var rest, a := run[..|run| - 1], run[|run| - 1];
      StaysFew(n, threads, wakes, rest);
      IsRun(n, threads, rest);
      FewStep(n, wakes, Program(n, threads, rest), a);
    }
  }

  lemma FewStep(n: nat, wakes: bool, c: Conf, a: Action)
    requires Few(n, c) && Inv(c.s) && May(wakes, c, a)
    ensures Few(n, Next(n, c, a))
  {
    hide Inv;
    if Foreign(a) || a.Move? {
      ChainAfterMove(c.s, a.thread);
    } else if a.Dequeue? && Enabled(c.s, a) {
      Dequeues(c.s);
      FlagsExist(DequeueStep(c.s));
    }
  }

  lemma FlagsExist(s: State)
    requires Inv(s)
    ensures forall n <- s.m.flags :: n < s.created
  {
  }

  lemma OneInTurn(threads: nat, wakes: bool, run: seq<Action>)
    requires Lawful(1, threads, wakes, run)
    ensures InTurn(1, threads, run)
  {
    hide Inv, Lawful, Program, Exec;
    StaysFew(1, threads, wakes, run);
    IsRun(1, threads, run);
    var delivered := Exec(Init(threads), run).h.delivered;
    TurnsLength(1, 0, |delivered|);
    forall k | 0 <= k < |delivered|
      ensures delivered[k] == Turns(1, 0, |delivered|)[k]
    {
      assert delivered[k] in delivered;
      TurnsAt(1, 0, |delivered|, k);
    }
  }

  // ---------- another thread wakes ----------

  /** Some run with wakes gets to c. */
  ghost predicate Reaches(n: nat, threads: nat, c: Conf) {
    exists run :: Lawful(n, threads, true, run) && Program(n, threads, run) == c
  }

  lemma Starts(n: nat, threads: nat)
    ensures Reaches(n, threads, Conf(Init(threads), Filling(0)))
  {
    assert Lawful(n, threads, true, []) && Program(n, threads, []) == Conf(Init(threads), Filling(0));
  }

  lemma Goes(n: nat, threads: nat, c: Conf, a: Action) returns (r: Conf)
    requires Reaches(n, threads, c) && May(true, c, a)
    ensures Reaches(n, threads, r) && r == Next(n, c, a)
  {
    hide Next, May;
    r := Next(n, c, a);
    var run :| Lawful(n, threads, true, run) && Program(n, threads, run) == c;
    assert (run + [a])[..|run|] == run;
    assert Lawful(n, threads, true, run + [a]) && Program(n, threads, run + [a]) == r;
  }

  lemma IsSound(n: nat, threads: nat, c: Conf)
    requires Reaches(n, threads, c)
    ensures Inv(c.s) && |c.s.producers| == threads
  {
    hide Inv, Lawful, Program;
    var run :| Lawful(n, threads, true, run) && Program(n, threads, run) == c;
    IsRun(n, threads, run);
  }

  /** The next atomic of an enqueue of this thread. */
  lemma Moves(n: nat, threads: nat, c: Conf) returns (r: Conf)
    requires Reaches(n, threads, c) && !At(c.s.producers, 0).Out?
    ensures Reaches(n, threads, r) && r.place == c.place && r.s == MoveStep(c.s, 0)
    ensures Reals(r.s.q.chain) == Reals(c.s.q.chain) + SwappedBy(c.s, Move(0)) && r.s.h.delivered == c.s.h.delivered
    ensures r.s.m.flags == c.s.m.flags && r.s.consumer == c.s.consumer && r.s.created == c.s.created
    ensures r.s.producers == c.s.producers[0 := Onto(c.s)]
  {
    hide Reaches;
    r := Goes(n, threads, c, Move(0));
    hide Step;
    MovesOn(c.s, 0);
  }

  function Onto(s: State): Producer {
    match At(s.producers, 0)
    case Upgrading(n) => Resetting(n)
    case Resetting(n) => Swapping(n)
    case Swapping(n) => Linking(n, s.m.head)
    case Linking(n, pred) => Waking(n)
    case _ => Out
  }

  /** An enqueue of this thread, undisturbed. */
  lemma Enqueues(n: nat, threads: nat, c: Conf, x: nat, cause: Cause) returns (r: Conf)
    requires Reaches(n, threads, c) && 0 < |c.s.producers| && c.s.producers[0].Out? && !cause.Woken?
    requires May(true, c, Begin(0, x, cause)) && x < c.s.created && x !in c.s.m.flags
    ensures Reaches(n, threads, r) && r.place == After(n, c, Begin(0, x, cause))
    ensures r.s.producers == c.s.producers && r.s.consumer == c.s.consumer && r.s.created == c.s.created
    ensures r.s.h.delivered == c.s.h.delivered && r.s.m.flags == c.s.m.flags + {x}
    ensures Reals(r.s.q.chain) == Reals(c.s.q.chain) + [x]
  {
    hide Reaches, MoveStep, Reals;
    r := Goes(n, threads, c, Begin(0, x, cause));
    assert r.s.producers == c.s.producers[0 := Resetting(x)];
    r := Moves(n, threads, r);
    r := Moves(n, threads, r);
    r := Moves(n, threads, r);
    r := Moves(n, threads, r);
    assert r.s.producers == c.s.producers;
  }

  /** `dequeue` when nobody is between a swap and its link, and some node waits. */
  lemma {:induction false} Fetches(n: nat, threads: nat, c: Conf) returns (r: Conf)
    requires Reaches(n, threads, c) && c.place.Fetching? && At(c.s.producers, 0).Out? && !SomeLinking(c.s)
    requires c.s.consumer.Idle? || (Dequeuing(c.s.consumer) && !c.s.w.gapped)
    requires |c.s.h.delivered| < |Reals(c.s.q.chain)|
    ensures Reaches(n, threads, r) && r.place.Fetching?
    ensures r.s.consumer == Holding(Reals(c.s.q.chain)[|c.s.h.delivered|])
    ensures r.s.h.delivered == c.s.h.delivered + [r.s.consumer.node] && r.s.consumer.node in r.s.m.flags
    ensures r.s.producers == c.s.producers && r.s.created == c.s.created
    ensures r.s.m.flags == c.s.m.flags && Reals(r.s.q.chain) == Reals(c.s.q.chain)
    decreases Rank(c.s.consumer)
  {
    hide Inv, Reaches, DequeueStep, Reals, SomeLinking;
    IsSound(n, threads, c);
    r := Goes(n, threads, c, Action.Dequeue);
    Dequeues(c.s);
    DequeueRank(c.s);
    if r.s.consumer == Idle(Missed) {
      UndisturbedMiss(r.s);
      QueueSplits(r.s);
      assert false;
    } else if !r.s.consumer.Holding? {
      SameLinking(c.s, r.s);
      r := Fetches(n, threads, r);
    }
  }

  function Rank(c: Consumer): nat {
    match c
    case Idle(_) => 7
    case SkippedStub => 6
    case SawEnd => 5
    case ResettingStub => 4
    case SwappingStub => 3
    case LinkingStub(_) => 2
    case Rechecking => 1
    case _ => 0
  }

  lemma DequeueRank(s: State)
    requires s.consumer.Idle? || Dequeuing(s.consumer)
    ensures Dequeuing(DequeueStep(s).consumer) ==> Rank(DequeueStep(s).consumer) < Rank(s.consumer)
    ensures DequeueStep(s).w.gapped == if s.consumer.Idle? then SomeLinking(s) else s.w.gapped
  {
  }

  lemma SameLinking(s: State, r: State)
    requires r.producers == s.producers
    ensures SomeLinking(r) == SomeLinking(s)
  {
  }

  /** The next call of `poll_next`, up to the poll: the first waiting node is released. */
  lemma NextPoll(n: nat, threads: nat, c: Conf) returns (r: Conf)
    requires Reaches(n, threads, c) && c.place.Between? && At(c.s.producers, 0).Out? && !SomeLinking(c.s)
    requires c.s.consumer.Idle? && |c.s.h.delivered| < |Reals(c.s.q.chain)|
    ensures var m := Reals(c.s.q.chain)[|c.s.h.delivered|];
      && Reaches(n, threads, r) && r.place == Polling(m) && r.s.consumer.Idle?
      && r.s.h.delivered == c.s.h.delivered + [m] && m in c.s.m.flags && r.s.m.flags == c.s.m.flags - {m}
      && r.s.producers == c.s.producers && r.s.created == c.s.created && Reals(r.s.q.chain) == Reals(c.s.q.chain)
  {
    hide Inv, Reaches, Reals, SomeLinking;
    var c1 := Goes(n, threads, c, Register(0));
    IsSound(n, threads, c1);
    MarkerIsLast(c1.s);
    QueueSplits(c1.s);
    var c2 := Goes(n, threads, c1, LoadHead);
    SameLinking(c.s, c2.s);
    var c3 := Fetches(n, threads, c2);
    r := Goes(n, threads, c3, Release);
  }

  // ---------- the run ----------

  /** Between two calls, everybody is ready; thread 1 is as given, and the other threads are not at work. */
  ghost predicate Rests(n: nat, threads: nat, c: Conf, other: Producer, entered: seq<nat>, delivered: seq<nat>) {
    && Reaches(n, threads, c) && c.s.consumer.Idle?
    && c.s.producers == seq(threads, t => if t == 1 then other else Out)
    && Reals(c.s.q.chain) == entered && c.s.h.delivered == delivered
  }

  /** i tasks are pushed. */
  lemma {:induction false} Pushes(n: nat, threads: nat, i: nat) returns (c: Conf)
    requires i <= n && 0 < n && 2 <= threads
    ensures Rests(n, threads, c, Out, Turns(n, 0, i), []) && c.s.created == i && AllSet(c.s.m.flags, i)
    ensures c.place == if i < n then Filling(i) else Between
  {
    hide Reaches, Reals;
    if i == 0 {
      Starts(n, threads);
      StartsEmpty(threads);
      c := Conf(Init(threads), Filling(0));
    } else {
      var c0 := Pushes(n, threads, i - 1);
      var c1 := Goes(n, threads, c0, Create);
      c := Enqueues(n, threads, c1, i - 1, Pushed);
      TurnsSnoc(n, i - 1);
    }
  }

  lemma NobodyLinks(s: State, threads: nat, other: Producer)
    requires s.producers == seq(threads, t => if t == 1 then other else Out) && !other.Linking?
    ensures !SomeLinking(s)
  {
  }

  /** Task 0 has its first turn; thread 1 wakes it meanwhile, slowly, so that it continues in vain. */
  lemma FirstTurn(n: nat, threads: nat) returns (c: Conf)
    requires 2 <= n && 2 <= threads
    ensures Rests(n, threads, c, Upgrading(0), Turns(n, 0, n), [0])
    ensures c.place == Between && c.s.created == n && AllSet(c.s.m.flags, n)
  {
    hide Reaches, Reals, SomeLinking;
    var c0 := Pushes(n, threads, n);
    NobodyLinks(c0.s, threads, Out);
    TurnsLength(n, 0, n);
    TurnsAt(n, 0, n, 0);
    var c1 := NextPoll(n, threads, c0);
    var c2 := Goes(n, threads, c1, Begin(1, 0, Woken));
    assert c2.s.producers == c1.s.producers[1 := Upgrading(0)];
    assert c2.s.m.flags == c0.s.m.flags;
    c := Goes(n, threads, c2, Begin(0, 0, Continued));
  }

  /** The other tasks have their first turns; task 0 is still not back in the queue. */
  lemma {:induction false} FirstTurns(n: nat, threads: nat, j: nat) returns (c: Conf)
    requires 2 <= n && 2 <= threads && 1 <= j <= n
    ensures Rests(n, threads, c, Upgrading(0), Turns(n, 0, n) + Turns(n, 1, j - 1), Turns(n, 0, j))
    ensures c.place == Between && c.s.created == n && AllSet(c.s.m.flags, n)
  {
    hide Reaches, Reals, SomeLinking;
    if j == 1 {
      c := FirstTurn(n, threads);
      assert Turns(n, 0, n) + Turns(n, 1, 0) == Turns(n, 0, n);
      TurnsSnoc(n, 0);
    } else {
      var c0 := FirstTurns(n, threads, j - 1);
      NobodyLinks(c0.s, threads, Upgrading(0));
      TurnsLength(n, 0, n);
      TurnsLength(n, 1, j - 2);
      TurnsLength(n, 0, j - 1);
      TurnsAt(n, 0, n, j - 1);
      var c1 := NextPoll(n, threads, c0);
      c := Enqueues(n, threads, c1, j - 1, Continued);
      TurnsSnoc(n, j - 1);
      assert Turns(n, 1, j - 1) == Turns(n, 1, j - 2) + [j - 1];
      assert c.s.m.flags == c0.s.m.flags;
    }
  }

  /**
   With two tasks and another thread that wakes, tasks that are always ready need not take turns: after every task
   had its first turn, task 1 has its second turn before task 0.
   */
  lemma OutOfTurn(n: nat, threads: nat) returns (run: seq<Action>)
    requires 2 <= n && 2 <= threads
    ensures Lawful(n, threads, true, run)
    ensures Exec(Init(threads), run).h.delivered == Turns(n, 0, n) + [1] && !InTurn(n, threads, run)
  {
    hide Reals, SomeLinking, Lawful, Program, Exec, Inv, Turns;
    var c0 := FirstTurns(n, threads, n);
    NobodyLinks(c0.s, threads, Upgrading(0));
    TurnsLength(n, 0, n);
    TurnsLength(n, 1, n - 1);
    TurnsAt(n, 1, n - 1, 0);
    var c := NextPoll(n, threads, c0);
    run :| Lawful(n, threads, true, run) && Program(n, threads, run) == c;
    IsRun(n, threads, run);
    TooEarly(n, c.s.h.delivered);
  }

  lemma TooEarly(n: nat, delivered: seq<nat>)
    requires 2 <= n && delivered == Turns(n, 0, n) + [1]
    ensures delivered != Turns(n, 0, |delivered|)
  {
    TurnsLength(n, 0, n);
    TurnsSnoc(n, n);
    assert Whose(n, n) == 0;
    assert delivered[n] == 1 && Turns(n, 0, n + 1)[n] == 0;
  }

  /** Streams that are always ready take turns in every run, if and only if nobody can disturb them. */
  lemma InTurnIff(n: nat, threads: nat, wakes: bool)
    requires n > 0 && threads > 0
    ensures (forall run :: Lawful(n, threads, wakes, run) ==> InTurn(n, threads, run)) <==>
            (n == 1 || threads == 1 || !wakes)
  {
    hide Lawful, InTurn;
    if n == 1 || threads == 1 || !wakes {
      forall run | Lawful(n, threads, wakes, run)
        ensures InTurn(n, threads, run)
      {
        if n == 1 {
          OneInTurn(threads, wakes, run);
        } else {
          OrderlyRun(n, threads, wakes, run);
        }
      }
    } else {
      var run := OutOfTurn(n, threads);
    }
  }
}
