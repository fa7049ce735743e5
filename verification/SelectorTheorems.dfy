/** The promises of the selector for whole runs, drawn from what every call keeps. */
module SelectorTheorems {
  import opened Protocol
  import opened ProtocolRuns
  import opened ProtocolTheorems
  import opened ProtocolWakeups
  import opened Lists
  import opened Tasks
  import opened Batches
  import opened Queues
  import opened Selectors

  // ---------- polled only for a reason ----------

  function WakesOf(requests: seq<Request>, n: nat): nat {
    multiset(requests)[Request(n, Woken)]
  }

  lemma {:induction false} AskedByCause(requests: seq<Request>, n: nat)
    ensures Asked(requests, n) ==
      multiset(requests)[Request(n, Pushed)] + multiset(requests)[Request(n, Continued)]
      + multiset(requests)[Request(n, Woken)]
  {
    if requests != [] {
      var rest, x := requests[..|requests| - 1], requests[|requests| - 1];
      AskedByCause(rest, n);
      assert requests == rest + [x];
      assert multiset(requests) == multiset(rest) + multiset{x};
      match x.cause
      case Pushed =>
      case Continued =>
      case Woken =>
    }
  }

  lemma {:induction false} TimesPolled<V>(polls: seq<Poll<V>>, n: nat)
    ensures Times(Nodes(polls), n) == PollsOf(polls, n)
  {
    if polls != [] {
      var rest, p := polls[..|polls| - 1], polls[|polls| - 1];
      TimesPolled(rest, n);
      assert Nodes(polls)[..|Nodes(polls)| - 1] == Nodes(rest);
    }
  }

  /** A task is polled at most once for its push, for each of its Continues and for each of its wakes. */
  lemma PolledForAReason<V>(selector: Selector<V>, n: nat)
    requires selector.Valid()
    ensures PollsOf(selector.polls, n) <=
      1 + ContinuesOf(selector.polls, n) + WakesOf(selector.queue.h.requests, n)
  {
    hide selector.Shelf, selector.Buried, Shape, Links, Owers, Places, Pcs, Delivered, Gaps, Wakes, Parked;
    var h := selector.queue.h;
    TimesPolled(selector.polls, n);
    AskedByCause(h.requests, n);
    assert multiset(h.requests)[Request(n, Pushed)] <= 1;
    assert Reasons(selector.queue.View());
  }

  // ---------- from one moment to a later one ----------

  /**
   No wake of a stored task is swallowed. A task whose flag is set at some moment has been polled
   by a later one, unless it is then still in the queue, on its way there, or just dequeued;
   or it was removed, and dropped from the queue as such.
   */
  lemma WakeLeadsToPoll<V>(threads: nat, log: seq<Action>, whole: seq<Action>, polls: seq<Poll<V>>, batch: seq<Poll<V>>,
                           n: nat)
    requires log <= whole && n in Exec(Init(threads), log).m.flags
    requires Nodes(polls) == Exec(Init(threads), log).h.released
    requires Nodes(polls + batch) == Exec(Init(threads), whole).h.released
    ensures var r := Exec(Init(threads), whole);
      || (exists i :: 0 <= i < |batch| && batch[i].node == n)
      || Queued(r, Real(n)) || Carried(r, n) || r.consumer == Holding(n) || n in r.h.retired
  {
    hide Inv, Exec;
    FlagsAreHeard(threads, log, whole, polls, batch);
    InvInit(threads);
    InvExec(Init(threads), whole);
    FlaggedIsSomewhere(Exec(Init(threads), whole), n);
  }

  /** At rest, a stored task whose flag is set is in the queue or on its way there, so it will be dequeued. */
  lemma StoredIsQueued<V>(selector: Selector<V>, n: nat)
    requires selector.Valid() && n in selector.queue.flags
    requires n < |selector.arena| && selector.arena[n] in selector.list.nodes
    ensures Queued(selector.queue.View(), Real(n)) || Carried(selector.queue.View(), n)
  {
    hide selector.Buried, Books, Inv;
    FlaggedIsSomewhere(selector.queue.View(), n);
  }

  lemma {:induction false} TimesConcat(a: seq<nat>, b: seq<nat>, n: nat)
    ensures Times(a + b, n) == Times(a, n) + Times(b, n)
  {
    if b == [] {
      assert a + b == a;
    } else {
      assert (a + b)[..|a + b| - 1] == a + b[..|b| - 1];
      TimesConcat(a, b[..|b| - 1], n);
    }
  }

  lemma {:induction false} TimesAbsent(log: seq<nat>, n: nat)
    requires n !in log
    ensures Times(log, n) == 0
  {
    if log != [] {
      TimesAbsent(log[..|log| - 1], n);
    }
  }

  lemma {:induction false} TimesOnce(log: seq<nat>, n: nat)
    requires forall i, j :: 0 <= i < j < |log| ==> log[i] != n || log[j] != n
    ensures Times(log, n) <= 1
  {
    if log != [] {
      var rest := log[..|log| - 1];
      if log[|log| - 1] == n {
        TimesAbsent(rest, n);
      } else {
        TimesOnce(rest, n);
      }
    }
  }

  /**
   From the removal of a task on its node is dequeued at most once more, however often it is woken. The two moments
   are given by their logs; that the selector's calls keep a task that is not stored out is `StaysOut`.
   */
  lemma RemovedIsDequeuedOnceMore<V>(threads: nat, log: seq<Action>, whole: seq<Action>, n: nat,
                                     arena: seq<Node<Task<V>>>, nodes: seq<Node<Task<V>>>, polls: seq<Poll<V>>,
                                     arena': seq<Node<Task<V>>>, nodes': seq<Node<Task<V>>>, polls': seq<Poll<V>>)
    requires log <= whole && StaysOut(arena, nodes, polls, arena', nodes', polls')
    requires Nodes(polls) == Exec(Init(threads), log).h.released
    requires Nodes(polls') == Exec(Init(threads), whole).h.released
    requires n < |arena| && arena[n] !in nodes
    ensures arena'[n] !in nodes' && PollsOf(polls', n) == PollsOf(polls, n)
    ensures Times(Exec(Init(threads), whole).h.delivered, n) <= Times(Exec(Init(threads), log).h.delivered, n) + 1
  {
    hide Exec, Returned;
    var batch := polls'[|polls|..];
    assert polls' == polls + batch;
    NotInNodes(batch, n);
    NodesConcat(polls, batch);
    TimesPolled(polls, n);
    TimesPolled(polls', n);
    TimesConcat(Nodes(polls), Nodes(batch), n);
    TimesAbsent(Nodes(batch), n);
    UnpolledIsDequeuedOnceMore(threads, log, whole, Nodes(batch), n);
  }

  lemma UnpolledIsDequeuedOnceMore(threads: nat, log: seq<Action>, whole: seq<Action>, released: seq<nat>, n: nat)
    requires log <= whole && n !in released
    requires Exec(Init(threads), whole).h.released == Exec(Init(threads), log).h.released + released
    ensures Times(Exec(Init(threads), whole).h.delivered, n) <= Times(Exec(Init(threads), log).h.delivered, n) + 1
  {
    hide Exec, Inv, Returned;
    var s := Exec(Init(threads), log);
    var later := whole[|log|..];
    assert whole == log + later;
    ExecConcat(Init(threads), log, later);
    InvInit(threads);
    InvExec(Init(threads), log);
    AtMostOnceMore(s, later, n);
    TimesOnce(Returned(s, later), n);
    RunHistory(s, later);
    TimesConcat(s.h.delivered, Returned(s, later), n);
  }

  lemma NotInNodes<V>(batch: seq<Poll<V>>, n: nat)
    requires forall i :: 0 <= i < |batch| ==> batch[i].node != n
    ensures n !in Nodes(batch)
  {
    NodesLength(batch);
    forall i | 0 <= i < |Nodes(batch)|
      ensures Nodes(batch)[i] != n
    {
      NodesAt(batch, i);
    }
  }

  /**
   Round robin on the log of polls: when a task is at hand again, every node that waited when it was at hand
   before has been polled since, or was found removed.
   */
  lemma RoundRobinOnPolls<V>(threads: nat, log: seq<Action>, whole: seq<Action>, polls: seq<Poll<V>>,
                             batch: seq<Poll<V>>, n: nat, m: nat)
    requires log <= whole && Exec(Init(threads), log).consumer == Exec(Init(threads), whole).consumer == Holding(n)
    requires Nodes(polls) == Exec(Init(threads), log).h.released
    requires Nodes(polls + batch) == Exec(Init(threads), whole).h.released
    requires var s := Exec(Init(threads), log);
      s.q.pos <= |s.q.chain| && m in Waiting(s) && |s.h.delivered| < |Exec(Init(threads), whole).h.delivered|
    ensures (exists i :: 0 <= i < |batch| && batch[i].node == m) || m in Exec(Init(threads), whole).h.retired
  {
    hide Exec, Inv, Returned;
    var s, r := Exec(Init(threads), log), Exec(Init(threads), whole);
    var later := whole[|log|..];
    assert whole == log + later;
    ExecConcat(Init(threads), log, later);
    InvInit(threads);
    InvExec(Init(threads), log);
    RunHistory(s, later);
    LastIsHeld(s, later);
    RoundRobinPolls(s, later, m);
    NodesConcat(polls, batch);
    assert r.h.released[|s.h.released|..] == Nodes(batch);
    if m in Nodes(batch) {
      NodesLength(batch);
      var i :| 0 <= i < |Nodes(batch)| && Nodes(batch)[i] == m;
      NodesAt(batch, i);
    }
  }

  /** What the consumer holds after a run is what it was handed last. */
  lemma {:induction false} LastIsHeld(s: State, run: seq<Action>)
    ensures Returned(s, run) != [] && Exec(s, run).consumer.Holding? ==>
      Returned(s, run)[|Returned(s, run)| - 1] == Exec(s, run).consumer.node
    decreases |run|
  {
    if run != [] {
      hide Step, Exec;
      var a, r := run[0], Step(s, run[0]);
      ExecCons(s, run);
      LastIsHeld(r, run[1..]);
      if ReturnedBy(s, a) != [] && Returned(r, run[1..]) == [] && Exec(s, run).consumer.Holding? {
        HeldSince(r, run[1..]);
        HandedOut(s, a);
      }
    }
  }

  lemma HandedOut(s: State, a: Action)
    ensures ReturnedBy(s, a) != [] ==> Step(s, a).consumer.Holding? && ReturnedBy(s, a) == [Step(s, a).consumer.node]
  {
  }

  /** Without a return the consumer holds nothing that it did not hold before. */
  lemma {:induction false} HeldSince(s: State, run: seq<Action>)
    requires Returned(s, run) == []
    ensures Exec(s, run).consumer.Holding? ==> Exec(s, run).consumer == s.consumer
    decreases |run|
  {
    if run != [] {
      hide Step, Exec;
      var a, r := run[0], Step(s, run[0]);
      ExecCons(s, run);
      HeldSince(r, run[1..]);
      NotHandedOut(s, a);
    }
  }

  lemma NotHandedOut(s: State, a: Action)
    requires ReturnedBy(s, a) == []
    ensures Step(s, a).consumer.Holding? ==> Step(s, a).consumer == s.consumer
  {
  }

  // ---------- outputs ----------

  /** What `poll_next` has returned over the whole run: task by task, it is what the tasks yielded. */
  lemma AnswersAreOutputs<V>(selector: Selector<V>, n: nat)
    requires selector.Valid() && n < |selector.scripts|
    ensures selector.answers == Values(Outputs(selector.polls))
    ensures OutputsOf(Outputs(selector.polls), n) == Produced(selector.scripts[n], PollsOf(selector.polls, n))
  {
    hide Sound, selector.Shelf, selector.Buried, selector.Accounts, Receiver.Valid, Parked;
    BooksSound(selector.polls, selector.scripts, selector.queue.h, selector.queue.created);
    OutputsOfTask(selector.polls, selector.scripts, n);
  }

  /** The outputs that come from task n. */
  function OutputsOf<V>(outputs: seq<(nat, V)>, n: nat): seq<V> {
    if outputs == [] then []
    else
      var x := outputs[|outputs| - 1];
      OutputsOf(outputs[..|outputs| - 1], n) + if x.0 == n then [x.1] else []
  }

  /** What a task yields in its first `count` polls. */
  function Produced<V>(turn: nat -> Turn<V>, count: nat): seq<V> {
    if count == 0 then []
    else Produced(turn, count - 1) + match Output(turn(count - 1)) case Some(v) => [v] case None => []
  }

  /** End to end: among all outputs, those of one task are what that task has yielded so far, in its order. */
  lemma {:induction false} OutputsOfTask<V>(polls: seq<Poll<V>>, scripts: seq<nat -> Turn<V>>, n: nat)
    requires Sound(polls, scripts) && n < |scripts|
    ensures OutputsOf(Outputs(polls), n) == Produced(scripts[n], PollsOf(polls, n))
  {
    hide Sound, OutputsOf;
    if polls == [] {
      NoOutputs<V>(n);
    } else {
      var rest, p := polls[..|polls| - 1], polls[|polls| - 1];
      LastIsNext(polls, scripts);
      OutputsOfTask(rest, scripts, n);
      match Output(p.turn)
      case Some(v) => OutputsSnoc(Outputs(rest), (p.node, v), n);
      case None => assert Outputs(polls) == Outputs(rest);
    }
  }

  lemma NoOutputs<V>(n: nat)
    ensures OutputsOf<V>([], n) == []
  {
  }

  /** The last poll of a log is the next turn of its task after the polls before. */
  lemma LastIsNext<V>(polls: seq<Poll<V>>, scripts: seq<nat -> Turn<V>>)
    requires Sound(polls, scripts) && polls != []
    ensures var rest, p := polls[..|polls| - 1], polls[|polls| - 1];
      Sound(rest, scripts) && p.node < |scripts| && p.turn == scripts[p.node](PollsOf(rest, p.node))
  {
    SoundPrefix(polls, scripts, |polls| - 1);
    assert SoundAt(polls, scripts, |polls| - 1);
  }

  lemma OutputsSnoc<V>(outputs: seq<(nat, V)>, x: (nat, V), n: nat)
    ensures OutputsOf(outputs + [x], n) == OutputsOf(outputs, n) + if x.0 == n then [x.1] else []
  {
    assert (outputs + [x])[..|outputs|] == outputs;
  }

  lemma SoundPrefix<V>(polls: seq<Poll<V>>, scripts: seq<nat -> Turn<V>>, k: nat)
    requires Sound(polls, scripts) && k <= |polls|
    ensures Sound(polls[..k], scripts)
  {
    forall j | 0 <= j < k
      ensures SoundAt(polls[..k], scripts, j)
    {
      assert SoundAt(polls, scripts, j);
      assert polls[..k][..j] == polls[..j];
    }
  }
}
