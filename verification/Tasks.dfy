/**
 Tasks of the selector, and the log of their polls.

 A task is what its polls do, one after another: `turn(k)` is poll number k, with the
 `transform_*` call that follows it. Whatever a task does in one run, some function of the
 poll's number describes it, so nothing is assumed about tasks.
 */
module Tasks {
  import opened Wrappers

  /** What `transform_cont` or `transform_break` does with the value. */
  datatype Transform<+V> = Yields(value: V) | Ignores | Unwinds

  /** What `poll_progress` does. */
  datatype Outcome<+V> =
    | Waits
    | Panics
    | Continues(cont: Transform<V>)
    | Breaks(end: Transform<V>, kept: bool)     // kept: the `Removed` outlives `transform_break`

  /**
   A poll: the nodes woken in it, its outcome, and the nodes woken in the transformation and by the drop of the task.
   */
  datatype Turn<+V> = Turn(wakes: seq<nat>, outcome: Outcome<V>, lateWakes: seq<nat>, dropWakes: seq<nat>)

  datatype Task<V> = Task(turn: nat -> Turn<V>, age: nat)

  datatype Poll<+V> = Poll(node: nat, turn: Turn<V>)

  /** The task does not survive the poll. */
  predicate Ends<V>(turn: Turn<V>) {
    turn.outcome.Panics? || turn.outcome.Breaks? || turn.outcome == Continues(Unwinds)
  }

  /** The poll ends in a panic. */
  predicate Unwound<V>(turn: Turn<V>) {
    turn.outcome.Panics? || turn.outcome == Continues(Unwinds) || (turn.outcome.Breaks? && turn.outcome.end.Unwinds?)
  }

  function Output<V>(turn: Turn<V>): Option<V> {
    match turn.outcome
    case Continues(Yields(v)) => Some(v)
    case Breaks(Yields(v), _) => Some(v)
    case _ => None
  }

  /** The value outlives the poll although the task is no longer stored. */
  predicate Kept<V>(turn: Turn<V>) {
    turn.outcome.Breaks? && turn.outcome.kept
  }

  /** The nodes that are asked for after the poll itself, in order. */
  function Later<V>(turn: Turn<V>, n: nat): seq<nat> {
    match turn.outcome
    case Waits => []
    case Panics => turn.dropWakes
    case Continues(t) => [n] + turn.lateWakes + if t.Unwinds? then turn.dropWakes else []
    case Breaks(_, kept) => turn.lateWakes + if kept then [] else turn.dropWakes
  }

  /** The nodes that a poll of node n asks for: those it wakes, and n itself if the task continues. */
  function Asks<V>(turn: Turn<V>, n: nat): seq<nat> {
    turn.wakes + Later(turn, n)
  }

  lemma AsksByOutcome<V>(turn: Turn<V>, n: nat)
    ensures Asks(turn, n) ==
      match turn.outcome
      case Waits => turn.wakes
      case Panics => turn.wakes + turn.dropWakes
      case Continues(t) => turn.wakes + [n] + turn.lateWakes + (if t.Unwinds? then turn.dropWakes else [])
      case Breaks(_, kept) => turn.wakes + turn.lateWakes + (if kept then [] else turn.dropWakes)
  {
  }

  // ---------- the log ----------

  function Nodes<V>(polls: seq<Poll<V>>): seq<nat> {
    if polls == [] then [] else Nodes(polls[..|polls| - 1]) + [polls[|polls| - 1].node]
  }

  /** How often a node was polled. */
  function PollsOf<V>(polls: seq<Poll<V>>, n: nat): nat {
    if polls == [] then 0
    else PollsOf(polls[..|polls| - 1], n) + if polls[|polls| - 1].node == n then 1 else 0
  }

  /** How often a poll of a node returned Continue. */
  function ContinuesOf<V>(polls: seq<Poll<V>>, n: nat): nat {
    if polls == [] then 0
    else
      var p := polls[|polls| - 1];
      ContinuesOf(polls[..|polls| - 1], n) + if p.node == n && p.turn.outcome.Continues? then 1 else 0
  }

  /** The outputs of the polls, with the task each one comes from. */
  function Outputs<V>(polls: seq<Poll<V>>): seq<(nat, V)> {
    if polls == [] then []
    else
      var p := polls[|polls| - 1];
      Outputs(polls[..|polls| - 1]) + match Output(p.turn) case Some(v) => [(p.node, v)] case None => []
  }

  lemma {:induction false} OutputsConcat<V>(a: seq<Poll<V>>, b: seq<Poll<V>>)
    ensures Outputs(a + b) == Outputs(a) + Outputs(b)
  {
    if b == [] {
      assert a + b == a;
    } else {
      assert (a + b)[..|a + b| - 1] == a + b[..|b| - 1];
      OutputsConcat(a, b[..|b| - 1]);
    }
  }

  /** Poll number j is the next turn of a task that has not ended. */
  ghost predicate SoundAt<V>(polls: seq<Poll<V>>, scripts: seq<nat -> Turn<V>>, j: nat)
    requires j < |polls|
  {
    && polls[j].node < |scripts|
    && polls[j].turn == scripts[polls[j].node](PollsOf(polls[..j], polls[j].node))
    && (forall i :: 0 <= i < j && polls[i].node == polls[j].node ==> !Ends(polls[i].turn))
  }

  ghost predicate Sound<V>(polls: seq<Poll<V>>, scripts: seq<nat -> Turn<V>>) {
    forall j :: 0 <= j < |polls| ==> SoundAt(polls, scripts, j)
  }

  /** A poll is added to the log. */
  lemma Counted<V>(polls: seq<Poll<V>>, p: Poll<V>, n: nat)
    ensures Nodes(polls + [p]) == Nodes(polls) + [p.node]
    ensures PollsOf(polls + [p], n) == PollsOf(polls, n) + if p.node == n then 1 else 0
    ensures ContinuesOf(polls + [p], n) ==
            ContinuesOf(polls, n) + if p.node == n && p.turn.outcome.Continues? then 1 else 0
  {
    var all := polls + [p];
    assert all[..|all| - 1] == polls;
  }

  lemma Logged<V>(polls: seq<Poll<V>>, p: Poll<V>, scripts: seq<nat -> Turn<V>>)
    requires Sound(polls, scripts) && p.node < |scripts|
    requires p.turn == scripts[p.node](PollsOf(polls, p.node))
    requires forall i :: 0 <= i < |polls| && polls[i].node == p.node ==> !Ends(polls[i].turn)
    ensures Sound(polls + [p], scripts)
  {
    var all := polls + [p];
    forall j | 0 <= j < |all|
      ensures SoundAt(all, scripts, j)
    {
      if j < |polls| {
        assert SoundAt(polls, scripts, j);
        assert all[..j] == polls[..j];
      } else {
        assert all[..j] == polls;
      }
    }
  }

  /** More tasks leave the log sound. */
  lemma MoreScripts<V>(polls: seq<Poll<V>>, scripts: seq<nat -> Turn<V>>, more: seq<nat -> Turn<V>>)
    requires Sound(polls, scripts) && scripts <= more
    ensures Sound(polls, more)
  {
    forall j | 0 <= j < |polls|
      ensures SoundAt(polls, more, j)
    {
      assert SoundAt(polls, scripts, j);
    }
  }
}
