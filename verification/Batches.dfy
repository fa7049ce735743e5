/** The polls of one `poll_next`, and what they leave of the list. */
module Batches {
  import opened Wrappers
  import opened Protocol
  import opened ProtocolRuns
  import opened ProtocolTheorems
  import opened ProtocolWakeups
  import opened Lists
  import opened Cursors
  import opened Tasks

  /** What `poll_next` returns, or that it unwinds. */
  datatype Answer<+V> = Ready(item: Option<V>) | Pending | Unwinding

  /** The answer that a poll gives `poll_next`, unless the loop goes on. */
  function AnswerOf<V>(turn: Turn<V>): Option<Answer<V>> {
    if Unwound(turn) then Some(Unwinding)
    else match Output(turn)
      case Some(v) => Some(Ready(Some(v)))
      case None => None
  }

  /** The loop goes on after each of these polls. */
  ghost predicate Quiet<V>(batch: seq<Poll<V>>) {
    forall i :: 0 <= i < |batch| ==> AnswerOf(batch[i].turn) == None
  }

  /** The answer is the first output or panic; without one, it is whether tasks are left. */
  ghost predicate Answers<V>(answer: Answer<V>, batch: seq<Poll<V>>, empty: bool) {
    if answer.Unwinding? || (answer.Ready? && answer.item.Some?) then
      batch != [] && Quiet(batch[..|batch| - 1]) && AnswerOf(batch[|batch| - 1].turn) == Some(answer)
    else
      Quiet(batch) && (answer == Ready(None) <==> empty)
  }

  /** The last of the polls decides what is returned, if that is decided. */
  ghost predicate Decided<V>(batch: seq<Poll<V>>, output: Option<Answer<V>>) {
    if output.None? then Quiet(batch)
    else batch != [] && Quiet(batch[..|batch| - 1]) && AnswerOf(batch[|batch| - 1].turn) == output
  }

  lemma DecidedSnoc<V>(batch: seq<Poll<V>>, p: Poll<V>)
    requires Decided(batch, None)
    ensures Decided(batch + [p], AnswerOf(p.turn))
  {
    assert (batch + [p])[..|batch|] == batch;
  }

  lemma DecidedAnswers<V>(batch: seq<Poll<V>>, answer: Answer<V>, empty: bool)
    requires Decided(batch, Some(answer))
    ensures Answers(answer, batch, empty) && !Quiet(batch) && !answer.Pending?
  {
  }

  lemma QuietAnswers<V>(batch: seq<Poll<V>>)
    requires Decided(batch, None)
    ensures Quiet(batch) && Answers(Ready(None), batch, true) && Answers(Pending, batch, false)
  {
  }

  /** The answer by the outcomes of the polls: the last of them panics or has an output, or none of them does. */
  ghost predicate Told<V>(answer: Answer<V>, batch: seq<Poll<V>>, empty: bool) {
    && (forall i :: 0 <= i < |batch| - 1 ==>
          var o := batch[i].turn.outcome;
          o.Waits? || (o.Continues? && o.cont.Ignores?) || (o.Breaks? && o.end.Ignores?))
    && (answer.Unwinding? <==>
          && batch != []
          && var o := batch[|batch| - 1].turn.outcome;
             o.Panics? || (o.Continues? && o.cont.Unwinds?) || (o.Breaks? && o.end.Unwinds?))
    && (answer.Ready? && answer.item.Some? <==>
          && batch != []
          && var o := batch[|batch| - 1].turn.outcome;
             (o.Continues? && o.cont.Yields?) || (o.Breaks? && o.end.Yields?))
    && (answer.Ready? && answer.item.Some? ==>
          var o := batch[|batch| - 1].turn.outcome;
          answer.item.value == if o.Continues? then o.cont.value else o.end.value)
    && (answer == Ready(None) ==> empty)
    && (answer.Pending? ==> !empty)
  }

  lemma AnswerIsTold<V>(answer: Answer<V>, batch: seq<Poll<V>>, empty: bool)
    ensures Answers(answer, batch, empty) <==> Told(answer, batch, empty)
  {
    if Answers(answer, batch, empty) {
      forall i | 0 <= i < |batch| - 1
        ensures AnswerOf(batch[i].turn) == None
      {
        if answer.Unwinding? || (answer.Ready? && answer.item.Some?) {
          assert batch[..|batch| - 1][i] == batch[i];
        }
      }
    }
  }

  lemma NothingDecided<V>(start: seq<Node<Task<V>>>, arena: seq<Node<Task<V>>>)
    ensures Decided<V>([], None)
    ensures Batch(start, start, [], [], arena)
    ensures KeptOf<V>([], arena) == {}
  {
    BatchStart(start, arena);
  }

  /** Those of the dequeued nodes that are stored, in order. */
  function Present(served: seq<nat>, stored: set<nat>): seq<nat> {
    if served == [] then []
    else
      var n := served[|served| - 1];
      Present(served[..|served| - 1], stored) + if n in stored then [n] else []
  }

  ghost function Ids<T>(nodes: seq<Node<T>>): set<nat> {
    set m <- nodes :: m.id
  }

  /** The nodes of the tasks that ended in these polls. */
  ghost function Ended<V>(batch: seq<Poll<V>>, arena: seq<Node<Task<V>>>): set<Node<Task<V>>>
    requires forall p <- batch :: p.node < |arena|
  {
    set i | 0 <= i < |batch| && Ends(batch[i].turn) :: arena[batch[i].node]
  }

  /** The nodes whose `Removed` a transformation has kept in these polls. */
  ghost function KeptOf<V>(batch: seq<Poll<V>>, arena: seq<Node<Task<V>>>): set<Node<Task<V>>> {
    set i | 0 <= i < |batch| && Kept(batch[i].turn) && batch[i].node < |arena| :: arena[batch[i].node]
  }

  lemma KeptConcat<V>(a: seq<Poll<V>>, b: seq<Poll<V>>, arena: seq<Node<Task<V>>>)
    ensures KeptOf(a + b, arena) == KeptOf(a, arena) + KeptOf(b, arena)
  {
    var all := a + b;
    forall m
      ensures m in KeptOf(all, arena) <==> m in KeptOf(a, arena) || m in KeptOf(b, arena)
    {
      if m in KeptOf(a, arena) {
        var i :| 0 <= i < |a| && Kept(a[i].turn) && a[i].node < |arena| && m == arena[a[i].node];
        assert all[i] == a[i];
      }
      if m in KeptOf(b, arena) {
        var i :| 0 <= i < |b| && Kept(b[i].turn) && b[i].node < |arena| && m == arena[b[i].node];
        assert all[|a| + i] == b[i];
      }
      if m in KeptOf(all, arena) {
        var i :| 0 <= i < |all| && Kept(all[i].turn) && all[i].node < |arena| && m == arena[all[i].node];
        assert if i < |a| then all[i] == a[i] else all[i] == b[i - |a|];
      }
    }
  }

  lemma KeptOne<V>(p: Poll<V>, arena: seq<Node<Task<V>>>)
    requires p.node < |arena|
    ensures KeptOf([p], arena) == if Kept(p.turn) then {arena[p.node]} else {}
  {
    assert [p][0] == p;
    assert Kept(p.turn) ==> arena[p.node] in KeptOf([p], arena);
  }

  /** More nodes in the arena make no difference to the polls so far. */
  lemma KeptFrame<V>(batch: seq<Poll<V>>, arena: seq<Node<Task<V>>>, arena': seq<Node<Task<V>>>)
    requires arena <= arena' && forall i :: 0 <= i < |batch| ==> batch[i].node < |arena|
    ensures KeptOf(batch, arena') == KeptOf(batch, arena)
  {
  }

  /** The number of a node is its place in the arena. */
  ghost predicate Placed<V>(nodes: seq<Node<Task<V>>>, arena: seq<Node<Task<V>>>) {
    && (forall i :: 0 <= i < |arena| ==> arena[i].id == i)
    && (forall m <- nodes :: m.id < |arena| && arena[m.id] == m)
  }

  /** Of the dequeued nodes the stored ones are polled, in that order; the tasks that end are taken from the list. */
  ghost predicate Batch<V>(start: seq<Node<Task<V>>>, nodes: seq<Node<Task<V>>>, served: seq<nat>, batch: seq<Poll<V>>,
                           arena: seq<Node<Task<V>>>) {
    && Nodes(batch) == Present(served, Ids(start))
    && (forall p <- batch :: p.node < |arena|)
    && nodes == Keep(start, Ended(batch, arena))
  }

  lemma BatchStart<V>(start: seq<Node<Task<V>>>, arena: seq<Node<Task<V>>>)
    ensures Batch(start, start, [], [], arena)
  {
    ghost var none: seq<Poll<V>> := [];
    assert Ended(none, arena) == {};
    KeepAll(start, {});
  }

  lemma PresentSnoc(served: seq<nat>, n: nat, stored: set<nat>)
    ensures Present(served + [n], stored) == Present(served, stored) + if n in stored then [n] else []
  {
    assert (served + [n])[..|served|] == served;
  }

  lemma {:induction false} PresentMembers(served: seq<nat>, stored: set<nat>)
    ensures forall n <- Present(served, stored) :: n in served && n in stored
  {
    if served != [] {
      PresentMembers(served[..|served| - 1], stored);
    }
  }

  lemma {:induction false} NodesAt<V>(batch: seq<Poll<V>>, i: nat)
    requires i < |batch|
    ensures |Nodes(batch)| == |batch| && Nodes(batch)[i] == batch[i].node
  {
    if i < |batch| - 1 {
      NodesAt(batch[..|batch| - 1], i);
    } else if |batch| > 1 {
      NodesAt(batch[..|batch| - 1], 0);
    }
  }

  lemma {:induction false} NodesConcat<V>(a: seq<Poll<V>>, b: seq<Poll<V>>)
    ensures Nodes(a + b) == Nodes(a) + Nodes(b)
  {
    if b == [] {
      assert a + b == a;
    } else {
      assert (a + b)[..|a + b| - 1] == a + b[..|b| - 1];
      NodesConcat(a, b[..|b| - 1]);
    }
  }

  lemma {:induction false} NodesLength<V>(batch: seq<Poll<V>>)
    ensures |Nodes(batch)| == |batch|
  {
    if batch != [] {
      NodesLength(batch[..|batch| - 1]);
    }
  }

  /** Whoever was flagged still is, or was polled since. */
  ghost predicate Heard<V>(flags: set<nat>, after: set<nat>, batch: seq<Poll<V>>) {
    forall n <- flags :: n in after || exists i :: 0 <= i < |batch| && batch[i].node == n
  }

  /** In a run, what is released is what is polled, so no flag is lost. */
  lemma FlagsAreHeard<V>(threads: nat, log: seq<Action>, whole: seq<Action>, polls: seq<Poll<V>>, batch: seq<Poll<V>>)
    requires log <= whole
    requires Nodes(polls) == Exec(Init(threads), log).h.released
    requires Nodes(polls + batch) == Exec(Init(threads), whole).h.released
    ensures Heard(Exec(Init(threads), log).m.flags, Exec(Init(threads), whole).m.flags, batch)
  {
    hide Exec;
    var s, r := Exec(Init(threads), log), Exec(Init(threads), whole);
    var later := whole[|log|..];
    assert whole == log + later;
    ExecConcat(Init(threads), log, later);
    NodesConcat(polls, batch);
    NodesLength(batch);
    forall n | n in s.m.flags && n !in r.m.flags
      ensures exists i :: 0 <= i < |batch| && batch[i].node == n
    {
      WakeIsServed(s, later, n);
      assert r.h.released[|s.h.released|..] == Nodes(batch);
      var i :| 0 <= i < |Nodes(batch)| && Nodes(batch)[i] == n;
      NodesAt(batch, i);
    }
  }

  lemma {:induction false} KeepKeep<T>(s: seq<T>, a: set<T>, b: set<T>)
    ensures Keep(Keep(s, a), b) == Keep(s, a + b)
  {
    if s != [] {
      KeepKeep(s[1..], a, b);
      if s[0] in a {
        assert Keep(s, a) == Keep(s[1..], a);
      } else {
        assert Keep(s, a)[1..] == Keep(s[1..], a);
      }
    }
  }

  /** A node not dequeued before in this call is stored exactly when it was at the start. */
  lemma StillStored<V>(start: seq<Node<Task<V>>>, nodes: seq<Node<Task<V>>>, served: seq<nat>, batch: seq<Poll<V>>,
                       arena: seq<Node<Task<V>>>, n: nat)
    requires Batch(start, nodes, served, batch, arena) && Placed(start, arena)
    requires n < |arena| && n !in served
    ensures arena[n] in nodes <==> n in Ids(start)
  {
    if arena[n] in Ended(batch, arena) {
      var i :| 0 <= i < |batch| && arena[n] == arena[batch[i].node];
      assert batch[i] in batch;
      NodesAt(batch, i);
      PresentMembers(served, Ids(start));
      assert false;
    }
    KeepMember(start, Ended(batch, arena), arena[n]);
    if n in Ids(start) {
      var m :| m in start && m.id == n;
    }
  }

  lemma BatchSkip<V>(start: seq<Node<Task<V>>>, nodes: seq<Node<Task<V>>>, served: seq<nat>, batch: seq<Poll<V>>,
                     arena: seq<Node<Task<V>>>, n: nat)
    requires Batch(start, nodes, served, batch, arena) && n !in Ids(start)
    ensures Batch(start, nodes, served + [n], batch, arena)
  {
    PresentSnoc(served, n, Ids(start));
  }

  lemma BatchPoll<V>(start: seq<Node<Task<V>>>, nodes: seq<Node<Task<V>>>, served: seq<nat>, batch: seq<Poll<V>>,
                     arena: seq<Node<Task<V>>>, p: Poll<V>, after: seq<Node<Task<V>>>)
    requires Batch(start, nodes, served, batch, arena)
    requires p.node in Ids(start) && p.node < |arena|
    requires after == if Ends(p.turn) then Keep(nodes, {arena[p.node]}) else nodes
    ensures Batch(start, after, served + [p.node], batch + [p], arena)
  {
    PresentSnoc(served, p.node, Ids(start));
    Counted(batch, p, 0);
    EndedSnoc(batch, p, arena);
    if Ends(p.turn) {
      KeepKeep(start, Ended(batch, arena), {arena[p.node]});
    } else {
      assert Ended(batch + [p], arena) == Ended(batch, arena);
    }
  }

  lemma BatchMembers<V>(start: seq<Node<Task<V>>>, nodes: seq<Node<Task<V>>>, served: seq<nat>, batch: seq<Poll<V>>,
                        arena: seq<Node<Task<V>>>)
    requires Batch(start, nodes, served, batch, arena)
    ensures forall i :: 0 <= i < |nodes| ==> nodes[i] in start
  {
    forall i | 0 <= i < |nodes|
      ensures nodes[i] in start
    {
      KeepMember(start, Ended(batch, arena), nodes[i]);
    }
  }

  lemma EndedSnoc<V>(batch: seq<Poll<V>>, p: Poll<V>, arena: seq<Node<Task<V>>>)
    requires forall q <- batch :: q.node < |arena|
    requires p.node < |arena|
    ensures Ended(batch + [p], arena) == Ended(batch, arena) + if Ends(p.turn) then {arena[p.node]} else {}
  {
    var all := batch + [p];
    forall m
      ensures m in Ended(all, arena) <==> m in Ended(batch, arena) || (Ends(p.turn) && m == arena[p.node])
    {
      if m in Ended(batch, arena) {
        var i :| 0 <= i < |batch| && Ends(batch[i].turn) && m == arena[batch[i].node];
        assert all[i] == batch[i];
      }
      assert all[|batch|] == p;
    }
  }

  /** The polls of one call are polls of different tasks. */
  lemma {:induction false} PresentDistinct(served: seq<nat>, stored: set<nat>)
    requires Distinct(served)
    ensures Distinct(Present(served, stored))
  {
    if served != [] {
      var rest := served[..|served| - 1];
      PresentDistinct(rest, stored);
      PresentMembers(rest, stored);
    }
  }

  /** At most one poll for each task, and only of tasks that were stored when the call began. */
  lemma EachOnce<V>(start: seq<Node<Task<V>>>, nodes: seq<Node<Task<V>>>, served: seq<nat>, batch: seq<Poll<V>>,
                    arena: seq<Node<Task<V>>>)
    requires Batch(start, nodes, served, batch, arena) && Distinct(served)
    ensures forall i, j :: 0 <= i < j < |batch| ==> batch[i].node != batch[j].node
    ensures forall i :: 0 <= i < |batch| ==> batch[i].node in served && batch[i].node in Ids(start)
  {
    PresentDistinct(served, Ids(start));
    PresentMembers(served, Ids(start));
    forall i, j | 0 <= i < j < |batch|
      ensures batch[i].node != batch[j].node
    {
      NodesAt(batch, i);
      NodesAt(batch, j);
    }
    forall i | 0 <= i < |batch|
      ensures batch[i].node in served && batch[i].node in Ids(start)
    {
      NodesAt(batch, i);
    }
  }

  /**
   A call that gets to the end of its snapshot, unless it answers, polls the first node of the snapshot if that is
   stored.
   */
  lemma FirstIsPolled<V>(start: seq<Node<Task<V>>>, nodes: seq<Node<Task<V>>>, snapshot: seq<nat>, k: nat,
                         batch: seq<Poll<V>>, arena: seq<Node<Task<V>>>)
    requires k <= |snapshot| && Batch(start, nodes, snapshot[..k], batch, arena) && (Quiet(batch) ==> k == |snapshot|)
    requires snapshot != [] && snapshot[0] in Ids(start)
    ensures batch != [] && batch[0].node == snapshot[0]
  {
    var stored := Ids(start);
    if k == 0 {
      assert Present(snapshot[..k], stored) == [];
      NodesLength(batch);
    } else {
      PresentFirst(snapshot[..k], stored);
      NodesLength(batch);
      NodesAt(batch, 0);
    }
  }

  lemma {:induction false} PresentFirst(served: seq<nat>, stored: set<nat>)
    requires served != [] && served[0] in stored
    ensures Present(served, stored) != [] && Present(served, stored)[0] == served[0]
  {
    if |served| > 1 {
      PresentFirst(served[..|served| - 1], stored);
    }
  }

  // ---------- outputs ----------

  lemma {:induction false} QuietHasNoOutput<V>(batch: seq<Poll<V>>)
    requires Quiet(batch)
    ensures Outputs(batch) == []
  {
    if batch != [] {
      var rest := batch[..|batch| - 1];
      assert forall i :: 0 <= i < |rest| ==> rest[i] == batch[i];
      QuietHasNoOutput(rest);
      assert AnswerOf(batch[|batch| - 1].turn) == None;
    }
  }

  /** No output is lost between a poll and the answer: a call returns the output of its polls, one at most. */
  lemma AnswerIsOutput<V>(answer: Answer<V>, batch: seq<Poll<V>>, empty: bool)
    requires Answers(answer, batch, empty)
    ensures if answer.Ready? && answer.item.Some? then
              batch != [] && Outputs(batch) == [(batch[|batch| - 1].node, answer.item.value)]
            else
              Outputs(batch) == []
  {
    if answer.Unwinding? || (answer.Ready? && answer.item.Some?) {
      QuietHasNoOutput(batch[..|batch| - 1]);
    } else {
      QuietHasNoOutput(batch);
    }
  }

  /** The values alone. */
  function Values<V>(outputs: seq<(nat, V)>): seq<V> {
    if outputs == [] then [] else Values(outputs[..|outputs| - 1]) + [outputs[|outputs| - 1].1]
  }

  /** The value that an answer carries. */
  function Item<V>(answer: Answer<V>): seq<V> {
    if answer.Ready? && answer.item.Some? then [answer.item.value] else []
  }

  /** The values returned so far are the outputs so far. */
  lemma AnswersGrow<V>(polls: seq<Poll<V>>, batch: seq<Poll<V>>, answer: Answer<V>, empty: bool)
    requires Answers(answer, batch, empty)
    ensures Values(Outputs(polls + batch)) == Values(Outputs(polls)) + Item(answer)
  {
    AnswerIsOutput(answer, batch, empty);
    OutputsConcat(polls, batch);
    if answer.Ready? && answer.item.Some? {
      var x := (batch[|batch| - 1].node, answer.item.value);
      assert (Outputs(polls) + [x])[..|Outputs(polls)|] == Outputs(polls);
    } else {
      assert Outputs(polls) + [] == Outputs(polls);
    }
  }
}
