/**
 The first example of the repository's README: streams that are always ready take turns, whatever they
 wake while they are polled, unless another thread wakes one of them. That it must not is
 `InTurnIff` in module TurnTaking.
 */
module RoundRobins {
  import opened Wrappers
  import opened Protocol
  import opened ProtocolTheorems
  import opened ProtocolWakeups
  import opened Queues
  import opened Lists
  import opened Cursors
  import opened Tasks
  import opened Batches
  import opened Snapshots
  import opened SoleThread
  import opened Selectors
  import opened SelectorTheorems
  import opened Strategies
  import opened TurnOrders

  /** A stream that has an item whenever it is polled, and what it wakes when it is polled or dropped. */
  datatype Source<V> = Source(items: nat -> V, wakes: nat -> seq<nat>, dropWakes: nat -> seq<nat>)

  function Ready<V>(source: Source<V>): nat -> Step<V> {
    (k: nat) => Step(source.wakes(k), Item(source.items(k)), source.dropWakes(k))
  }

  function ReadyPoll<V>(source: Source<V>, k: nat): Turn<V> {
    Turn(source.wakes(k), Continues(Yields(source.items(k))), [], source.dropWakes(k))
  }

  /** One delivery, one enqueue. */
  lemma Rotated(delivered: seq<nat>, waiting: seq<nat>, after: seq<nat>, t: nat)
    requires waiting != [] && (delivered + waiting[..1]) + after == (delivered + waiting) + [t]
    ensures after == waiting[1..] + [t]
  {
    var d := |delivered| + 1;
    assert after == ((delivered + waiting[..1]) + after)[d..];
    assert waiting[1..] + [t] == ((delivered + waiting) + [t])[d..];
  }

  lemma {:induction false} AllPresent(served: seq<nat>, stored: set<nat>)
    requires forall n <- served :: n in stored
    ensures Present(served, stored) == served
  {
    if served != [] {
      AllPresent(served[..|served| - 1], stored);
    }
  }

  /** When the first task yields, the call ends with its output. */
  lemma OnePoll<V>(answer: Answer<V>, batch: seq<Poll<V>>, empty: bool, v: V)
    requires Answers(answer, batch, empty)
    requires batch != [] && batch[0].turn.outcome == Continues(Yields(v))
    ensures |batch| == 1 && answer == Answer.Ready(Some(v)) && !Quiet(batch)
  {
    assert AnswerOf(batch[0].turn) == Some(Answer.Ready(Some(v)));
    assert batch[..|batch|] == batch;
    NotQuiet(batch, |batch|);
    NotQuiet(batch, |batch| - 1);
  }

  lemma NotQuiet<V>(batch: seq<Poll<V>>, k: nat)
    requires batch != [] && k <= |batch| && AnswerOf(batch[0].turn).Some?
    ensures k > 0 ==> !Quiet(batch[..k])
  {
    if k > 0 {
      assert batch[..k][0] == batch[0];
    }
  }

  lemma ReadyTurn<V>(source: Source<V>, j: nat)
    ensures StreamBasic(Ready(source))(j) == ReadyPoll(source, j)
  {
    var step := Ready(source)(j);
    assert StreamProgress(step.next) == Some(Continue(source.items(j)));
    assert StreamBasic(Ready(source))(j)
        == Turned(step, StreamProgress, (item: V) => Some(item), (_: ()) => None, false);
  }

  /** All tasks are ready: the call polls the one whose turn it is, and no other. */
  lemma FirstPoll<V>(polls: seq<Poll<V>>, batch: seq<Poll<V>>, scripts: seq<nat -> Turn<V>>, streams: seq<Source<V>>,
                     i: nat)
    requires ReadyScripts(scripts, streams) && Sound(polls + batch, scripts) && Nodes(polls) == Turns(|streams|, 0, i)
    requires batch != [] && batch[0].node == Whose(i, |streams|)
    ensures batch[0].turn == ReadyPoll(streams[Whose(i, |streams|)], Round(i, |streams|))
  {
    hide StreamBasic, Ready;
    var t, n := Whose(i, |streams|), |streams|;
    var all := polls + batch;
    assert SoundAt(all, scripts, |polls|);
    assert all[|polls|] == batch[0] && all[..|polls|] == polls;
    TimesPolled(polls, t);
    TurnsOf(n, i, t);
    ReadyTurn(streams[t], Round(i, n));
  }

  /** Everything that is dequeued is polled: something is. */
  lemma FirstServed<V>(arena: seq<Node<Task<V>>>, nodes: seq<Node<Task<V>>>, served: seq<nat>, batch: seq<Poll<V>>)
    requires Batch(arena, nodes, served, batch, arena) && Placed(arena, arena)
    requires forall n <- served :: n < |arena|
    ensures Nodes(batch) == served && |batch| == |served|
    ensures forall i :: 0 <= i < |batch| ==> batch[i].node == served[i]
  {
    forall n | n in served
      ensures n in Ids(arena)
    {
      assert arena[n] in arena && arena[n].id == n;
    }
    AllPresent(served, Ids(arena));
    NodesLength(batch);
    forall i | 0 <= i < |batch|
      ensures batch[i].node == served[i]
    {
      NodesAt(batch, i);
    }
  }

  lemma NothingEnded<V>(arena: seq<Node<Task<V>>>, nodes: seq<Node<Task<V>>>, served: seq<nat>, batch: seq<Poll<V>>)
    requires Batch(arena, nodes, served, batch, arena) && |batch| == 1
    requires batch[0].turn.outcome.Continues? && !Ends(batch[0].turn)
    ensures nodes == arena
  {
    var none: set<Node<Task<V>>> := {};
    assert Ended(batch, arena) == none;
    KeepAll(arena, none);
  }

  // ---------- the queue ----------

  lemma {:induction false} NobodyNew(ids: seq<nat>, flags: set<nat>, n: nat)
    requires AllSet(flags, n)
    ensures Entries(ids, flags, n) == [] && Raised(ids, flags, n) == flags
  {
    if ids != [] {
      assert ids[0] < n ==> flags + {ids[0]} == flags;
      NobodyNew(ids[1..], flags, n);
    }
  }

  /**
   When only one flag is clear, and its node is asked for, that node is enqueued and no other, whoever else is asked
   for.
   */
  lemma {:induction false} OnlyOneNew(ids: seq<nat>, t: nat, flags: set<nat>, n: nat)
    requires t < n && t in ids && t !in flags && AllSet(flags + {t}, n)
    ensures Entries(ids, flags, n) == [t] && Raised(ids, flags, n) == flags + {t}
  {
    if ids[0] == t {
      NobodyNew(ids[1..], flags + {t}, n);
    } else {
      assert ids[0] < n ==> ids[0] in flags + {t};
      assert ids[0] < n ==> flags + {ids[0]} == flags;
      OnlyOneNew(ids[1..], t, flags, n);
    }
  }

  /** A ready task that is polled goes to the end of the queue, by its own wake or because it continues. */
  lemma TurnReplayed<V>(s: State, r: State, t: nat, source: Source<V>, k: nat, n: nat)
    requires Replayed(s, r, [Poll(t, ReadyPoll(source, k))]) && AllSet(s.m.flags, n) && s.created == n && t < n
    ensures Reals(r.q.chain) == Reals(s.q.chain) + [t] && AllSet(r.m.flags, n)
  {
    var p := Poll(t, ReadyPoll(source, k));
    OnePollAppends(p, s.m.flags, n);
    var ids := Asks(p.turn, t);
    assert ids == source.wakes(k) + [t];
    var flags := s.m.flags - {t};
    assert flags + {t} == s.m.flags;
    OnlyOneNew(ids, t, flags, n);
  }

  ghost predicate ReadyScripts<V>(scripts: seq<nat -> Turn<V>>, streams: seq<Source<V>>) {
    && |scripts| == |streams| > 0
    && forall t :: 0 <= t < |streams| ==> scripts[t] == StreamBasic(Ready(streams[t]))
  }

  /** A call when all tasks are ready and the queue holds them in turn. */
  lemma OneTurn<V>(polls: seq<Poll<V>>, batch: seq<Poll<V>>, scripts: seq<nat -> Turn<V>>, streams: seq<Source<V>>,
                   i: nat, arena: seq<Node<Task<V>>>, nodes: seq<Node<Task<V>>>, k: nat, answer: Answer<V>, empty: bool)
    requires ReadyScripts(scripts, streams) && Sound(polls + batch, scripts) && Nodes(polls) == Turns(|streams|, 0, i)
    requires |arena| == |streams| && Placed(arena, arena) && k <= |Turns(|streams|, i, |streams|)|
    requires Batch(arena, nodes, Turns(|streams|, i, |streams|)[..k], batch, arena)
    requires Answers(answer, batch, empty) && (Quiet(batch) ==> k == |streams|)
    ensures k == 1 && answer == Answer.Ready(Some(streams[Whose(i, |streams|)].items(Round(i, |streams|))))
    ensures nodes == arena
    ensures batch == [Poll(Whose(i, |streams|), ReadyPoll(streams[Whose(i, |streams|)], Round(i, |streams|)))]
    ensures Nodes(polls + batch) == Turns(|streams|, 0, i + 1)
  {
    hide Batch, Answers, StreamBasic, Ready, Turns, Whose, Round, Placed, Nodes;
    var n := |streams|;
    var served := Turns(n, i, n)[..k];
    TurnsLength(n, i, n);
    assert forall t <- served :: t in Turns(n, i, n);
    FirstServed(arena, nodes, served, batch);
    TurnsRotate(n, i);
    FirstPoll(polls, batch, scripts, streams, i);
    OnePoll(answer, batch, empty, streams[Whose(i, n)].items(Round(i, n)));
    NothingEnded(arena, nodes, served, batch);
    NodesConcat(polls, batch);
    TurnsSnoc(n, i);
    assert Nodes(batch) == [Whose(i, n)];
  }

  /** Everything is stored and ready, and i outputs were taken. */
  ghost predicate Turning<V>(selector: Selector<V>, streams: seq<Source<V>>, i: nat)
    reads selector, selector.queue, selector.list, selector.list.nodes, selector.arena
  {
    && selector.Valid() && selector.queue.Alone() && ReadyScripts(selector.scripts, streams)
    && selector.list.nodes == selector.arena
    && Nodes(selector.polls) == Turns(|streams|, 0, i)
    && Waiting(selector.queue.View()) == Turns(|streams|, i, |streams|)
    && AllSet(selector.queue.flags, |streams|)
  }

  /** One `next().await` when all streams are ready. */
  method TakeOne<V>(selector: Selector<V>, streams: seq<Source<V>>, ghost i: nat) returns (v: V)
    requires Turning(selector, streams, i)
    modifies selector`polls, selector`answers, selector`parked, selector.queue, selector.list, selector.list.nodes
    ensures Turning(selector, streams, i + 1) && selector.list.nodes == old(selector.list.nodes)
    ensures v == streams[Whose(i, |streams|)].items(Round(i, |streams|))
  {
    hide Inv, Exec, Selector<V>.Shelf, Selector<V>.Buried, Books, Parked, Waiting, Reals;
    hide Batch, Answers, Quiet, AnswerOf, Sound, StreamBasic, Turns, Nodes, Whose, Round, Replayed, AllSet, StaysOut;
    hide Selector<V>.Accounts, Values, Outputs, Heard, ReadyPoll;
    ghost var polls, arena, n := selector.polls, selector.arena, |streams|;
    ghost var s := selector.queue.View();
    selector.ShelfIsPlaced(selector.queue.created, selector.queue.h.retired);
    BooksSound(polls, selector.scripts, selector.queue.h, selector.queue.created);
    TurnsLength(n, i, n);
    QueueSplits(s);
    var answer, snapshot, k, batch := selector.PollNext(0);
    BooksSound(selector.polls, selector.scripts, selector.queue.h, selector.queue.created);
    OneTurn(polls, batch, selector.scripts, streams, i, arena, selector.list.nodes, k, answer,
            selector.list.nodes == []);
    QueueSplits(selector.queue.View());
    TurnReplayed(s, selector.queue.View(), Whose(i, n), streams[Whose(i, n)], Round(i, n), n);
    Rotated(s.h.delivered, snapshot, Waiting(selector.queue.View()), Whose(i, n));
    TurnsRotate(n, i);
    v := answer.item.value;
  }

  /**
   The example: push the streams, then take outputs. Output number i is the next item of stream i modulo their number.
   */
  method Flatten<V>(streams: seq<Source<V>>, threads: nat, schedule: nat -> seq<Action>, count: nat)
    returns (outputs: seq<V>)
    requires streams != [] && threads > 0 && Wakeless(threads, schedule)
    ensures |outputs| == count
    ensures forall i :: 0 <= i < count ==> outputs[i] == streams[i % |streams|].items(i / |streams|)
  {
    hide Turning, Whose, Round, Wakeless;
    var selector := Filled(streams, threads, schedule);
    outputs := [];
    for i := 0 to count
      invariant fresh(selector) && fresh(selector.queue) && fresh(selector.list) && fresh(selector.list.nodes)
      invariant Turning(selector, streams, i) && |outputs| == i
      invariant forall j :: 0 <= j < i ==> outputs[j] == streams[Whose(j, |streams|)].items(Round(j, |streams|))
    {
      var v := TakeOne(selector, streams, i);
      outputs := outputs + [v];
    }
    forall i | 0 <= i < count
      ensures outputs[i] == streams[i % |streams|].items(i / |streams|)
    {
      WhoseIsModulo(i, |streams|);
    }
  }

  /** A selector with the streams pushed in order. */
  method Filled<V>(streams: seq<Source<V>>, threads: nat, schedule: nat -> seq<Action>) returns (selector: Selector<V>)
    requires streams != [] && threads > 0 && Wakeless(threads, schedule)
    ensures fresh(selector) && fresh(selector.queue) && fresh(selector.list) && fresh(selector.list.nodes)
    ensures Turning(selector, streams, 0)
  {
    hide Receiver.Valid, Inv, Exec, Selector<V>.Shelf, Selector<V>.Buried, Books, Parked, Reals, Turns, StreamBasic;
    hide Ready, Waiting;
    hide Wakeless;
    selector := new Selector(threads, schedule);
    StartsEmpty(threads);
    NoTurns(|streams|);
    for t := 0 to |streams|
      invariant fresh(selector) && fresh(selector.queue) && fresh(selector.list) && fresh(selector.list.nodes)
      invariant selector.Valid() && selector.queue.Alone() && selector.polls == []
      invariant |selector.scripts| == selector.queue.created == t
      invariant forall j :: 0 <= j < t ==> selector.scripts[j] == StreamBasic(Ready(streams[j]))
      invariant selector.list.nodes == selector.arena
      invariant selector.queue.h.delivered == [] && Reals(selector.queue.q.chain) == Turns(|streams|, 0, t)
      invariant AllSet(selector.queue.flags, t)
    {
      var node := selector.Push(StreamBasic(Ready(streams[t])));
      TurnsSnoc(|streams|, t);
    }
    QueueIs(selector);
  }

  lemma NoTurns(n: nat)
    requires n > 0
    ensures Turns(n, 0, 0) == []
  {
  }

  /** Nothing was delivered: everything swapped in waits. */
  lemma QueueIs<V>(selector: Selector<V>)
    requires selector.Valid() && selector.queue.h.delivered == []
    ensures Waiting(selector.queue.View()) == Reals(selector.queue.q.chain)
  {
    hide Inv, Exec, Selector<V>.Shelf, Selector<V>.Buried, Books, Parked, Reals, Waiting;
    QueueSplits(selector.queue.View());
  }
}
