/** `examples/map.rs`: a map of streams, as an index over the tasks of a selector. */
module StreamMaps {
  import opened Wrappers
  import opened Protocol
  import opened ProtocolRuns
  import opened ProtocolTheorems
  import opened ProtocolWakeups
  import opened Queues
  import opened Lists
  import opened Cursors
  import opened Tasks
  import opened Batches
  import opened Snapshots
  import opened Selectors
  import opened SelectorTheorems
  import opened Strategies
  import opened MapItems

  /** The nodes of the map's tasks, what those tasks do, the polls of them, and what `poll_next` answers. */
  type Entry<K, I> = Node<Task<(K, Option<I>)>>
  type Script<K, I> = nat -> Turn<(K, Option<I>)>
  type Visit<K, I> = Poll<(K, Option<I>)>
  type Reply<K, I> = Answer<(K, Option<I>)>

  // ---------- NotifyEnd, lines 117-141 ----------

  /** The stream ended in one of its first `count` polls, so the key was taken. */
  predicate Taken<I>(stream: nat -> Step<I>, count: nat) {
    count > 0 && (Taken(stream, count - 1) || stream(count - 1).next.Finished?)
  }

  /** The items of the stream with the key, and the key alone at the end. */
  function Notify<K, I>(key: K, stream: nat -> Step<I>): nat -> Step<(K, Option<I>)> {
    (k: nat) =>
      if Taken(stream, k) then Step([], Finished, stream(k).dropWakes)
      else Step(stream(k).wakes,
        match stream(k).next
        case NotReady => NotReady
        case Item(item) => Item((key, Some(item)))
        case Finished => Item((key, None))
        case Panicking => Panicking,
        stream(k).dropWakes)
  }

  class NotifyEnd<K, I> {
    const name: K
    const stream: nat -> Step<I>
    var age: nat
    var key: Option<K>

    ghost predicate Valid()
      reads this
    {
      key == if Taken(stream, age) then None else Some(name)
    }

    constructor (name: K, stream: nat -> Step<I>)
      ensures Valid() && age == 0 && key == Some(name) && this.name == name && this.stream == stream
    {
      this.name, this.stream, age, key := name, stream, 0, Some(name);
    }

    method PollNext() returns (step: Step<(K, Option<I>)>)
      requires Valid()
      modifies this
      ensures Valid() && age == old(age) + 1
      ensures step == Notify(name, stream)(old(age))
      ensures step.wakes == (if old(key).Some? then stream(old(age)).wakes else [])
      ensures step.dropWakes == stream(old(age)).dropWakes
      ensures step.next ==
        if old(key).None? then Finished
        else match stream(old(age)).next
          case NotReady => NotReady
          case Item(item) => Item((name, Some(item)))
          case Finished => Item((name, None))
          case Panicking => Panicking
      ensures key == if stream(old(age)).next.Finished? then None else old(key)
    {
      var k := age;
      age := age + 1;
      match key
      case None =>
        step := Step([], Finished, stream(k).dropWakes);
      case Some(name) =>
        var polled := stream(k);
        match polled.next {
          case NotReady => step := Step(polled.wakes, NotReady, polled.dropWakes);
          case Item(item) => step := Step(polled.wakes, Item((name, Some(item))), polled.dropWakes);
          case Finished =>
            key := None;
            step := Step(polled.wakes, Item((name, None)), polled.dropWakes);
          case Panicking => step := Step(polled.wakes, Panicking, polled.dropWakes);
        }
    }
  }

  /** What a poll of the task makes the selector do. */
  lemma NotifyTurn<K, I>(key: K, stream: nat -> Step<I>, k: nat)
    ensures var turn := StreamBasic(Notify(key, stream))(k);
      && turn.wakes == (if Taken(stream, k) then [] else stream(k).wakes)
      && turn.lateWakes == [] && turn.dropWakes == stream(k).dropWakes
      && (Ends(turn) <==> Taken(stream, k) || stream(k).next.Panicking?)
      && (Unwound(turn) <==> !Taken(stream, k) && stream(k).next.Panicking?)
      && Output(turn) == (
           if Taken(stream, k) then None
           else match stream(k).next
             case Item(item) => Some((key, Some(item)))
             case Finished => Some((key, None))
             case _ => None)
  {
    var turn := StreamBasic(Notify(key, stream))(k);
    assert turn
        == Turned(Notify(key, stream)(k), StreamProgress, (item: (K, Option<I>)) => Some(item), (_: ()) => None, false);
  }

  function Named<K, I>(key: K, items: seq<I>): seq<(K, Option<I>)> {
    if items == [] then [] else Named(key, items[..|items| - 1]) + [(key, Some(items[|items| - 1]))]
  }

  /** The poll that ended the stream. */
  function EndOf<I>(stream: nat -> Step<I>, count: nat): (end: nat)
    requires Taken(stream, count)
    ensures end < count && !Taken(stream, end) && stream(end).next.Finished?
  {
    if Taken(stream, count - 1) then EndOf(stream, count - 1) else count - 1
  }

  lemma NotifyNext<K, I>(key: K, stream: nat -> Step<I>, k: nat)
    ensures Notify(key, stream)(k).next ==
      if Taken(stream, k) then Finished
      else match stream(k).next
        case NotReady => NotReady
        case Item(item) => Item((key, Some(item)))
        case Finished => Item((key, None))
        case Panicking => Panicking
  {
  }

  lemma NamedSnoc<K, I>(key: K, items: seq<I>, item: I)
    ensures Named(key, items + [item]) == Named(key, items) + [(key, Some(item))]
  {
    assert (items + [item])[..|items|] == items;
  }

  /** The task yields the items of the stream with the key, and once the key alone, when the stream has ended. */
  lemma {:induction false} NotifyItems<K, I>(key: K, stream: nat -> Step<I>, count: nat)
    ensures Items(Notify(key, stream), count) ==
      if Taken(stream, count) then Named(key, Items(stream, EndOf(stream, count))) + [(key, None)]
      else Named(key, Items(stream, count))
  {
    hide Notify, Named;
    if count == 0 {
      NamedNothing<K, I>(key);
    } else {
      NotifyItems(key, stream, count - 1);
      NotifyNext(key, stream, count - 1);
      if Taken(stream, count - 1) {
        assert Items(Notify(key, stream), count) == Items(Notify(key, stream), count - 1);
      } else if stream(count - 1).next.Item? {
        NamedSnoc(key, Items(stream, count - 1), stream(count - 1).next.item);
      } else if !stream(count - 1).next.Finished? {
        assert Items(stream, count) == Items(stream, count - 1);
        assert Items(Notify(key, stream), count) == Items(Notify(key, stream), count - 1);
      }
    }
  }

  lemma NamedNothing<K, I>(key: K)
    ensures Named<K, I>(key, []) == []
  {
  }

  // ---------- the index ----------

  /** The tasks are `NotifyEnd`s of these streams, pushed with these keys. */
  ghost predicate Owned<K, I>(scripts: seq<Script<K, I>>, owners: seq<K>, streams: seq<nat -> Step<I>>) {
    && |scripts| == |owners| == |streams|
    && forall n :: 0 <= n < |scripts| ==> scripts[n] == StreamBasic(Notify(owners[n], streams[n]))
  }

  /** The task ended in a panic. */
  ghost predicate Perished<V>(polls: seq<Poll<V>>, n: nat) {
    exists i :: 0 <= i < |polls| && polls[i].node == n && Unwound(polls[i].turn)
  }

  /** The key of the task has not been taken. */
  ghost predicate Live<K, I>(streams: seq<nat -> Step<I>>, polls: seq<Visit<K, I>>, n: nat)
    requires n < |streams|
  {
    !Taken(streams[n], PollsOf(polls, n))
  }

  /** The index agrees with the stored tasks; only a panic leaves a key behind whose task is gone. */
  ghost predicate Indexed<K, I>(keys: map<K, Entry<K, I>>, nodes: seq<Entry<K, I>>,
                                owners: seq<K>, streams: seq<nat -> Step<I>>, polls: seq<Visit<K, I>>)
  {
    && |owners| == |streams|
    && (forall m <- nodes :: m.id < |owners|)
    && (forall k <- keys :: keys[k].id < |owners| && owners[keys[k].id] == k)
    && (forall m <- nodes :: Live(streams, polls, m.id) ==> owners[m.id] in keys && keys[owners[m.id]] == m)
    && (forall k <- keys :: Perished(polls, keys[k].id) || (keys[k] in nodes && Live(streams, polls, keys[k].id)))
  }

  // ---------- what the polls of a call do to the keys ----------

  /** One poll takes the key exactly when it outputs the key alone. */
  lemma OnePollTakes<K, I>(polls: seq<Visit<K, I>>, p: Visit<K, I>, scripts: seq<Script<K, I>>,
                           owners: seq<K>, streams: seq<nat -> Step<I>>, n: nat)
    requires Owned(scripts, owners, streams) && Sound(polls + [p], scripts) && n < |streams|
    ensures p.node < |streams|
    ensures !Live(streams, polls + [p], n) <==>
      !Live(streams, polls, n) || (p.node == n && Output(p.turn) == Some((owners[n], None)))
  {
    assert (polls + [p])[..|polls|] == polls;
    assert SoundAt(polls + [p], scripts, |polls|);
    Counted(polls, p, n);
    NotifyTurn(owners[n], streams[n], PollsOf(polls, n));
  }

  /** Polls after which the loop goes on take no key. */
  lemma {:induction false} QuietTakesNothing<K, I>(polls: seq<Visit<K, I>>, batch: seq<Visit<K, I>>,
                                                   scripts: seq<Script<K, I>>, owners: seq<K>,
                                                   streams: seq<nat -> Step<I>>, n: nat)
    requires Owned(scripts, owners, streams) && Sound(polls + batch, scripts) && n < |streams| && Quiet(batch)
    ensures Live(streams, polls + batch, n) <==> Live(streams, polls, n)
  {
    if batch == [] {
      assert polls + batch == polls;
    } else {
      var rest, p := batch[..|batch| - 1], batch[|batch| - 1];
      assert polls + batch == (polls + rest) + [p];
      assert (polls + batch)[..|polls + rest|] == polls + rest;
      SoundPrefix(polls + batch, scripts, |polls + rest|);
      assert forall i :: 0 <= i < |rest| ==> rest[i] == batch[i];
      QuietTakesNothing(polls, rest, scripts, owners, streams, n);
      OnePollTakes(polls + rest, p, scripts, owners, streams, n);
      assert AnswerOf(p.turn) == None;
    }
  }

  /** A call takes the key that it returns alone, and no other. */
  lemma CallTakes<K, I>(polls: seq<Visit<K, I>>, batch: seq<Visit<K, I>>, answer: Reply<K, I>, empty: bool,
                        scripts: seq<Script<K, I>>, owners: seq<K>, streams: seq<nat -> Step<I>>, n: nat)
    requires Owned(scripts, owners, streams) && Sound(polls + batch, scripts) && n < |streams|
    requires Answers(answer, batch, empty)
    ensures Live(streams, polls + batch, n) <==>
      Live(streams, polls, n)
      && !(answer == Answer.Ready(Some((owners[n], None))) && batch != [] && batch[|batch| - 1].node == n)
  {
    hide Live, Sound;
    if answer.Unwinding? || (answer.Ready? && answer.item.Some?) {
      var rest, p := batch[..|batch| - 1], batch[|batch| - 1];
      assert polls + batch == (polls + rest) + [p];
      assert (polls + batch)[..|polls + rest|] == polls + rest;
      SoundPrefix(polls + batch, scripts, |polls + rest|);
      QuietTakesNothing(polls, rest, scripts, owners, streams, n);
      OnePollTakes(polls + rest, p, scripts, owners, streams, n);
    } else {
      QuietTakesNothing(polls, batch, scripts, owners, streams, n);
    }
  }

  /** A task that ends in a call had lost its key before, or panics. */
  lemma EndedWasDead<K, I>(polls: seq<Visit<K, I>>, batch: seq<Visit<K, I>>, answer: Reply<K, I>, empty: bool,
                           scripts: seq<Script<K, I>>, owners: seq<K>, streams: seq<nat -> Step<I>>, i: nat)
    requires Owned(scripts, owners, streams) && Sound(polls + batch, scripts) && i < |batch| && Ends(batch[i].turn)
    requires Answers(answer, batch, empty)
    ensures batch[i].node < |streams|
    ensures !Live(streams, polls, batch[i].node) || Unwound(batch[i].turn)
  {
    var all, j := polls + batch, |polls| + i;
    assert SoundAt(all, scripts, j);
    assert all[j] == batch[i] && all[..j] == polls + batch[..i];
    SoundPrefix(all, scripts, j);
    QuietBefore(answer, batch, empty, i);
    QuietTakesNothing(polls, batch[..i], scripts, owners, streams, batch[i].node);
    NotifyTurn(owners[batch[i].node], streams[batch[i].node], PollsOf(all[..j], batch[i].node));
  }

  lemma QuietBefore<V>(answer: Answer<V>, batch: seq<Poll<V>>, empty: bool, i: nat)
    requires Answers(answer, batch, empty) && i < |batch|
    ensures Quiet(batch[..i])
  {
    if answer.Unwinding? || (answer.Ready? && answer.item.Some?) {
      var rest := batch[..|batch| - 1];
      assert forall j :: 0 <= j < i ==> batch[..i][j] == rest[j];
    } else {
      assert forall j :: 0 <= j < i ==> batch[..i][j] == batch[j];
    }
  }

  /** The output of a call comes from a live task and carries its key; an item is the next of its stream. */
  lemma OutputIsLive<K, I>(polls: seq<Visit<K, I>>, batch: seq<Visit<K, I>>, key: K, item: Option<I>, empty: bool,
                           scripts: seq<Script<K, I>>, owners: seq<K>, streams: seq<nat -> Step<I>>)
    requires Owned(scripts, owners, streams) && Sound(polls + batch, scripts)
    requires Answers(Answer.Ready(Some((key, item))), batch, empty)
    ensures batch != [] && var n := batch[|batch| - 1].node;
      && n < |streams| && owners[n] == key && Live(streams, polls, n)
      && !Ends(batch[|batch| - 1].turn)
  {
    var rest, p := batch[..|batch| - 1], batch[|batch| - 1];
    var all := polls + batch;
    assert all == (polls + rest) + [p];
    assert all[..|polls + rest|] == polls + rest;
    assert SoundAt(all, scripts, |polls + rest|);
    SoundPrefix(all, scripts, |polls + rest|);
    QuietTakesNothing(polls, rest, scripts, owners, streams, p.node);
    NotifyTurn(owners[p.node], streams[p.node], PollsOf(polls + rest, p.node));
  }

  /** What the index keeps of a call that began with the tasks `start`. */
  ghost predicate Call<K, I>(start: seq<Entry<K, I>>, nodes: seq<Entry<K, I>>, arena: seq<Entry<K, I>>,
                             polls: seq<Visit<K, I>>, batch: seq<Visit<K, I>>, answer: Reply<K, I>,
                             scripts: seq<Script<K, I>>, owners: seq<K>, streams: seq<nat -> Step<I>>)
  {
    && Owned(scripts, owners, streams) && Sound(polls + batch, scripts)
    && Answers(answer, batch, nodes == [])
    && Placed(start, arena) && |arena| == |streams|
    && (forall p <- batch :: p.node < |arena|)
    && nodes == Keep(start, Ended(batch, arena))
    && forall i :: 0 <= i < |batch| ==> batch[i].node in Ids(start)
  }

  lemma PanicStays<V>(polls: seq<Poll<V>>, batch: seq<Poll<V>>, n: nat)
    ensures Perished(polls, n) ==> Perished(polls + batch, n)
    ensures forall i :: 0 <= i < |batch| && Unwound(batch[i].turn) && batch[i].node == n ==> Perished(polls + batch, n)
  {
    var all := polls + batch;
    assert forall i :: 0 <= i < |polls| ==> all[i] == polls[i];
    assert forall i :: 0 <= i < |batch| ==> all[|polls| + i] == batch[i];
  }

  /** A key in the index, after the call: its task panicked, or is stored and has its key. */
  lemma KeyAfterCall<K, I>(keys: map<K, Entry<K, I>>, start: seq<Entry<K, I>>, nodes: seq<Entry<K, I>>,
                           arena: seq<Entry<K, I>>,
                           polls: seq<Visit<K, I>>, batch: seq<Visit<K, I>>, answer: Reply<K, I>,
                           scripts: seq<Script<K, I>>, owners: seq<K>, streams: seq<nat -> Step<I>>, k: K)
    requires Call(start, nodes, arena, polls, batch, answer, scripts, owners, streams)
    requires Indexed(keys, start, owners, streams, polls) && k in keys && answer != Answer.Ready(Some((k, None)))
    ensures Perished(polls + batch, keys[k].id) || (keys[k] in nodes && Live(streams, polls + batch, keys[k].id))
  {
    hide Sound, Live, Answers, Owned;
    var m := keys[k];
    PanicStays(polls, batch, m.id);
    if !Perished(polls, m.id) {
      CallTakes(polls, batch, answer, nodes == [], scripts, owners, streams, m.id);
      KeepMember(start, Ended(batch, arena), m);
      if m in Ended(batch, arena) {
        var i :| 0 <= i < |batch| && Ends(batch[i].turn) && m == arena[batch[i].node];
        EndedWasDead(polls, batch, answer, nodes == [], scripts, owners, streams, i);
      }
    }
  }

  /** A stored task that has its key, after the call: the index holds it. */
  lemma TaskAfterCall<K, I>(keys: map<K, Entry<K, I>>, start: seq<Entry<K, I>>, nodes: seq<Entry<K, I>>,
                            arena: seq<Entry<K, I>>,
                            polls: seq<Visit<K, I>>, batch: seq<Visit<K, I>>, answer: Reply<K, I>,
                            scripts: seq<Script<K, I>>, owners: seq<K>, streams: seq<nat -> Step<I>>, m: Entry<K, I>)
    requires Call(start, nodes, arena, polls, batch, answer, scripts, owners, streams)
    requires Indexed(keys, start, owners, streams, polls) && m in nodes
    requires m.id < |streams| && Live(streams, polls + batch, m.id)
    ensures m in start && owners[m.id] in keys && keys[owners[m.id]] == m
    ensures answer != Answer.Ready(Some((owners[m.id], None)))
  {
    hide Sound, Live, Answers, Owned;
    CallTakes(polls, batch, answer, nodes == [], scripts, owners, streams, m.id);
    KeepMember(start, Ended(batch, arena), m);
    if answer == Answer.Ready(Some((owners[m.id], None))) {
      KeyIsIndexed(keys, start, nodes, arena, polls, batch, owners[m.id], None, scripts, owners, streams);
    }
  }

  /** The key that a call returns is in the index, for the task polled last. */
  lemma KeyIsIndexed<K, I>(keys: map<K, Entry<K, I>>, start: seq<Entry<K, I>>, nodes: seq<Entry<K, I>>,
                           arena: seq<Entry<K, I>>,
                           polls: seq<Visit<K, I>>, batch: seq<Visit<K, I>>, key: K, item: Option<I>,
                           scripts: seq<Script<K, I>>, owners: seq<K>, streams: seq<nat -> Step<I>>)
    requires Call(start, nodes, arena, polls, batch, Answer.Ready(Some((key, item))), scripts, owners, streams)
    requires Indexed(keys, start, owners, streams, polls)
    ensures batch != [] && key in keys && keys[key].id == batch[|batch| - 1].node && keys[key] in start
  {
    hide Sound, Live, Answers, Owned;
    OutputIsLive(polls, batch, key, item, nodes == [], scripts, owners, streams);
    var n := batch[|batch| - 1].node;
    var m :| m in start && m.id == n;
  }

  lemma IndexAfterCall<K, I>(keys: map<K, Entry<K, I>>, start: seq<Entry<K, I>>, nodes: seq<Entry<K, I>>,
                             arena: seq<Entry<K, I>>,
                             polls: seq<Visit<K, I>>, batch: seq<Visit<K, I>>, answer: Reply<K, I>,
                             scripts: seq<Script<K, I>>, owners: seq<K>, streams: seq<nat -> Step<I>>,
                             after: map<K, Entry<K, I>>)
    requires Call(start, nodes, arena, polls, batch, answer, scripts, owners, streams)
    requires Indexed(keys, start, owners, streams, polls)
    requires forall k :: k in after <==> k in keys && answer != Answer.Ready(Some((k, None)))
    requires forall k <- after :: after[k] == keys[k]
    ensures Indexed(after, nodes, owners, streams, polls + batch)
  {
    hide Sound, Live, Answers, Perished;
    forall k | k in after
      ensures Perished(polls + batch, after[k].id) || (after[k] in nodes && Live(streams, polls + batch, after[k].id))
    {
      KeyAfterCall(keys, start, nodes, arena, polls, batch, answer, scripts, owners, streams, k);
    }
    forall m | m in nodes
      ensures m.id < |owners|
      ensures Live(streams, polls + batch, m.id) ==> owners[m.id] in after && after[owners[m.id]] == m
    {
      KeepMember(start, Ended(batch, arena), m);
      if Live(streams, polls + batch, m.id) {
        TaskAfterCall(keys, start, nodes, arena, polls, batch, answer, scripts, owners, streams, m);
      }
    }
  }

  /** A call of the selector's `poll_next` in the terms of the index. */
  lemma CallOf<K, I>(start: seq<Entry<K, I>>, nodes: seq<Entry<K, I>>, arena: seq<Entry<K, I>>,
                     polls: seq<Visit<K, I>>, batch: seq<Visit<K, I>>, served: seq<nat>, answer: Reply<K, I>,
                     scripts: seq<Script<K, I>>, owners: seq<K>, streams: seq<nat -> Step<I>>)
    requires Owned(scripts, owners, streams) && Sound(polls + batch, scripts) && Answers(answer, batch, nodes == [])
    requires Placed(start, arena) && |arena| == |streams|
    requires Batch(start, nodes, served, batch, arena) && Distinct(served)
    ensures Call(start, nodes, arena, polls, batch, answer, scripts, owners, streams)
  {
    hide Owned, Sound, Answers, Placed;
    EachOnce(start, nodes, served, batch, arena);
  }

  lemma CallMembers<K, I>(start: seq<Entry<K, I>>, nodes: seq<Entry<K, I>>, arena: seq<Entry<K, I>>,
                          polls: seq<Visit<K, I>>, batch: seq<Visit<K, I>>, answer: Reply<K, I>,
                          scripts: seq<Script<K, I>>, owners: seq<K>, streams: seq<nat -> Step<I>>)
    requires Call(start, nodes, arena, polls, batch, answer, scripts, owners, streams)
    ensures forall i :: 0 <= i < |nodes| ==> nodes[i] in start
    ensures answer == Answer.Ready(None) ==> nodes == []
  {
    hide Owned, Sound, Placed;
    forall i | 0 <= i < |nodes|
      ensures nodes[i] in start
    {
      KeepMember(start, Ended(batch, arena), nodes[i]);
    }
  }

  /** The key that is returned alone is no longer its task's. */
  lemma KeyIsTaken<K, I>(keys: map<K, Entry<K, I>>, start: seq<Entry<K, I>>, nodes: seq<Entry<K, I>>,
                         arena: seq<Entry<K, I>>, polls: seq<Visit<K, I>>, batch: seq<Visit<K, I>>, key: K,
                         scripts: seq<Script<K, I>>, owners: seq<K>, streams: seq<nat -> Step<I>>)
    requires Call(start, nodes, arena, polls, batch, Answer.Ready(Some((key, None))), scripts, owners, streams)
    requires batch != [] && key in keys && keys[key].id == batch[|batch| - 1].node
    requires Indexed(keys, start, owners, streams, polls)
    ensures keys[key].id < |streams| && !Live(streams, polls + batch, keys[key].id)
  {
    hide Sound, Live, Answers, Placed;
    CallTakes(polls, batch, Answer.Ready(Some((key, None))), nodes == [], scripts, owners, streams, keys[key].id);
  }

  /** The key that is returned is in the index; returned alone, it is its task's no longer. */
  lemma ItemIsIndexed<K, I>(keys: map<K, Entry<K, I>>, start: seq<Entry<K, I>>, nodes: seq<Entry<K, I>>,
                            arena: seq<Entry<K, I>>,
                            polls: seq<Visit<K, I>>, batch: seq<Visit<K, I>>, answer: Reply<K, I>,
                            scripts: seq<Script<K, I>>, owners: seq<K>, streams: seq<nat -> Step<I>>)
    requires Call(start, nodes, arena, polls, batch, answer, scripts, owners, streams)
    requires Indexed(keys, start, owners, streams, polls)
    ensures answer.Ready? && answer.item.Some? ==>
      answer.item.value.0 in keys && IsLast(Outputs(polls + batch), keys[answer.item.value.0].id, answer.item.value)
    ensures forall k <- keys :: k in Remaining(keys, answer) || keys[k].id in Dead(streams, polls + batch)
  {
    hide Call, Indexed, Outputs;
    match answer
    case Ready(Some((key, item))) =>
      AnswerIsLast(start, nodes, arena, polls, batch, answer, scripts, owners, streams);
      KeyIsIndexed(keys, start, nodes, arena, polls, batch, key, item, scripts, owners, streams);
      if item == None {
        KeyIsTaken(keys, start, nodes, arena, polls, batch, key, scripts, owners, streams);
      }
    case _ =>
  }

  /** The last output is this value, of this task. */
  predicate IsLast<V(==)>(outputs: seq<(nat, V)>, n: nat, value: V) {
    outputs != [] && outputs[|outputs| - 1] == (n, value)
  }

  lemma AnswerIsLast<K, I>(start: seq<Entry<K, I>>, nodes: seq<Entry<K, I>>, arena: seq<Entry<K, I>>,
                           polls: seq<Visit<K, I>>, batch: seq<Visit<K, I>>, answer: Reply<K, I>,
                           scripts: seq<Script<K, I>>, owners: seq<K>, streams: seq<nat -> Step<I>>)
    requires Call(start, nodes, arena, polls, batch, answer, scripts, owners, streams)
    requires answer.Ready? && answer.item.Some?
    ensures batch != [] && IsLast(Outputs(polls + batch), batch[|batch| - 1].node, answer.item.value)
  {
    hide Owned, Sound, Placed;
    AnswerIsOutput(answer, batch, nodes == []);
    OutputsConcat(polls, batch);
  }

  /** What is left of the index when a call returns. */
  function Remaining<K, N, I>(keys: map<K, N>, answer: Reply<K, I>): map<K, N> {
    match answer
    case Ready(Some((key, None))) => keys - {key}
    case _ => keys
  }

  /** The tasks whose key was taken. */
  ghost function Dead<K, I>(streams: seq<nat -> Step<I>>, polls: seq<Visit<K, I>>): set<nat> {
    set n: nat | n < |streams| && !Live(streams, polls, n)
  }

  /** A key that was taken stays taken. */
  lemma DeadStays<K, I>(streams: seq<nat -> Step<I>>, polls: seq<Visit<K, I>>, batch: seq<Visit<K, I>>)
    ensures Dead(streams, polls) <= Dead(streams, polls + batch)
  {
    forall n: nat | n < |streams| && !Live(streams, polls, n)
      ensures !Live(streams, polls + batch, n)
    {
      PollsGrow(polls, batch, n);
      TakenStays(streams[n], PollsOf(polls, n), PollsOf(polls + batch, n));
    }
  }

  lemma {:induction false} PollsGrow<V>(polls: seq<Poll<V>>, batch: seq<Poll<V>>, n: nat)
    ensures PollsOf(polls, n) <= PollsOf(polls + batch, n)
  {
    if batch == [] {
      assert polls + batch == polls;
    } else {
      PollsGrow(polls, batch[..|batch| - 1], n);
      assert (polls + batch)[..|polls + batch| - 1] == polls + batch[..|batch| - 1];
    }
  }

  lemma {:induction false} TakenStays<I>(stream: nat -> Step<I>, count: nat, later: nat)
    requires Taken(stream, count) && count <= later
    ensures Taken(stream, later)
  {
    if count < later {
      TakenStays(stream, count, later - 1);
    }
  }

  // ---------- what is returned ----------

  /** The task that a key leads to is the last one pushed with that key. */
  ghost predicate Newest<K, I>(keys: map<K, Entry<K, I>>, owners: seq<K>) {
    forall n :: 0 <= n < |owners| && owners[n] in keys ==> n <= keys[owners[n]].id
  }

  /** An item comes from the newest task of its key. */
  lemma OrderedAfterCall<K, I>(keys: map<K, Entry<K, I>>, start: seq<Entry<K, I>>, nodes: seq<Entry<K, I>>,
                               arena: seq<Entry<K, I>>,
                               polls: seq<Visit<K, I>>, batch: seq<Visit<K, I>>, answer: Reply<K, I>,
                               scripts: seq<Script<K, I>>, owners: seq<K>, streams: seq<nat -> Step<I>>)
    requires Call(start, nodes, arena, polls, batch, answer, scripts, owners, streams)
    requires Indexed(keys, start, owners, streams, polls) && Newest(keys, owners) && Ordered(Outputs(polls), owners)
    ensures Ordered(Outputs(polls + batch), owners)
  {
    hide Sound, Live, Owned, Indexed, Outputs, Answers, Placed, Ordered;
    AnswerIsOutput(answer, batch, nodes == []);
    OutputsConcat(polls, batch);
    OwnedLengths(scripts, owners, streams);
    if answer.Ready? && answer.item.Some? {
      var (key, item) := answer.item.value;
      KeyIsIndexed(keys, start, nodes, arena, polls, batch, key, item, scripts, owners, streams);
      OutputIsLive(polls, batch, key, item, nodes == [], scripts, owners, streams);
      OrderedSnoc(Outputs(polls), (batch[|batch| - 1].node, (key, item)), owners);
    } else {
      assert Outputs(polls) + [] == Outputs(polls);
    }
  }

  lemma OrderedSnoc<K, I>(outputs: seq<(nat, (K, Option<I>))>, x: (nat, (K, Option<I>)), owners: seq<K>)
    requires Ordered(outputs, owners) && x.0 < |owners| && owners[x.0] == x.1.0
    requires forall n :: 0 <= n < |owners| && owners[n] == x.1.0 ==> n <= x.0
    ensures Ordered(outputs + [x], owners)
  {
  }

  lemma OrderedMore<K, I>(outputs: seq<(nat, (K, Option<I>))>, owners: seq<K>, key: K)
    requires Ordered(outputs, owners)
    ensures Ordered(outputs, owners + [key])
  {
  }

  lemma NothingOrdered<K, I>(owners: seq<K>)
    ensures Ordered<K, I>([], owners) && Newest<K, I>(map[], owners)
  {
  }

  lemma NewestMore<K, I>(keys: map<K, Entry<K, I>>, owners: seq<K>, key: K, node: Entry<K, I>)
    requires Newest(keys, owners) && node.id == |owners|
    ensures Newest(keys[key := node], owners + [key])
  {
  }

  lemma NewestLess<K, I>(keys: map<K, Entry<K, I>>, less: map<K, Entry<K, I>>, owners: seq<K>)
    requires Newest(keys, owners) && forall k <- less :: k in keys && less[k] == keys[k]
    ensures Newest(less, owners)
  {
  }

  /** How many of the first `count` polls of the stream may have given an item: those up to its end. */
  function Given<I>(stream: nat -> Step<I>, count: nat): nat {
    if Taken(stream, count) then EndOf(stream, count) else count
  }

  /** The items that the streams of a key have given, one stream after the other. */
  function Gathered<K(==), I>(owners: seq<K>, streams: seq<nat -> Step<I>>, polls: seq<Visit<K, I>>, key: K,
                              count: nat): seq<I>
    requires count <= |owners| == |streams|
  {
    if count == 0 then []
    else
      var n := count - 1;
      Gathered(owners, streams, polls, key, n)
      + if owners[n] == key then Items(streams[n], Given(streams[n], PollsOf(polls, n))) else []
  }

  lemma {:induction false} SomesOfNamed<K, I>(key: K, items: seq<I>)
    ensures Somes(Named(key, items)) == items && Somes(Named(key, items) + [(key, None)]) == items
  {
    var named := Named(key, items);
    if items != [] {
      SomesOfNamed(key, items[..|items| - 1]);
      assert items == items[..|items| - 1] + [items[|items| - 1]];
    }
    assert (named + [(key, None)])[..|named|] == named;
  }

  /** What comes from one task are the items of its stream so far. */
  lemma TaskItems<K, I>(polls: seq<Visit<K, I>>, scripts: seq<Script<K, I>>, owners: seq<K>,
                        streams: seq<nat -> Step<I>>, n: nat)
    requires Owned(scripts, owners, streams) && Sound(polls, scripts) && n < |streams|
    ensures Somes(OutputsOf(Outputs(polls), n)) == Items(streams[n], Given(streams[n], PollsOf(polls, n)))
  {
    hide Sound, Notify, Plays, StreamBasic, Outputs, OutputsOf, Somes, Named;
    var key, count := owners[n], PollsOf(polls, n);
    BasicEndToEnd(polls, scripts, n, Notify(key, streams[n]));
    NotifyItems(key, streams[n], count);
    SomesOfNamed(key, Items(streams[n], Given(streams[n], count)));
  }

  lemma {:induction false} GroupedIsGathered<K, I>(polls: seq<Visit<K, I>>, scripts: seq<Script<K, I>>, owners: seq<K>,
                                                  streams: seq<nat -> Step<I>>, key: K, count: nat)
    requires Owned(scripts, owners, streams) && Sound(polls, scripts) && count <= |owners|
    ensures Grouped(Outputs(polls), owners, key, count) == Gathered(owners, streams, polls, key, count)
  {
    hide Sound, Items, OutputsOf, Outputs, Given;
    if count > 0 {
      GroupedIsGathered(polls, scripts, owners, streams, key, count - 1);
      TaskItems(polls, scripts, owners, streams, count - 1);
    }
  }

  /** The last of the later polls panics. */
  ghost predicate EndsInPanic<V>(polls: seq<Poll<V>>, later: seq<Poll<V>>) {
    && |polls| < |later|
    && var o := later[|later| - 1].turn.outcome;
       o.Panics? || (o.Continues? && o.cont.Unwinds?) || (o.Breaks? && o.end.Unwinds?)
  }

  // ---------- insertions and removals ----------

  lemma NewIsUnpolled<V>(polls: seq<Poll<V>>, scripts: seq<nat -> Turn<V>>)
    requires Sound(polls, scripts)
    ensures PollsOf(polls, |scripts|) == 0
  {
    forall j | 0 <= j < |polls|
      ensures polls[j].node != |scripts|
    {
      assert SoundAt(polls, scripts, j);
    }
    NeverPolled(polls, |scripts|);
  }

  /** The task is pushed, the task the key had before is removed. */
  lemma IndexAfterInsert<K, I>(keys: map<K, Entry<K, I>>, nodes: seq<Entry<K, I>>,
                               owners: seq<K>, streams: seq<nat -> Step<I>>, polls: seq<Visit<K, I>>,
                               key: K, stream: nat -> Step<I>, node: Entry<K, I>, gone: set<Entry<K, I>>)
    requires Indexed(keys, nodes, owners, streams, polls)
    requires node.id == |owners| && PollsOf(polls, node.id) == 0 && node !in gone
    requires gone == if key in keys then {keys[key]} else {}
    ensures Indexed(keys[key := node], Keep(nodes + [node], gone), owners + [key], streams + [stream], polls)
  {
    hide Perished, PollsOf;
    var after := Keep(nodes + [node], gone);
    var owners', streams' := owners + [key], streams + [stream];
    var keys' := keys[key := node];
    forall m: Entry<K, I> | m in after
      ensures m.id < |owners'| && (Live(streams', polls, m.id) ==> owners'[m.id] in keys' && keys'[owners'[m.id]] == m)
    {
      KeepMember(nodes + [node], gone, m);
      if m != node {
        assert m in nodes;
      }
    }
    forall k | k in keys'
      ensures keys'[k].id < |owners'| && owners'[keys'[k].id] == k
      ensures Perished(polls, keys'[k].id) || (keys'[k] in after && Live(streams', polls, keys'[k].id))
    {
      KeepMember(nodes + [node], gone, keys'[k]);
      if k != key && key in keys {
        assert owners[keys[key].id] == key;
      }
    }
  }

  /** The key is gone, and so is its task. */
  lemma IndexAfterRemove<K, I>(keys: map<K, Entry<K, I>>, nodes: seq<Entry<K, I>>,
                               owners: seq<K>, streams: seq<nat -> Step<I>>, polls: seq<Visit<K, I>>, key: K)
    requires Indexed(keys, nodes, owners, streams, polls) && key in keys
    ensures Indexed(keys - {key}, Keep(nodes, {keys[key]}), owners, streams, polls)
  {
    hide Perished, PollsOf;
    var after := Keep(nodes, {keys[key]});
    forall m: Entry<K, I> | m in after
      ensures m.id < |owners|
      ensures (Live(streams, polls, m.id) ==> owners[m.id] in keys - {key} && keys[owners[m.id]] == m)
    {
      KeepMember(nodes, {keys[key]}, m);
    }
    forall k | k in keys - {key}
      ensures Perished(polls, keys[k].id) || (keys[k] in after && Live(streams, polls, keys[k].id))
    {
      KeepMember(nodes, {keys[key]}, keys[k]);
    }
  }

  // ---------- lines 44-115 ----------

  class StreamMap<K(==), I> {
    const selector: Selector<(K, Option<I>)>
    var keys: map<K, Entry<K, I>>
    ghost var owners: seq<K>
    ghost var streams: seq<nat -> Step<I>>
    ghost var returned: seq<(K, I)>             // what `poll_next` has returned so far

    ghost predicate Valid()
      reads this, selector, selector.queue, selector.list, selector.list.nodes, selector.arena
    {
      && selector.Valid()
      && Owned(selector.scripts, owners, streams)
      && Indexed(keys, selector.list.nodes, owners, streams, selector.polls)
      && (forall k <- keys :: keys[k] in selector.arena)
      && Newest(keys, owners) && Ordered(Outputs(selector.polls), owners) && returned == Whole(selector.answers)
    }

    constructor (threads: nat, schedule: nat -> seq<Action>)
      requires threads > 0
      ensures Valid() && keys == map[] && selector.list.nodes == [] && owners == [] && streams == []
      ensures selector.polls == [] && selector.arena == [] && returned == []
      ensures fresh(selector) && fresh(selector.queue) && fresh(selector.list)
      ensures selector.queue.threads == threads && selector.queue.View() == Init(threads)
    {
      hide Selector<(K, Option<I>)>.Valid;
      selector := new Selector(threads, schedule);
      keys, owners, streams, returned := map[], [], [], [];
      NothingOrdered<K, I>([]);
    }

    method Insert(key: K, stream: nat -> Step<I>) returns (prev: Option<Removed<Task<(K, Option<I>)>>>)
      requires Valid()
      modifies this, selector`arena, selector`scripts, selector.queue, selector.list, selector.list.nodes
      ensures Valid()
      ensures key in keys && fresh(keys[key]) && keys == old(keys)[key := keys[key]]
      ensures owners == old(owners) + [key] && streams == old(streams) + [stream] && keys[key].id == |old(owners)|
      ensures prev.Some? <==> key in old(keys) && old(keys)[key] in old(selector.list.nodes)
      ensures prev.Some? ==> prev.value == Removed(old(keys)[key], selector.list) && prev.value.Valid()
      ensures prev.Some? ==> prev.value.node.slot == old(keys[key].slot)
      ensures selector.list.nodes ==
        Keep(old(selector.list.nodes) + [keys[key]], if key in old(keys) then {old(keys)[key]} else {})
      ensures selector.arena == old(selector.arena) + [keys[key]]
      ensures selector.queue.h.delivered == old(selector.queue.h.delivered)
      ensures selector.queue.Alone() ==>
        Reals(selector.queue.q.chain) == old(Reals(selector.queue.q.chain)) + [keys[key].id]
    {
      hide Selector<(K, Option<I>)>.Valid, Indexed, Keep, Owned, Sound, StaysOut, Newest, Ordered, Outputs, Whole;
      ghost var nodes := selector.list.nodes;
      SelectorFacts(selector);
      NewIsUnpolled(selector.polls, selector.scripts);
      OwnedMore(selector.scripts, owners, streams, key, stream);
      IndexMeans(keys, nodes, owners, streams, selector.polls);
      var node := selector.Push(StreamBasic(Notify(key, stream)));
      prev := None;
      ghost var gone: set<Entry<K, I>> := {};
      if key in keys {
        gone := {keys[key]};
        prev := RemoveTask(keys[key]);
      } else {
        KeepAll(nodes + [node], gone);
      }
      IndexAfterInsert(keys, nodes, owners, streams, selector.polls, key, stream, node, gone);
      NewestMore(keys, owners, key, node);
      OrderedMore(Outputs(selector.polls), owners, key);
      keys := keys[key := node];
      owners := owners + [key];
      streams := streams + [stream];
    }

    /** The task of a key leaves the selector, if it is still there. */
    method RemoveTask(node: Entry<K, I>) returns (r: Option<Removed<Task<(K, Option<I>)>>>)
      requires selector.Valid() && node in selector.arena
      modifies selector.list, selector.list.nodes
      ensures selector.Valid() && selector.list.nodes == Keep(old(selector.list.nodes), {node})
      ensures r.Some? <==> node in old(selector.list.nodes)
      ensures r.Some? ==> r.value == Removed(node, selector.list) && r.value.Valid() && node.slot == old(node.slot)
    {
      hide Selector<(K, Option<I>)>.Valid, Keep, StaysOut;
      r := selector.Remove(Id(selector.queue, node));
      if r.None? {
        KeepAll(selector.list.nodes, {node});
      }
    }

    /** `get_mut`: the stream of a key, unless it panicked. */
    method Get(key: K) returns (found: Option<Entry<K, I>>)
      requires Valid()
      ensures found.Some? ==> key in keys && found.value == keys[key] && found.value in selector.list.nodes
      ensures found.None? ==> key !in keys || Perished(selector.polls, keys[key].id)
    {
      hide Selector<(K, Option<I>)>.Valid, Owned, Perished;
      if key !in keys {
        return None;
      }
      var stored := selector.Contains(Id(selector.queue, keys[key]));
      if stored {
        found := Some(keys[key]);
      } else {
        found := None;
      }
    }

    method Remove(key: K) returns (removed: Option<Removed<Task<(K, Option<I>)>>>)
      requires Valid()
      modifies this`keys, selector.list, selector.list.nodes
      ensures Valid() && keys == old(keys) - {key}
      ensures removed.Some? <==> key in old(keys) && old(keys)[key] in old(selector.list.nodes)
      ensures removed.Some? ==> removed.value == Removed(old(keys)[key], selector.list) && removed.value.Valid()
      ensures removed.Some? ==> removed.value.node.slot == old(keys[key].slot)
      ensures selector.list.nodes == Keep(old(selector.list.nodes), if key in old(keys) then {old(keys)[key]} else {})
    {
      hide Selector<(K, Option<I>)>.Valid, Indexed, Keep, Owned, Newest, Ordered, Outputs, Whole;
      ghost var nodes := selector.list.nodes;
      removed := None;
      if key !in keys {
        KeepAll(nodes, {});
        assert keys - {key} == keys;
        return;
      }
      var node := keys[key];
      IndexAfterRemove(keys, nodes, owners, streams, selector.polls, key);
      NewestLess(keys, keys - {key}, owners);
      removed := RemoveTask(node);
      keys := keys - {key};
    }

    /** The task of the node that waits first is stored. */
    ghost predicate FirstStored()
      reads selector.queue, selector.list`nodes
    {
      && selector.queue.q.pos <= |selector.queue.q.chain| && Waiting(selector.queue.View()) != []
      && Waiting(selector.queue.View())[0] in Ids(selector.list.nodes)
    }

    /** The node that waits first. */
    ghost function Foremost(): nat
      reads selector.queue, selector.list`nodes
    {
      if FirstStored() then Waiting(selector.queue.View())[0] else 0
    }

    /**
     Lines 79-104: the ends of streams are taken out of the index, an item is returned. `ends` are the keys taken out.
     */
    method PollNext(waker: nat) returns (answer: Reply<K, I>, ghost ends: seq<K>)
      requires Valid()
      modifies this`keys, this`returned, selector`polls, selector`answers, selector`parked
      modifies selector.queue, selector.list, selector.list.nodes
      ensures Valid() && old(selector.queue.log) <= selector.queue.log && old(selector.polls) <= selector.polls
      ensures selector.queue.w.session == Some(waker)
      ensures keys == old(keys) - (set k <- ends)
      ensures forall i :: 0 <= i < |ends| ==>
        ends[i] in old(keys) && ends[i] !in ends[..i] && old(keys)[ends[i]].id in Dead(streams, selector.polls)
      ensures selector.answers == old(selector.answers) + Lone(ends) + Batches.Item(answer)
      ensures answer.Ready? && answer.item.Some? ==> answer.item.value.1.Some? && answer.item.value.0 in keys
      ensures returned == old(returned) +
        if answer.Ready? && answer.item.Some? then [(answer.item.value.0, answer.item.value.1.value)] else []
      ensures answer.Ready? && answer.item.Some? ==>
        IsLast(Outputs(selector.polls), keys[answer.item.value.0].id, answer.item.value)
      ensures answer.Unwinding? <==> EndsInPanic(old(selector.polls), selector.polls)
      ensures answer == Answer.Ready(None) ==> selector.list.nodes == []
      ensures answer.Pending? ==> selector.list.nodes != []
      ensures answer.Pending? <==> selector.parked
      ensures selector.queue.Alone() && old(FirstStored()) ==>
        PolledNext(old(selector.polls), selector.polls, old(Foremost()))
    {
      hide Valid, Dead, IsLast, Outputs, FirstStored, Foremost, PolledNext, EndsInPanic, Tallied, Replied;
      ghost var was := Tally(keys, selector.answers, returned);
      ghost var polls, nodes := selector.polls, selector.list.nodes;
      ends := [];
      answer := PollOnce(waker);
      ghost var first := selector.polls;
      FirstTally(was, Tally(keys, selector.answers, returned), answer, Dead(streams, first));
      while answer.Ready? && answer.item.Some? && answer.item.value.1.None?
        invariant Valid() && old(selector.queue.log) <= selector.queue.log && polls <= first <= selector.polls
        invariant selector.queue.w.session == Some(waker)
        invariant forall i :: 0 <= i < |selector.list.nodes| ==> selector.list.nodes[i] in nodes
        invariant Tallied(was, Tally(keys, selector.answers, returned), ends, answer, Dead(streams, selector.polls))
        invariant Replied(answer, keys, Outputs(selector.polls), selector.list.nodes == [], selector.parked)
        invariant answer.Unwinding? <==> EndsInPanic(polls, selector.polls)
        decreases |keys|, answer.Ready? && answer.item.Some? && answer.item.value.1.None?
      {
        ghost var polled := selector.polls;
        answer, ends := PollAgain(waker, answer, was, ends);
        PanicLast(polls, polled, selector.polls);
      }
      WholeTally(was, Tally(keys, selector.answers, returned), ends, answer, Dead(streams, selector.polls));
      RepliedMeans(answer, keys, Outputs(selector.polls), selector.list.nodes == [], selector.parked);
      StillPolledNext(polls, first, selector.polls, old(Foremost()));
    }

    /** The next turn of the loop, in a call that began with `was`. */
    method PollAgain(waker: nat, last: Reply<K, I>, ghost was: Tally<K, I>, ghost ends: seq<K>)
      returns (answer: Reply<K, I>, ghost more: seq<K>)
      requires Valid()
      requires last.Ready? && last.item.Some? && last.item.value.1.None?
      requires Tallied(was, Tally(keys, selector.answers, returned), ends, last, Dead(streams, selector.polls))
      modifies this`keys, this`returned, selector`polls, selector`answers, selector`parked
      modifies selector.queue, selector.list, selector.list.nodes
      ensures Valid() && old(selector.queue.log) <= selector.queue.log && old(selector.polls) <= selector.polls
      ensures selector.queue.w.session == Some(waker)
      ensures |keys| <= |old(keys)|
      ensures answer.Ready? && answer.item.Some? && answer.item.value.1.None? ==> |keys| < |old(keys)|
      ensures Tallied(was, Tally(keys, selector.answers, returned), more, answer, Dead(streams, selector.polls))
      ensures forall i :: 0 <= i < |selector.list.nodes| ==> selector.list.nodes[i] in old(selector.list.nodes)
      ensures Replied(answer, keys, Outputs(selector.polls), selector.list.nodes == [], selector.parked)
      ensures answer.Unwinding? <==> EndsInPanic(old(selector.polls), selector.polls)
    {
      hide Valid, Dead, IsLast, Outputs, FirstStored, Foremost, PolledNext, EndsInPanic, Tallied, Replied;
      hide Got, Remaining;
      ghost var before, dead := Tally(keys, selector.answers, returned), Dead(streams, selector.polls);
      answer := PollOnce(waker);
      more := ends + [last.item.value.0];
      NextTally(was, before, ends, last, dead,
                Tally(keys, selector.answers, returned), answer, Dead(streams, selector.polls));
    }

    /** One turn of the loop: one call of the selector, and the key of a stream that ended is removed. */
    method PollOnce(waker: nat) returns (answer: Reply<K, I>)
      requires Valid()
      modifies this`keys, this`returned, selector`polls, selector`answers, selector`parked
      modifies selector.queue, selector.list, selector.list.nodes
      ensures Valid() && old(selector.queue.log) <= selector.queue.log && old(selector.polls) <= selector.polls
      ensures selector.queue.w.session == Some(waker)
      ensures keys == Remaining(old(keys), answer) && |keys| <= |old(keys)|
      ensures answer.Ready? && answer.item.Some? && answer.item.value.1.None? ==>
        var k := answer.item.value.0;
        k in old(keys) && old(keys)[k].id in Dead(streams, selector.polls) && |keys| < |old(keys)|
      ensures Dead(streams, old(selector.polls)) <= Dead(streams, selector.polls)
      ensures forall i :: 0 <= i < |selector.list.nodes| ==> selector.list.nodes[i] in old(selector.list.nodes)
      ensures selector.answers == old(selector.answers) + Batches.Item(answer)
      ensures returned == old(returned) + Got(answer)
      ensures Replied(answer, keys, Outputs(selector.polls), selector.list.nodes == [], selector.parked)
      ensures answer.Unwinding? <==> EndsInPanic(old(selector.polls), selector.polls)
      ensures selector.queue.Alone() && old(FirstStored()) ==>
        PolledNext(old(selector.polls), selector.polls, old(Foremost()))
    {
      hide Selector<(K, Option<I>)>.Valid, Indexed, Owned, Dead, IsLast, Outputs, FirstStored, Foremost, PolledNext;
      hide Newest, Ordered, Whole, EndsInPanic;
      answer := PollTasks(waker);
      WholeItem(old(selector.answers), answer);
      NewestLess(keys, Remaining(keys, answer), owners);
      returned := returned + Got(answer);
      match answer {
        case Ready(Some((key, None))) => keys := keys - {key};
        case _ =>
      }
    }

    /** One call of the selector's `poll_next`; `keys` is not yet up to date. */
    method PollTasks(waker: nat) returns (answer: Reply<K, I>)
      requires Valid()
      modifies selector`polls, selector`answers, selector`parked, selector.queue, selector.list, selector.list.nodes
      ensures selector.Valid() && old(selector.queue.log) <= selector.queue.log && old(selector.polls) <= selector.polls
      ensures selector.queue.w.session == Some(waker)
      ensures selector.parked == answer.Pending?
      ensures Indexed(Remaining(keys, answer), selector.list.nodes, owners, streams, selector.polls)
      ensures Ordered(Outputs(selector.polls), owners)
      ensures forall i :: 0 <= i < |selector.list.nodes| ==> selector.list.nodes[i] in old(selector.list.nodes)
      ensures selector.answers == old(selector.answers) + Batches.Item(answer)
      ensures answer.Unwinding? <==> EndsInPanic(old(selector.polls), selector.polls)
      ensures answer == Answer.Ready(None) ==> selector.list.nodes == []
      ensures answer.Pending? ==> selector.list.nodes != []
      ensures answer.Ready? && answer.item.Some? ==>
        answer.item.value.0 in keys && IsLast(Outputs(selector.polls), keys[answer.item.value.0].id, answer.item.value)
      ensures Dead(streams, old(selector.polls)) <= Dead(streams, selector.polls)
      ensures forall k <- keys :: k in Remaining(keys, answer) || keys[k].id in Dead(streams, selector.polls)
      ensures selector.queue.Alone() && old(FirstStored()) ==>
        PolledNext(old(selector.polls), selector.polls, old(Foremost()))
    {
      hide Selector<(K, Option<I>)>.Valid, Indexed, Owned, Sound, Answers, Batch, Placed, Call, Dead, IsLast, Outputs;
      hide Newest, Ordered, Whole, Told, EndsInPanic, Heard, StaysOut;
      ghost var start, polls := selector.list.nodes, selector.polls;
      SelectorFacts(selector);
      OwnedLengths(selector.scripts, owners, streams);
      ghost var snapshot, k, batch;
      answer, snapshot, k, batch := selector.PollNext(waker);
      SelectorFacts(selector);
      CallOf(start, selector.list.nodes, selector.arena, polls, batch, snapshot[..k], answer, selector.scripts, owners,
             streams);
      CallMembers(start, selector.list.nodes, selector.arena, polls, batch, answer, selector.scripts, owners, streams);
      IndexAfterCall(keys, start, selector.list.nodes, selector.arena, polls, batch, answer, selector.scripts, owners,
                     streams, Remaining(keys, answer));
      ItemIsIndexed(keys, start, selector.list.nodes, selector.arena, polls, batch, answer, selector.scripts, owners,
                    streams);
      OrderedAfterCall(keys, start, selector.list.nodes, selector.arena, polls, batch, answer, selector.scripts, owners,
                       streams);
      ToldOfMap(polls, batch, answer, selector.list.nodes == []);
      DeadStays(streams, polls, batch);
      if selector.queue.Alone() && old(FirstStored()) {
        FirstIsPolled(start, selector.list.nodes, snapshot, k, batch, selector.arena);
      }
    }

    /**
     Over the whole run, what was returned for a key are the items that the streams inserted with that key have given,
     one stream after the other: nothing is lost, repeated, reordered, or given to another key.
     */
    lemma ReturnedItems(key: K)
      requires Valid()
      ensures OfKey(returned, key) == Gathered(owners, streams, selector.polls, key, |owners|)
    {
      hide Indexed, Owned, Ordered, Newest, Whole, OfKey, Sound, Outputs, Values;
      SelectorFacts(selector);
      AnswersAreValues(selector);
      OwnedLengths(selector.scripts, owners, streams);
      KeyByKey(Outputs(selector.polls), owners, key);
      GroupedIsGathered(selector.polls, selector.scripts, owners, streams, key, |owners|);
    }

    /** Without panics the index is a bijection between its keys and the stored tasks that have their key. */
    lemma Bijection()
      requires Valid()
      requires forall i :: 0 <= i < |selector.polls| ==> !Unwound(selector.polls[i].turn)
      ensures forall k <- keys :: keys[k] in selector.list.nodes && Live(streams, selector.polls, keys[k].id)
      ensures forall k, j :: k in keys && j in keys && keys[k] == keys[j] ==> k == j
      ensures forall m <- selector.list.nodes ::
        m.id < |streams| && (Live(streams, selector.polls, m.id) ==> exists k :: k in keys && keys[k] == m)
    {
      hide Selector<(K, Option<I>)>.Valid, Owned, Live;
      forall m | m in selector.list.nodes && Live(streams, selector.polls, m.id)
        ensures exists k :: k in keys && keys[k] == m
      {
        assert owners[m.id] in keys;
      }
    }

    /** A key has lost its task exactly when the task panicked. */
    lemma StaleKey(k: K)
      requires Valid() && k in keys
      ensures keys[k] in selector.list.nodes <==> !Perished(selector.polls, keys[k].id)
    {
      hide Owned, Live, Receiver.Valid, Books, Parked;
      if Perished(selector.polls, keys[k].id) {
        var i :| 0 <= i < |selector.polls| && selector.polls[i].node == keys[k].id && Unwound(selector.polls[i].turn);
        assert Ends(selector.polls[i].turn);
      }
    }
  }

  /** The ends of streams, as the selector answers them. */
  function Lone<K, I>(keys: seq<K>): seq<(K, Option<I>)> {
    seq(|keys|, (i: nat) requires i < |keys| => (keys[i], None))
  }

  /** The item that the map returns. */
  function Got<K, I>(answer: Reply<K, I>): seq<(K, I)> {
    match answer
    case Ready(Some((key, Some(item)))) => [(key, item)]
    case _ => []
  }

  lemma WholeItem<K, I>(answers: seq<(K, Option<I>)>, answer: Reply<K, I>)
    ensures Whole(answers + Batches.Item(answer)) == Whole(answers) + Got(answer)
  {
    if answer.Ready? && answer.item.Some? {
      WholeConcat(answers, answer.item.value);
    } else {
      assert answers + [] == answers;
    }
  }

  /** The index, the answers of the selector, and the items returned. */
  datatype Tally<!K, !I> = Tally(keys: map<K, Entry<K, I>>, answers: seq<(K, Option<I>)>, returned: seq<(K, I)>)

  /** In a call that began with `was`: `ends` were answered before the last answer, and their keys taken out. */
  ghost predicate Tallied<K, I>(was: Tally<K, I>, now: Tally<K, I>, ends: seq<K>, answer: Reply<K, I>, dead: set<nat>) {
    && TakenOut(was.keys, now.keys, ends, answer, dead)
    && now.answers == was.answers + Lone(ends) + Batches.Item(answer)
    && now.returned == was.returned + Got(answer)
  }

  ghost predicate TakenOut<K, I>(was: map<K, Entry<K, I>>, now: map<K, Entry<K, I>>, ends: seq<K>,
                                 answer: Reply<K, I>, dead: set<nat>) {
    && now == Remaining(was - (set k <- ends), answer)
    && (forall i :: 0 <= i < |ends| ==> ends[i] in was && ends[i] !in ends[..i] && was[ends[i]].id in dead)
    && (answer.Ready? && answer.item.Some? && answer.item.value.1.None? ==>
          var k := answer.item.value.0;
          k in was && k !in ends && was[k].id in dead)
  }

  lemma FirstTally<K, I>(was: Tally<K, I>, now: Tally<K, I>, answer: Reply<K, I>, dead: set<nat>)
    requires now.keys == Remaining(was.keys, answer)
    requires now.answers == was.answers + Batches.Item(answer) && now.returned == was.returned + Got(answer)
    requires answer.Ready? && answer.item.Some? && answer.item.value.1.None? ==>
      answer.item.value.0 in was.keys && was.keys[answer.item.value.0].id in dead
    ensures Tallied(was, now, [], answer, dead)
  {
    var none: seq<K> := [];
    assert was.keys - (set k <- none) == was.keys;
    assert was.answers + Lone<K, I>([]) == was.answers;
  }

  lemma NextTally<K, I>(was: Tally<K, I>, before: Tally<K, I>, ends: seq<K>, last: Reply<K, I>, dead: set<nat>,
                        now: Tally<K, I>, answer: Reply<K, I>, dead': set<nat>)
    requires Tallied(was, before, ends, last, dead) && dead <= dead'
    requires last.Ready? && last.item.Some? && last.item.value.1.None?
    requires now.keys == Remaining(before.keys, answer)
    requires now.answers == before.answers + Batches.Item(answer) && now.returned == before.returned + Got(answer)
    requires answer.Ready? && answer.item.Some? && answer.item.value.1.None? ==>
      answer.item.value.0 in before.keys && before.keys[answer.item.value.0].id in dead'
    ensures Tallied(was, now, ends + [last.item.value.0], answer, dead')
  {
    hide Lone, TakenOut, Remaining;
    NextTakenOut(was.keys, before.keys, ends, last, dead, now.keys, answer, dead');
    MoreLone(ends, last.item.value);
  }

  lemma NextTakenOut<K, I>(was: map<K, Entry<K, I>>, before: map<K, Entry<K, I>>, ends: seq<K>, last: Reply<K, I>,
                           dead: set<nat>, now: map<K, Entry<K, I>>, answer: Reply<K, I>, dead': set<nat>)
    requires TakenOut(was, before, ends, last, dead) && dead <= dead' && now == Remaining(before, answer)
    requires last.Ready? && last.item.Some? && last.item.value.1.None?
    requires answer.Ready? && answer.item.Some? && answer.item.value.1.None? ==>
      answer.item.value.0 in before && before[answer.item.value.0].id in dead'
    ensures TakenOut(was, now, ends + [last.item.value.0], answer, dead')
  {
    var key := last.item.value.0;
    MoreEnds(was, ends, key);
    assert before == (was - (set k <- ends)) - {key};
  }

  lemma WholeTally<K, I>(was: Tally<K, I>, now: Tally<K, I>, ends: seq<K>, answer: Reply<K, I>, dead: set<nat>)
    requires Tallied(was, now, ends, answer, dead)
    requires !(answer.Ready? && answer.item.Some? && answer.item.value.1.None?)
    ensures now.keys == was.keys - (set k <- ends)
    ensures forall i :: 0 <= i < |ends| ==>
      ends[i] in was.keys && ends[i] !in ends[..i] && was.keys[ends[i]].id in dead
    ensures now.answers == was.answers + Lone(ends) + Batches.Item(answer)
    ensures now.returned == was.returned +
      if answer.Ready? && answer.item.Some? then [(answer.item.value.0, answer.item.value.1.value)] else []
  {
  }

  lemma MoreEnds<K, N>(keys: map<K, N>, ends: seq<K>, key: K)
    requires key !in ends && forall i :: 0 <= i < |ends| ==> ends[i] !in ends[..i]
    ensures (keys - (set k <- ends)) - {key} == keys - (set k <- ends + [key])
    ensures forall i :: 0 <= i < |ends + [key]| ==> (ends + [key])[i] !in (ends + [key])[..i]
  {
    var all := ends + [key];
    assert all[..|ends|] == ends && forall i :: 0 <= i < |ends| ==> all[..i] == ends[..i];
  }

  lemma MoreLone<K, I>(ends: seq<K>, value: (K, Option<I>))
    requires value.1.None?
    ensures Lone<K, I>(ends + [value.0]) == Lone<K, I>(ends) + [value]
  {
  }

  /** What an answer says of the map. */
  ghost predicate Replied<K, I>(answer: Reply<K, I>, keys: map<K, Entry<K, I>>, outputs: seq<(nat, (K, Option<I>))>,
                                empty: bool, parked: bool) {
    && (answer.Ready? && answer.item.Some? && answer.item.value.1.Some? ==>
          answer.item.value.0 in keys && IsLast(outputs, keys[answer.item.value.0].id, answer.item.value))
    && (answer == Answer.Ready(None) ==> empty)
    && (answer.Pending? ==> !empty)
    && (answer.Pending? <==> parked)
  }

  lemma RepliedMeans<K, I>(answer: Reply<K, I>, keys: map<K, Entry<K, I>>, outputs: seq<(nat, (K, Option<I>))>,
                           empty: bool, parked: bool)
    requires Replied(answer, keys, outputs, empty, parked)
    ensures answer.Ready? && answer.item.Some? && answer.item.value.1.Some? ==>
      answer.item.value.0 in keys && IsLast(outputs, keys[answer.item.value.0].id, answer.item.value)
    ensures answer == Answer.Ready(None) ==> empty
    ensures answer.Pending? ==> !empty
    ensures answer.Pending? <==> parked
  {
  }

  lemma ToldOfMap<V>(polls: seq<Poll<V>>, batch: seq<Poll<V>>, answer: Answer<V>, empty: bool)
    requires Told(answer, batch, empty)
    ensures answer.Unwinding? <==> EndsInPanic(polls, polls + batch)
    ensures answer == Answer.Ready(None) ==> empty
    ensures answer.Pending? ==> !empty
  {
    assert batch != [] ==> (polls + batch)[|polls + batch| - 1] == batch[|batch| - 1];
  }

  /** Whether the last poll panics, if the polls before did not end in a panic. */
  lemma PanicLast<V>(polls: seq<Poll<V>>, later: seq<Poll<V>>, latest: seq<Poll<V>>)
    requires polls <= later <= latest && !EndsInPanic(polls, later)
    ensures EndsInPanic(polls, latest) <==> EndsInPanic(later, latest)
  {
    assert |later| == |latest| ==> later == latest;
  }

  lemma AnswersAreValues<V>(selector: Selector<V>)
    requires selector.Valid()
    ensures selector.answers == Values(Outputs(selector.polls))
  {
    hide selector.Shelf, selector.Buried, selector.Accounts, Receiver.Valid, Books, Parked;
  }

  /** The next poll after these is of node n. */
  ghost predicate PolledNext<V>(polls: seq<Poll<V>>, later: seq<Poll<V>>, n: nat) {
    |polls| < |later| && later[|polls|].node == n
  }

  lemma StillPolledNext<V>(polls: seq<Poll<V>>, later: seq<Poll<V>>, latest: seq<Poll<V>>, n: nat)
    requires polls <= later <= latest
    ensures PolledNext(polls, later, n) ==> PolledNext(polls, latest, n)
  {
  }

  // ---------- a stream that panics ----------

  /** A stream whose poll panics. */
  function Bomb<I>(): nat -> Step<I> {
    (k: nat) => Step([], Panicking, [])
  }

  lemma {:induction false} BombHasItsKey<I>(count: nat)
    ensures !Taken(Bomb<I>(), count)
  {
    if count > 0 {
      BombHasItsKey<I>(count - 1);
    }
  }

  /** The first poll of a task with this stream is a panic. */
  lemma BombPerishes<K, I>(polls: seq<Visit<K, I>>, scripts: seq<Script<K, I>>, owners: seq<K>,
                           streams: seq<nat -> Step<I>>)
    requires Sound(polls, scripts) && Owned(scripts, owners, streams) && PolledNext([], polls, 0)
    requires |streams| == 1 && streams[0] == Bomb<I>()
    ensures Perished(polls, 0)
  {
    assert SoundAt(polls, scripts, 0);
    assert polls[..0] == [];
    BombHasItsKey<I>(0);
    NotifyTurn(owners[0], streams[0], 0);
    assert polls[0].node == 0 && Unwound(polls[0].turn);
  }

  /** The map is left with a key whose task is gone: the stream panicked when it was polled. */
  method KeepStaleKey<K(==), I>(key: K, schedule: nat -> seq<Action>) returns (streamMap: StreamMap<K, I>)
    ensures streamMap.Valid() && key in streamMap.keys && streamMap.keys[key] !in streamMap.selector.list.nodes
  {
    hide StreamMap<K, I>.Valid, StreamMap<K, I>.FirstStored, StreamMap<K, I>.Foremost, PolledNext, Keep, Dead, Bomb;
    hide Init;
    streamMap := new StreamMap(1, schedule);
    StartsEmpty(1);
    var prev := streamMap.Insert(key, Bomb());
    ghost var none: set<Entry<K, I>> := {};
    KeepAll([streamMap.keys[key]], none);
    var one := [streamMap.keys[key]];
    assert [] + one == one && Keep(one, none) == one;
    OneWaits(streamMap, key);
    var answer, ends := streamMap.PollNext(0);
    BombIsStale(streamMap, key);
  }

  lemma OneWaits<K, I>(streamMap: StreamMap<K, I>, key: K)
    requires streamMap.Valid() && key in streamMap.keys && streamMap.keys[key].id == 0
    requires streamMap.selector.list.nodes == [streamMap.keys[key]]
    requires streamMap.selector.queue.h.delivered == [] && Reals(streamMap.selector.queue.q.chain) == [0]
    ensures streamMap.FirstStored() && streamMap.Foremost() == 0
  {
    hide streamMap.selector.Shelf, streamMap.selector.Buried, streamMap.selector.Accounts, Books, Inv, Exec, Parked;
    hide Indexed, Owned, Reals, Waiting;
    var s := streamMap.selector.queue.View();
    QueueSplits(s);
    assert [] + Waiting(s) == Waiting(s);
    assert Waiting(s) == [0];
    assert streamMap.keys[key] in streamMap.selector.list.nodes;
  }

  lemma BombIsStale<K, I>(streamMap: StreamMap<K, I>, key: K)
    requires streamMap.Valid() && streamMap.streams == [Bomb<I>()] && PolledNext([], streamMap.selector.polls, 0)
    requires forall k <- streamMap.keys :: streamMap.keys[k].id == 0
    ensures 0 !in Dead(streamMap.streams, streamMap.selector.polls)
    ensures key in streamMap.keys ==> streamMap.keys[key] !in streamMap.selector.list.nodes
  {
    hide Selector<(K, Option<I>)>.Valid, Indexed, Owned, Bomb, PolledNext, Perished;
    SelectorFacts(streamMap.selector);
    BombPerishes(streamMap.selector.polls, streamMap.selector.scripts, streamMap.owners, streamMap.streams);
    BombHasItsKey<I>(PollsOf(streamMap.selector.polls, 0));
    if key in streamMap.keys {
      streamMap.StaleKey(key);
    }
  }

  /** What the index uses of the selector's invariant. */
  lemma SelectorFacts<V>(selector: Selector<V>)
    requires selector.Valid()
    ensures Sound(selector.polls, selector.scripts)
    ensures Placed(selector.list.nodes, selector.arena)
    ensures |selector.arena| == |selector.scripts| == selector.queue.created
  {
    hide selector.Buried, Sound;
    selector.ShelfIsPlaced(selector.queue.created, selector.queue.h.retired);
  }

  lemma OwnedLengths<K, I>(scripts: seq<Script<K, I>>, owners: seq<K>, streams: seq<nat -> Step<I>>)
    requires Owned(scripts, owners, streams)
    ensures |scripts| == |owners| == |streams|
  {
  }

  lemma OwnedMore<K, I>(scripts: seq<Script<K, I>>, owners: seq<K>, streams: seq<nat -> Step<I>>, key: K,
                        stream: nat -> Step<I>)
    requires Owned(scripts, owners, streams)
    ensures |scripts| == |owners| == |streams|
    ensures Owned(scripts + [StreamBasic(Notify(key, stream))], owners + [key], streams + [stream])
  {
  }

  lemma IndexMeans<K, I>(keys: map<K, Entry<K, I>>, nodes: seq<Entry<K, I>>,
                         owners: seq<K>, streams: seq<nat -> Step<I>>, polls: seq<Visit<K, I>>)
    requires Indexed(keys, nodes, owners, streams, polls)
    ensures forall k <- keys :: keys[k].id < |owners| && owners[keys[k].id] == k
  {
  }
}
