/**
 The stream strategies of `src/task/strategy.rs`, and what they make of a stream's items.

 A strategy is three functions: what a poll of the stream means for the task, and what is
 returned for a value with which the task goes on or ends.
 */
module Strategies {
  import opened Wrappers
  import opened Tasks
  import opened SelectorTheorems

  datatype Result<+T, +E> = Ok(value: T) | Err(error: E)

  datatype ControlFlow<+B, +C> = Continue(cont: C) | Break(end: B)

  /** A poll of a stream: nothing yet, an item, the end, or a panic. */
  datatype Next<+I> = NotReady | Item(item: I) | Finished | Panicking

  /** A poll of a stream, the nodes woken in it, and those woken by the drop of the stream if it is dropped now. */
  datatype Step<+I> = Step(wakes: seq<nat>, next: Next<I>, dropWakes: seq<nat>)

  /**
   Lines 304-336 of selector.rs: a poll of the task, and the transformation that follows; kept: it returns the
   `Removed`.
   */
  function Turned<I, B, C, O>(step: Step<I>, progress: Next<I> -> Option<ControlFlow<B, C>>,
                              onCont: C -> Option<O>, onBreak: B -> Option<O>, kept: bool): Turn<O> {
    var outcome :=
      if step.next.Panicking? then Panics
      else match progress(step.next)
        case None => Waits
        case Some(Continue(c)) => Continues(Transformed(onCont(c)))
        case Some(Break(b)) => Breaks(Transformed(onBreak(b)), kept);
    Turn(step.wakes, outcome, [], step.dropWakes)
  }

  function Transformed<O>(output: Option<O>): Transform<O> {
    match output
    case Some(v) => Yields(v)
    case None => Ignores
  }

  // ---------- lines 167-198 and 307-338 ----------

  function StreamProgress<I>(next: Next<I>): Option<ControlFlow<(), I>> {
    match next
    case Item(item) => Some(Continue(item))
    case Finished => Some(Break(()))
    case _ => None
  }

  function StreamBasic<I>(stream: nat -> Step<I>): nat -> Turn<I> {
    (k: nat) => Turned(stream(k), StreamProgress, (item: I) => Some(item), (_: ()) => None, false)
  }

  /** With the number of the node as the id, and as the removed stream. */
  function StreamReclaim<I>(stream: nat -> Step<I>, id: nat): nat -> Turn<ControlFlow<nat, (nat, I)>> {
    (k: nat) =>
      Turned(stream(k), StreamProgress, (item: I) => Some(Continue((id, item))), (_: ()) => Some(Break(id)), true)
  }

  // ---------- lines 377-409 and 547-579 ----------

  function TryStreamProgress<I, E>(next: Next<Result<I, E>>): Option<ControlFlow<Result<(), E>, I>> {
    match next
    case Item(Ok(item)) => Some(Continue(item))
    case Item(Err(error)) => Some(Break(Err(error)))
    case Finished => Some(Break(Ok(())))
    case _ => None
  }

  function TryStreamBasic<I, E>(stream: nat -> Step<Result<I, E>>): nat -> Turn<Result<I, E>> {
    (k: nat) => Turned(stream(k), TryStreamProgress, (item: I) => Some(Ok(item)),
                       (end: Result<(), E>) => if end.Err? then Some(Err(end.error)) else None, false)
  }

  function TryStreamReclaim<I, E>(stream: nat -> Step<Result<I, E>>, id: nat)
    : nat -> Turn<ControlFlow<(nat, Result<(), E>), (nat, I)>>
  {
    (k: nat) => Turned(stream(k), TryStreamProgress, (item: I) => Some(Continue((id, item))),
                       (end: Result<(), E>) => Some(Break((id, end))), true)
  }

  // ---------- streams ----------

  /** The items of the first `count` polls of a stream. */
  function Items<I>(stream: nat -> Step<I>, count: nat): seq<I> {
    if count == 0 then []
    else Items(stream, count - 1) + if stream(count - 1).next.Item? then [stream(count - 1).next.item] else []
  }

  /** None of the first `count` polls ends the stream. */
  ghost predicate Going<I>(stream: nat -> Step<I>, count: nat) {
    forall j: nat :: j < count ==> !stream(j).next.Finished? && !stream(j).next.Panicking?
  }

  /** None of the first `count` polls gives an error. */
  ghost predicate Unfailing<I, E>(stream: nat -> Step<Result<I, E>>, count: nat) {
    forall j: nat :: j < count && stream(j).next.Item? ==> stream(j).next.item.Ok?
  }

  /** The results up to the first error, that error included. */
  function UpToError<I, E>(results: seq<Result<I, E>>): seq<Result<I, E>> {
    if results == [] then []
    else if results[0].Err? then [results[0]]
    else [results[0]] + UpToError(results[1..])
  }

  function Tagged<B, I>(items: seq<I>, id: nat): seq<ControlFlow<B, (nat, I)>> {
    if items == [] then [] else Tagged(items[..|items| - 1], id) + [Continue((id, items[|items| - 1]))]
  }

  /** The task was polled that often: none of those polls but the last ended it. */
  ghost predicate Alive<V>(turn: nat -> Turn<V>, count: nat) {
    forall j: nat :: j + 1 < count ==> !Ends(turn(j))
  }

  /** `StreamBasic` yields the items of the stream. */
  lemma {:induction false} BasicYieldsItems<I>(stream: nat -> Step<I>, count: nat)
    ensures Produced(StreamBasic(stream), count) == Items(stream, count)
  {
    if count > 0 {
      BasicYieldsItems(stream, count - 1);
    }
  }

  /** A task of `StreamBasic` is polled until its stream is at the end. */
  lemma BasicIsPolledToTheEnd<I>(stream: nat -> Step<I>, count: nat)
    ensures Alive(StreamBasic(stream), count) <==> count == 0 || Going(stream, count - 1)
  {
    var turn := StreamBasic(stream);
    forall j: nat
      ensures Ends(turn(j)) <==> stream(j).next.Finished? || stream(j).next.Panicking?
    {
    }
  }

  /** The wakes of the turn are the stream's: the waker that the selector made reaches it, whatever the poll returns. */
  ghost predicate WakesOf<I, V>(turn: Turn<V>, step: Step<I>) {
    turn.wakes == step.wakes && turn.lateWakes == [] && turn.dropWakes == step.dropWakes
  }

  lemma BasicTurn<I>(stream: nat -> Step<I>, k: nat)
    ensures WakesOf(StreamBasic(stream)(k), stream(k))
    ensures StreamBasic(stream)(k).outcome ==
      match stream(k).next
      case NotReady => Waits
      case Item(item) => Continues(Yields(item))
      case Finished => Breaks(Ignores, false)
      case Panicking => Panics
  {
  }

  lemma TryTurn<I, E>(stream: nat -> Step<Result<I, E>>, k: nat)
    ensures WakesOf(TryStreamBasic(stream)(k), stream(k))
    ensures TryStreamBasic(stream)(k).outcome ==
      match stream(k).next
      case NotReady => Waits
      case Item(Ok(item)) => Continues(Yields(Ok(item)))
      case Item(Err(e)) => Breaks(Yields(Err(e)), false)
      case Finished => Breaks(Ignores, false)
      case Panicking => Panics
  {
  }

  lemma ReclaimTurn<I>(stream: nat -> Step<I>, id: nat, k: nat)
    ensures WakesOf(StreamReclaim(stream, id)(k), stream(k))
    ensures StreamReclaim(stream, id)(k).outcome ==
      match stream(k).next
      case NotReady => Waits
      case Item(item) => Continues(Yields(Continue((id, item))))
      case Finished => Breaks(Yields(Break(id)), true)
      case Panicking => Panics
    ensures Ends(StreamReclaim(stream, id)(k)) <==> stream(k).next.Finished? || stream(k).next.Panicking?
    ensures Output(StreamReclaim(stream, id)(k)) ==
      match stream(k).next
      case Item(item) => Some(Continue((id, item)))
      case Finished => Some(Break(id))
      case _ => None
  {
  }

  lemma TaggedSnoc<B, I>(items: seq<I>, item: I, id: nat)
    ensures Tagged<B, I>(items + [item], id) == Tagged<B, I>(items, id) + [Continue((id, item))]
  {
    assert (items + [item])[..|items|] == items;
  }

  lemma {:induction false} ReclaimWhileGoing<I>(stream: nat -> Step<I>, id: nat, count: nat)
    requires Going(stream, count)
    ensures Produced(StreamReclaim(stream, id), count) == Tagged<nat, I>(Items(stream, count), id)
  {
    hide StreamReclaim, Ends, Output, Tagged;
    if count == 0 {
      TaggedNothing<nat, I>(id);
    } else {
      ReclaimWhileGoing(stream, id, count - 1);
      ReclaimTurn(stream, id, count - 1);
      if stream(count - 1).next.Item? {
        TaggedSnoc<nat, I>(Items(stream, count - 1), stream(count - 1).next.item, id);
      } else {
        assert Items(stream, count) == Items(stream, count - 1);
      }
    }
  }

  lemma TaggedNothing<B, I>(id: nat)
    ensures Tagged<B, I>([], id) == []
  {
  }

  /** `StreamReclaim` yields the items with the id, and the stream when it is at the end. */
  lemma ReclaimYieldsItems<I>(stream: nat -> Step<I>, id: nat, count: nat)
    requires Alive(StreamReclaim(stream, id), count)
    ensures Produced(StreamReclaim(stream, id), count) ==
      Tagged<nat, I>(Items(stream, count),
                     id) + if count > 0 && stream(count - 1).next.Finished? then [Break(id)] else []
  {
    hide StreamReclaim, Ends, Output, Tagged;
    if count == 0 {
      TaggedNothing<nat, I>(id);
    } else {
      forall j: nat | j < count - 1
        ensures !stream(j).next.Finished? && !stream(j).next.Panicking?
      {
        ReclaimTurn(stream, id, j);
      }
      ReclaimWhileGoing(stream, id, count - 1);
      ReclaimTurn(stream, id, count - 1);
      if stream(count - 1).next.Item? {
        TaggedSnoc<nat, I>(Items(stream, count - 1), stream(count - 1).next.item, id);
      } else {
        assert Items(stream, count) == Items(stream, count - 1);
      }
    }
  }

  /** `TryStreamBasic` yields the results of the stream up to the first error, however long the stream goes on. */
  lemma TryYieldsUpToError<I, E>(stream: nat -> Step<Result<I, E>>, count: nat, longer: nat)
    requires Alive(TryStreamBasic(stream), count)
    requires count <= longer
    requires (count < longer ==> count > 0 && stream(count - 1).next.Item? && stream(count - 1).next.item.Err?)
    ensures Produced(TryStreamBasic(stream), count) == UpToError(Items(stream, longer))
  {
    TryYieldsItems(stream, count);
    FirstErrorIsLast(stream, count);
    ItemsGrow(stream, count, longer);
    var more := Items(stream, longer)[|Items(stream, count)|..];
    assert Items(stream, longer) == Items(stream, count) + more;
    CutAtError(Items(stream, count), more);
  }

  /** A task of `TryStreamBasic` is polled until its stream is at the end or fails. */
  lemma TryIsPolledToTheEnd<I, E>(stream: nat -> Step<Result<I, E>>, count: nat)
    ensures Alive(TryStreamBasic(stream), count) <==>
            (count == 0 || (Going(stream, count - 1) && Unfailing(stream, count - 1)))
  {
    var turn := TryStreamBasic(stream);
    forall j: nat
      ensures Ends(turn(j)) <==>
        stream(j).next.Finished? || stream(j).next.Panicking? || (stream(j).next.Item? && stream(j).next.item.Err?)
    {
    }
  }

  lemma {:induction false} TryYieldsItems<I, E>(stream: nat -> Step<Result<I, E>>, count: nat)
    ensures Produced(TryStreamBasic(stream), count) == Items(stream, count)
  {
    if count > 0 {
      TryYieldsItems(stream, count - 1);
    }
  }

  /** Only the last result can be an error, and it is one exactly when the last poll gave it. */
  lemma {:induction false} FirstErrorIsLast<I, E>(stream: nat -> Step<Result<I, E>>, count: nat)
    requires Alive(TryStreamBasic(stream), count)
    ensures forall i :: 0 <= i < |Items(stream, count)| && Items(stream, count)[i].Err? ==>
      i == |Items(stream, count)| - 1 && stream(count - 1).next.Item? && stream(count - 1).next.item.Err?
    ensures count > 0 && stream(count - 1).next.Item? ==>
      Items(stream, count) != [] && Items(stream, count)[|Items(stream, count)| - 1] == stream(count - 1).next.item
  {
    if count > 0 {
      FirstErrorIsLast(stream, count - 1);
      if count > 1 {
        assert !Ends(TryStreamBasic(stream)(count - 2));
      }
    }
  }

  lemma {:induction false} ItemsGrow<I>(stream: nat -> Step<I>, count: nat, longer: nat)
    requires count <= longer
    ensures Items(stream, count) <= Items(stream, longer)
  {
    if count < longer {
      ItemsGrow(stream, count, longer - 1);
    }
  }

  lemma {:induction false} CutAtError<I, E>(results: seq<Result<I, E>>, more: seq<Result<I, E>>)
    requires forall i :: 0 <= i < |results| - 1 ==> results[i].Ok?
    requires more != [] ==> results != [] && results[|results| - 1].Err?
    ensures UpToError(results + more) == results
  {
    if results != [] {
      assert (results + more)[1..] == results[1..] + more;
      if results[0].Ok? {
        CutAtError(results[1..], more);
      } else {
        assert |results| == 1;
      }
    }
  }

  lemma TryReclaimTurn<I, E>(stream: nat -> Step<Result<I, E>>, id: nat, k: nat)
    ensures WakesOf(TryStreamReclaim(stream, id)(k), stream(k))
    ensures TryStreamReclaim(stream, id)(k).outcome ==
      match stream(k).next
      case NotReady => Waits
      case Item(Ok(item)) => Continues(Yields(Continue((id, item))))
      case Item(Err(e)) => Breaks(Yields(Break((id, Err(e)))), true)
      case Finished => Breaks(Yields(Break((id, Ok(())))), true)
      case Panicking => Panics
    ensures Ends(TryStreamReclaim(stream, id)(k)) <==>
      stream(k).next.Finished? || stream(k).next.Panicking? || (stream(k).next.Item? && stream(k).next.item.Err?)
    ensures Output(TryStreamReclaim(stream, id)(k)) ==
      match stream(k).next
      case Item(Ok(item)) => Some(Continue((id, item)))
      case Item(Err(e)) => Some(Break((id, Err(e))))
      case Finished => Some(Break((id, Ok(()))))
      case _ => None
  {
  }

  lemma GoodsSnoc<I, E>(results: seq<Result<I, E>>, result: Result<I, E>)
    ensures Goods(results + [result]) == Goods(results) + if result.Ok? then [result.value] else []
  {
    assert (results + [result])[..|results|] == results;
  }

  lemma {:induction false} TryReclaimWhileGoing<I, E>(stream: nat -> Step<Result<I, E>>, id: nat, count: nat)
    requires forall j: nat :: j < count ==> !Ends(TryStreamReclaim(stream, id)(j))
    ensures Produced(TryStreamReclaim(stream, id), count) ==
            Tagged<(nat, Result<(), E>), I>(Goods(Items(stream, count)), id)
  {
    hide TryStreamReclaim, Ends, Output, Tagged, Goods;
    if count == 0 {
      NoGoods<I, E>();
      TaggedNothing<(nat, Result<(), E>), I>(id);
    } else {
      TryReclaimWhileGoing(stream, id, count - 1);
      TryReclaimTurn(stream, id, count - 1);
      if stream(count - 1).next.Item? {
        GoodsSnoc(Items(stream, count - 1), stream(count - 1).next.item);
        TaggedSnoc<(nat, Result<(), E>), I>(Goods(Items(stream, count - 1)), stream(count - 1).next.item.value, id);
      } else {
        assert Items(stream, count) == Items(stream, count - 1);
      }
    }
  }

  lemma NoGoods<I, E>()
    ensures Goods<I, E>([]) == []
  {
  }

  /** `TryStreamReclaim` yields the good results with the id, and then the stream with the outcome. */
  lemma TryReclaimYields<I, E>(stream: nat -> Step<Result<I, E>>, id: nat, count: nat)
    requires Alive(TryStreamReclaim(stream, id), count)
    ensures Produced(TryStreamReclaim(stream, id), count) ==
      Tagged<(nat, Result<(), E>), I>(Goods(Items(stream, count)), id) + Outcome(stream, id, count)
  {
    hide TryStreamReclaim, Ends, Output, Tagged, Goods;
    if count == 0 {
      NoGoods<I, E>();
      TaggedNothing<(nat, Result<(), E>), I>(id);
    } else {
      TryReclaimWhileGoing(stream, id, count - 1);
      TryReclaimTurn(stream, id, count - 1);
      if stream(count - 1).next.Item? {
        GoodsSnoc(Items(stream, count - 1), stream(count - 1).next.item);
        if stream(count - 1).next.item.Ok? {
          TaggedSnoc<(nat, Result<(), E>), I>(Goods(Items(stream, count - 1)), stream(count - 1).next.item.value, id);
        } else {
          assert Goods(Items(stream, count)) == Goods(Items(stream, count - 1));
        }
      } else {
        assert Items(stream, count) == Items(stream, count - 1);
      }
    }
  }

  function Goods<I, E>(results: seq<Result<I, E>>): seq<I> {
    if results == [] then []
    else Goods(results[..|results| - 1]) + if results[|results| - 1].Ok? then [results[|results| - 1].value] else []
  }

  /** The stream with how it ended, if its last poll ended it. */
  function Outcome<I, E>(stream: nat -> Step<Result<I, E>>, id: nat,
                         count: nat): seq<ControlFlow<(nat, Result<(), E>), (nat, I)>> {
    if count == 0 then []
    else match stream(count - 1).next
      case Finished => [Break((id, Ok(())))]
      case Item(Err(e)) => [Break((id, Err(e)))]
      case _ => []
  }

  // ---------- end to end ----------

  /** Who is polled by a sound log is alive. */
  lemma {:induction false} PolledIsAlive<V>(polls: seq<Poll<V>>, scripts: seq<nat -> Turn<V>>, n: nat)
    requires Sound(polls, scripts) && n < |scripts|
    ensures Alive(scripts[n], PollsOf(polls, n))
    ensures (forall i :: 0 <= i < |polls| && polls[i].node == n ==> !Ends(polls[i].turn)) ==>
      forall j: nat :: j < PollsOf(polls, n) ==> !Ends(scripts[n](j))
  {
    if polls != [] {
      var rest := polls[..|polls| - 1];
      SoundPrefix(polls, scripts, |rest|);
      PolledIsAlive(rest, scripts, n);
      assert SoundAt(polls, scripts, |rest|);
      assert forall i :: 0 <= i < |rest| ==> rest[i] == polls[i];
    }
  }

  /** Poll number k of task n is poll number k of its stream: it has the same wakes, and waits or panics with it. */
  ghost predicate Plays<I, V>(polls: seq<Poll<V>>, n: nat, stream: nat -> Step<I>) {
    forall j :: 0 <= j < |polls| && polls[j].node == n ==>
      var turn, step := polls[j].turn, stream(PollsOf(polls[..j], n));
      && turn.wakes == step.wakes && turn.lateWakes == [] && turn.dropWakes == step.dropWakes
      && (turn.outcome.Waits? <==> step.next.NotReady?) && (turn.outcome.Panics? <==> step.next.Panicking?)
  }

  lemma ScriptPlays<I, V>(polls: seq<Poll<V>>, scripts: seq<nat -> Turn<V>>, n: nat, stream: nat -> Step<I>)
    requires Sound(polls, scripts) && n < |scripts|
    requires forall k: nat ::
      var turn := scripts[n](k);
      && WakesOf(turn, stream(k))
      && (turn.outcome.Waits? <==> stream(k).next.NotReady?) && (turn.outcome.Panics? <==> stream(k).next.Panicking?)
    ensures Plays(polls, n, stream)
  {
    forall j | 0 <= j < |polls| && polls[j].node == n
      ensures polls[j].turn == scripts[n](PollsOf(polls[..j], n))
    {
      assert SoundAt(polls, scripts, j);
    }
  }

  lemma BasicPlays<I>(polls: seq<Poll<I>>, scripts: seq<nat -> Turn<I>>, n: nat, stream: nat -> Step<I>)
    requires Sound(polls, scripts) && n < |scripts| && scripts[n] == StreamBasic(stream)
    ensures Plays(polls, n, stream)
  {
    forall k: nat
      ensures WakesOf(scripts[n](k), stream(k))
      ensures scripts[n](k).outcome.Waits? <==> stream(k).next.NotReady?
      ensures scripts[n](k).outcome.Panics? <==> stream(k).next.Panicking?
    {
      BasicTurn(stream, k);
    }
    ScriptPlays(polls, scripts, n, stream);
  }

  lemma TryPlays<I, E>(polls: seq<Poll<Result<I, E>>>, scripts: seq<nat -> Turn<Result<I, E>>>, n: nat,
                       stream: nat -> Step<Result<I, E>>)
    requires Sound(polls, scripts) && n < |scripts| && scripts[n] == TryStreamBasic(stream)
    ensures Plays(polls, n, stream)
  {
    forall k: nat
      ensures WakesOf(scripts[n](k), stream(k))
      ensures scripts[n](k).outcome.Waits? <==> stream(k).next.NotReady?
      ensures scripts[n](k).outcome.Panics? <==> stream(k).next.Panicking?
    {
      TryTurn(stream, k);
    }
    ScriptPlays(polls, scripts, n, stream);
  }

  lemma ReclaimPlays<I>(polls: seq<Poll<ControlFlow<nat, (nat, I)>>>,
                        scripts: seq<nat -> Turn<ControlFlow<nat, (nat, I)>>>, n: nat,
                        stream: nat -> Step<I>)
    requires Sound(polls, scripts) && n < |scripts| && scripts[n] == StreamReclaim(stream, n)
    ensures Plays(polls, n, stream)
  {
    forall k: nat
      ensures WakesOf(scripts[n](k), stream(k))
      ensures scripts[n](k).outcome.Waits? <==> stream(k).next.NotReady?
      ensures scripts[n](k).outcome.Panics? <==> stream(k).next.Panicking?
    {
      ReclaimTurn(stream, n, k);
    }
    ScriptPlays(polls, scripts, n, stream);
  }

  lemma TryReclaimPlays<I, E>(polls: seq<Poll<ControlFlow<(nat, Result<(), E>), (nat, I)>>>,
                              scripts: seq<nat -> Turn<ControlFlow<(nat, Result<(), E>), (nat, I)>>>, n: nat,
                              stream: nat -> Step<Result<I, E>>)
    requires Sound(polls, scripts) && n < |scripts| && scripts[n] == TryStreamReclaim(stream, n)
    ensures Plays(polls, n, stream)
  {
    forall k: nat
      ensures WakesOf(scripts[n](k), stream(k))
      ensures scripts[n](k).outcome.Waits? <==> stream(k).next.NotReady?
      ensures scripts[n](k).outcome.Panics? <==> stream(k).next.Panicking?
    {
      TryReclaimTurn(stream, n, k);
    }
    ScriptPlays(polls, scripts, n, stream);
  }

  /** The outputs of a selector that come from one stream are the items of that stream, in its order. */
  lemma BasicEndToEnd<I>(polls: seq<Poll<I>>, scripts: seq<nat -> Turn<I>>, n: nat, stream: nat -> Step<I>)
    requires Sound(polls, scripts) && n < |scripts| && scripts[n] == StreamBasic(stream)
    ensures OutputsOf(Outputs(polls), n) == Items(stream, PollsOf(polls, n))
    ensures PollsOf(polls, n) == 0 || Going(stream, PollsOf(polls, n) - 1)
    ensures Plays(polls, n, stream)
  {
    hide Plays, Sound, Alive, Going, Outputs, StreamBasic;
    OutputsOfTask(polls, scripts, n);
    BasicYieldsItems(stream, PollsOf(polls, n));
    PolledIsAlive(polls, scripts, n);
    BasicIsPolledToTheEnd(stream, PollsOf(polls, n));
    BasicPlays(polls, scripts, n, stream);
  }

  /** The same under `TryStreamBasic`: the results of the stream, cut after the first error. */
  lemma TryEndToEnd<I, E>(polls: seq<Poll<Result<I, E>>>, scripts: seq<nat -> Turn<Result<I, E>>>, n: nat,
                          stream: nat -> Step<Result<I, E>>)
    requires Sound(polls, scripts) && n < |scripts| && scripts[n] == TryStreamBasic(stream)
    ensures OutputsOf(Outputs(polls), n) == UpToError(Items(stream, PollsOf(polls, n)))
    ensures Plays(polls, n, stream)
  {
    hide Plays, Sound, Alive, Going, Outputs, TryStreamBasic;
    OutputsOfTask(polls, scripts, n);
    PolledIsAlive(polls, scripts, n);
    TryYieldsUpToError(stream, PollsOf(polls, n), PollsOf(polls, n));
    TryPlays(polls, scripts, n, stream);
  }

  /** Under `StreamReclaim` the items come with the id, and after them the stream itself, once. */
  lemma ReclaimEndToEnd<I>(polls: seq<Poll<ControlFlow<nat, (nat, I)>>>,
                           scripts: seq<nat -> Turn<ControlFlow<nat, (nat, I)>>>, n: nat,
                           stream: nat -> Step<I>)
    requires Sound(polls, scripts) && n < |scripts| && scripts[n] == StreamReclaim(stream, n)
    ensures var count := PollsOf(polls, n);
      OutputsOf(Outputs(polls), n) ==
        Tagged<nat, I>(Items(stream, count),
                       n) + if count > 0 && stream(count - 1).next.Finished? then [Break(n)] else []
    ensures Plays(polls, n, stream)
  {
    hide Plays, Sound, Alive, Going, Outputs, StreamReclaim;
    OutputsOfTask(polls, scripts, n);
    PolledIsAlive(polls, scripts, n);
    ReclaimYieldsItems(stream, n, PollsOf(polls, n));
    ReclaimPlays(polls, scripts, n, stream);
  }

  /** Under `TryStreamReclaim` the good results come with the id, and after them the stream with the outcome, once. */
  lemma TryReclaimEndToEnd<I, E>(polls: seq<Poll<ControlFlow<(nat, Result<(), E>), (nat, I)>>>,
                                 scripts: seq<nat -> Turn<ControlFlow<(nat, Result<(), E>), (nat, I)>>>, n: nat,
                                 stream: nat -> Step<Result<I, E>>)
    requires Sound(polls, scripts) && n < |scripts| && scripts[n] == TryStreamReclaim(stream, n)
    ensures var count := PollsOf(polls, n);
      OutputsOf(Outputs(polls),
                n) == Tagged<(nat, Result<(), E>), I>(Goods(Items(stream, count)), n) + Outcome(stream, n, count)
    ensures Plays(polls, n, stream)
  {
    hide Plays, Sound, Alive, Going, Outputs, TryStreamReclaim;
    OutputsOfTask(polls, scripts, n);
    PolledIsAlive(polls, scripts, n);
    TryReclaimYields(stream, n, PollsOf(polls, n));
    TryReclaimPlays(polls, scripts, n, stream);
  }
}
