/** Values from push to drop: whole runs of a selector, its own drop included. */
module Lifetimes {
  import opened Protocol
  import opened ProtocolRuns
  import opened ProtocolTheorems
  import opened Queues
  import opened Lists
  import opened Cursors
  import opened Iterators
  import opened Tasks
  import opened Batches
  import opened Selectors
  import opened SelectorTheorems

  /** What the owner of a selector, and of the tasks removed from it, may do. */
  datatype Op<!V> =
    | Push(turn: nat -> Turn<V>)
    | Remove(node: nat)
    | TakeValue(k: nat)                         // `into_inner` of the k-th `Removed` at hand
    | DropValue(k: nat)
    | Retain(pred: nat -> bool)
    | Poll(waker: nat)
    | Wake(ids: seq<nat>)
    | WakeAll

  /** The tasks that are pushed, in order. */
  function TasksOf<V>(ops: seq<Op<V>>): seq<nat -> Turn<V>> {
    if ops == [] then [] else TasksOf(ops[..|ops| - 1]) + TaskOf(ops[|ops| - 1])
  }

  function TaskOf<V>(op: Op<V>): seq<nat -> Turn<V>> {
    if op.Push? then [op.turn] else []
  }

  /**
   At any time each value pushed is in one place: stored, or with a `Removed`, or gone; it is gone exactly when it was
   dropped or moved out, and that happened once.
   */
  lemma ValueOnce<V>(selector: Selector<V>, n: nat)
    requires selector.Valid() && n < |selector.arena|
    ensures var m, list := selector.arena[n], selector.list;
      && multiset(list.spent)[m] <= 1
      && (m.slot.Gone? <==> multiset(list.spent)[m] == 1)
      && (multiset(list.spent)[m] == 0 <==> m in list.nodes || m in list.out)
      && !(m in list.nodes && m in list.out)
  {
    hide selector.Shelf, selector.Buried, Books, Receiver.Valid;
    var list := selector.list;
    assert Account(selector.arena[n], list.nodes, list.out, list.spent);
  }

  ghost function Held<V>(pool: seq<Removed<Task<V>>>): set<Node<Task<V>>> {
    set r <- pool :: r.node
  }

  /** The `Removed`s at hand and those that a transformation has kept are all there are, and different ones. */
  ghost predicate AtHand<V>(pool: seq<Removed<Task<V>>>, list: List<Task<V>>, out: set<Node<Task<V>>>,
                            polls: seq<Poll<V>>, arena: seq<Node<Task<V>>>) {
    && (forall i :: 0 <= i < |pool| ==> pool[i].home == list)
    && (forall i, j :: 0 <= i < j < |pool| ==> pool[i].node != pool[j].node)
    && Held(pool) !! KeptOf(polls, arena)
    && out == Held(pool) + KeptOf(polls, arena)
  }

  lemma HeldSnoc<V>(pool: seq<Removed<Task<V>>>, r: Removed<Task<V>>)
    ensures Held(pool + [r]) == Held(pool) + {r.node}
  {
  }

  lemma HeldWithout<V>(pool: seq<Removed<Task<V>>>, k: nat)
    requires k < |pool| && forall i, j :: 0 <= i < j < |pool| ==> pool[i].node != pool[j].node
    ensures Held(Without(pool, k)) == Held(pool) - {pool[k].node}
  {
    WithoutMembers(pool, k);
    forall r | r in Without(pool, k)
      ensures r.node != pool[k].node
    {
      var i :| 0 <= i < |Without(pool, k)| && Without(pool, k)[i] == r;
      assert r == pool[if i < k then i else i + 1];
    }
  }

  lemma OneMoreAtHand<V>(pool: seq<Removed<Task<V>>>, list: List<Task<V>>, out: set<Node<Task<V>>>,
                         polls: seq<Poll<V>>, arena: seq<Node<Task<V>>>, node: Node<Task<V>>)
    requires AtHand(pool, list, out, polls, arena) && node !in out
    ensures AtHand(pool + [Removed(node, list)], list, out + {node}, polls, arena)
  {
    hide KeptOf;
    HeldSnoc(pool, Removed(node, list));
    forall i | 0 <= i < |pool|
      ensures pool[i].node != node
    {
      assert pool[i].node in Held(pool);
    }
  }

  lemma OneLessAtHand<V>(pool: seq<Removed<Task<V>>>, list: List<Task<V>>, out: set<Node<Task<V>>>,
                         polls: seq<Poll<V>>, arena: seq<Node<Task<V>>>, k: nat)
    requires AtHand(pool, list, out, polls, arena) && k < |pool|
    ensures pool[k].home == list && pool[k].node in out
    ensures AtHand(Without(pool, k), list, out - {pool[k].node}, polls, arena)
  {
    hide KeptOf;
    HeldWithout(pool, k);
    assert pool[k].node in Held(pool);
  }

  lemma SomeKept<V>(pool: seq<Removed<Task<V>>>, list: List<Task<V>>, out: set<Node<Task<V>>>,
                    polls: seq<Poll<V>>, arena: seq<Node<Task<V>>>, batch: seq<Poll<V>>)
    requires AtHand(pool, list, out, polls, arena) && KeptOf(batch, arena) !! out
    ensures AtHand(pool, list, out + KeptOf(batch, arena), polls + batch, arena)
  {
    KeptConcat(polls, batch, arena);
  }

  lemma MoreNodes<V>(pool: seq<Removed<Task<V>>>, list: List<Task<V>>, out: set<Node<Task<V>>>,
                     polls: seq<Poll<V>>, arena: seq<Node<Task<V>>>, arena': seq<Node<Task<V>>>)
    requires AtHand(pool, list, out, polls, arena) && arena <= arena'
    requires forall i :: 0 <= i < |polls| ==> polls[i].node < |arena|
    ensures AtHand(pool, list, out, polls, arena')
  {
    KeptFrame(polls, arena, arena');
  }

  /** The polls are of nodes that exist. */
  lemma PolledExist<V>(selector: Selector<V>)
    requires selector.Valid()
    ensures forall i :: 0 <= i < |selector.polls| ==> selector.polls[i].node < |selector.arena|
  {
    hide selector.Buried, Receiver.Valid, Nodes, PollsOf;
    selector.ShelfIsPlaced(selector.queue.created, selector.queue.h.retired);
    BooksSound(selector.polls, selector.scripts, selector.queue.h, selector.queue.created);
    forall i | 0 <= i < |selector.polls|
      ensures selector.polls[i].node < |selector.arena|
    {
      assert SoundAt(selector.polls, selector.scripts, i);
    }
  }

  /** A call keeps only what was stored when it began, so nothing that is at hand. */
  lemma KeptWasStored<V>(start: seq<Node<Task<V>>>, nodes: seq<Node<Task<V>>>, served: seq<nat>, batch: seq<Poll<V>>,
                         arena: seq<Node<Task<V>>>)
    requires Batch(start, nodes, served, batch, arena) && Distinct(served) && Placed(start, arena)
    ensures forall m <- KeptOf(batch, arena) :: m in start
  {
    EachOnce(start, nodes, served, batch, arena);
    forall m | m in KeptOf(batch, arena)
      ensures m in start
    {
      var i :| 0 <= i < |batch| && Kept(batch[i].turn) && batch[i].node < |arena| && m == arena[batch[i].node];
      assert batch[i].node in Ids(start);
      var x :| x in start && x.id == batch[i].node;
    }
  }

  /** Whoever has a node that is out can end it. */
  lemma OutIsValid<V>(selector: Selector<V>, m: Node<Task<V>>)
    requires selector.Valid() && m in selector.list.out
    ensures Removed(m, selector.list).Valid() && m in selector.arena
  {
    hide selector.Shelf, selector.Buried, Books, Receiver.Valid;
    var list := selector.list;
    assert m in list.made;
    assert Account(m, list.nodes, list.out, list.spent);
  }

  lemma StoredIsMade<V>(selector: Selector<V>)
    requires selector.Valid()
    ensures forall i :: 0 <= i < |selector.list.nodes| ==> selector.list.nodes[i] in selector.arena
    ensures forall m <- selector.list.out :: m in selector.arena && m !in selector.list.nodes
    ensures Placed(selector.list.nodes, selector.arena) && |selector.arena| == |selector.scripts|
  {
    hide selector.Buried, Books, Receiver.Valid;
    selector.NoneHandedOut();
    selector.ShelfIsPlaced(selector.queue.created, selector.queue.h.retired);
    forall i | 0 <= i < |selector.list.nodes|
      ensures selector.list.nodes[i] in selector.arena
    {
      assert selector.list.nodes[i] in selector.list.nodes;
    }
  }

  /** One operation. */
  method Do<V>(selector: Selector<V>, op: Op<V>, pool: seq<Removed<Task<V>>>) returns (left: seq<Removed<Task<V>>>)
    requires selector.Valid() && AtHand(pool, selector.list, selector.list.out, selector.polls, selector.arena)
    modifies selector, selector.queue, selector.list, selector.arena
    ensures selector.Valid() && AtHand(left, selector.list, selector.list.out, selector.polls, selector.arena)
    ensures old(selector.arena) <= selector.arena && fresh(selector.arena[|old(selector.arena)|..])
    ensures selector.scripts == old(selector.scripts) + TaskOf(op)
    ensures (op.TakeValue? || op.DropValue?) && op.k < |pool| ==> left == Without(pool, op.k)
    ensures StaysOut(old(selector.arena), old(selector.list.nodes), old(selector.polls),
                     selector.arena, selector.list.nodes, selector.polls)
    ensures old(selector.queue.log) <= selector.queue.log
  {
    hide Selector<V>.Valid, StaysOut, KeptOf, AtHand, Sift;
    StoredIsMade(selector);
    StaysOutUnpolled(selector.arena, selector.list.nodes, selector.polls, selector.arena, selector.list.nodes);
    PolledExist(selector);
    left := pool;
    match op
    case Push(turn) =>
      var node := selector.Push(turn);
      MoreNodes(pool, selector.list, selector.list.out, selector.polls, old(selector.arena), selector.arena);
    case Remove(n) =>
      if n < |selector.arena| {
        left := TakeOff(selector, n, pool);
      }
    case TakeValue(k) =>
      if k < |pool| {
        OneLessAtHand(pool, selector.list, selector.list.out, selector.polls, selector.arena, k);
        OutIsValid(selector, pool[k].node);
        var task := selector.TakeValue(pool[k]);
        left := Without(pool, k);
      }
    case DropValue(k) =>
      if k < |pool| {
        OneLessAtHand(pool, selector.list, selector.list.out, selector.polls, selector.arena, k);
        OutIsValid(selector, pool[k].node);
        selector.DropValue(pool[k]);
        left := Without(pool, k);
      }
    case Retain(pred) =>
      selector.Retain(pred);
    case Poll(waker) =>
      PollOnce(selector, waker, pool);
    case Wake(ids) =>
      selector.Wake(ids);
    case WakeAll =>
      selector.WakeAll();
  }

  /** `remove` of node n: its `Removed`, if there is one, is at hand. */
  method TakeOff<V>(selector: Selector<V>, n: nat, pool: seq<Removed<Task<V>>>) returns (left: seq<Removed<Task<V>>>)
    requires selector.Valid() && n < |selector.arena|
    requires AtHand(pool, selector.list, selector.list.out, selector.polls, selector.arena)
    modifies selector.list, selector.list.nodes
    ensures selector.Valid() && AtHand(left, selector.list, selector.list.out, selector.polls, selector.arena)
    ensures StaysOut(selector.arena, old(selector.list.nodes), selector.polls,
                     selector.arena, selector.list.nodes, selector.polls)
  {
    hide Selector<V>.Valid, StaysOut, KeptOf, AtHand, Keep;
    StoredIsMade(selector);
    var r := selector.Remove(Id(selector.queue, selector.arena[n]));
    if r.None? {
      assert selector.list.out == old(selector.list.out);
      return pool;
    }
    OneMoreAtHand(pool, selector.list, old(selector.list.out), selector.polls, selector.arena, selector.arena[n]);
    return pool + [r.value];
  }

  method PollOnce<V>(selector: Selector<V>, waker: nat, ghost pool: seq<Removed<Task<V>>>)
    requires selector.Valid() && AtHand(pool, selector.list, selector.list.out, selector.polls, selector.arena)
    modifies selector`polls, selector`answers, selector`parked, selector.queue, selector.list, selector.list.nodes
    ensures selector.Valid() && AtHand(pool, selector.list, selector.list.out, selector.polls, selector.arena)
    ensures StaysOut(selector.arena, old(selector.list.nodes), old(selector.polls),
                     selector.arena, selector.list.nodes, selector.polls)
    ensures old(selector.queue.log) <= selector.queue.log
  {
    hide Selector<V>.Valid, StaysOut, KeptOf, AtHand, Batch, Answers, Quiet, Heard, Placed, Waiting;
    ghost var list, arena, polls := selector.list, selector.arena, selector.polls;
    ghost var start, out := list.nodes, list.out;
    StoredIsMade(selector);
    var answer, snapshot, k, batch := selector.PollNext(waker);
    KeptWasStored(start, list.nodes, snapshot[..k], batch, arena);
    SomeKept(pool, list, out, polls, arena, batch);
  }

  /** Any operations. Whoever is not stored before them is not polled in them, and dequeued once at most. */
  method Run<V>(selector: Selector<V>, ops: seq<Op<V>>, pool: seq<Removed<Task<V>>>)
    returns (left: seq<Removed<Task<V>>>)
    requires selector.Valid() && AtHand(pool, selector.list, selector.list.out, selector.polls, selector.arena)
    modifies selector, selector.queue, selector.list, selector.arena
    ensures selector.Valid() && AtHand(left, selector.list, selector.list.out, selector.polls, selector.arena)
    ensures old(selector.arena) <= selector.arena && fresh(selector.arena[|old(selector.arena)|..])
    ensures selector.scripts == old(selector.scripts) + TasksOf(ops)
    ensures forall n :: 0 <= n < |old(selector.arena)| && old(selector.arena[n] !in selector.list.nodes) ==>
      OnceMore(old(selector.polls), selector.polls, old(selector.queue.h.delivered), selector.queue.h.delivered, n)
  {
    hide Selector<V>.Valid, StaysOut, AtHand, TaskOf, TasksOf, OnceMore;
    left := pool;
    ghost var arena, nodes, polls, log := selector.arena, selector.list.nodes, selector.polls, selector.queue.log;
    ghost var scripts, delivered := selector.scripts, selector.queue.h.delivered;
    StaysOutUnpolled(arena, nodes, polls, arena, nodes);
    History(selector);
    NoTasks<V>();
    for i := 0 to |ops|
      invariant selector.Valid() && AtHand(left, selector.list, selector.list.out, selector.polls, selector.arena)
      invariant arena <= selector.arena && fresh(selector.arena[|arena|..])
      invariant StaysOut(arena, nodes, polls, selector.arena, selector.list.nodes, selector.polls)
      invariant log <= selector.queue.log
      invariant selector.scripts == scripts + TasksOf(ops[..i])
    {
      TasksSnoc(ops, i);
      ghost var known, listed, polled := selector.arena, selector.list.nodes, selector.polls;
      assert known == arena + known[|arena|..];
      left := Do(selector, ops[i], left);
      StaysOutTransitive(arena, nodes, polls, known, listed, polled, selector.arena, selector.list.nodes,
                         selector.polls);
      assert selector.arena == known + selector.arena[|known|..];
      assert selector.arena[|arena|..] == known[|arena|..] + selector.arena[|known|..];
    }
    assert ops[..|ops|] == ops;
    History(selector);
    forall n | 0 <= n < |arena| && arena[n] !in nodes
      ensures OnceMore(polls, selector.polls, delivered, selector.queue.h.delivered, n)
    {
      Once(selector, log, n, arena, nodes, polls, delivered);
    }
  }

  lemma Once<V>(selector: Selector<V>, log: seq<Action>, n: nat, arena: seq<Node<Task<V>>>, nodes: seq<Node<Task<V>>>,
                polls: seq<Poll<V>>, delivered: seq<nat>)
    requires n < |arena| && arena[n] !in nodes && log <= selector.queue.log
    requires StaysOut(arena, nodes, polls, selector.arena, selector.list.nodes, selector.polls)
    requires selector.queue.View() == Exec(Init(selector.queue.threads), selector.queue.log)
    requires Nodes(selector.polls) == selector.queue.h.released
    requires Nodes(polls) == Exec(Init(selector.queue.threads), log).h.released
    requires delivered == Exec(Init(selector.queue.threads), log).h.delivered
    ensures OnceMore(polls, selector.polls, delivered, selector.queue.h.delivered, n)
  {
    hide StaysOut, Exec;
    RemovedIsDequeuedOnceMore(selector.queue.threads, log, selector.queue.log, n, arena, nodes, polls,
                              selector.arena, selector.list.nodes, selector.polls);
  }

  /** Node n was not polled in between, and dequeued once at most. */
  ghost predicate OnceMore<V>(polls: seq<Poll<V>>, polls': seq<Poll<V>>, delivered: seq<nat>, delivered': seq<nat>,
                              n: nat) {
    PollsOf(polls', n) == PollsOf(polls, n) && Times(delivered', n) <= Times(delivered, n) + 1
  }

  lemma NoTasks<V>()
    ensures TasksOf<V>([]) == []
  {
  }

  lemma TasksSnoc<V>(ops: seq<Op<V>>, i: nat)
    requires i < |ops|
    ensures TasksOf(ops[..i + 1]) == TasksOf(ops[..i]) + TaskOf(ops[i])
  {
    assert ops[..i + 1][..i] == ops[..i];
  }

  lemma History<V>(selector: Selector<V>)
    requires selector.Valid()
    ensures selector.queue.View() == Exec(Init(selector.queue.threads), selector.queue.log)
    ensures Nodes(selector.polls) == selector.queue.h.released
  {
    hide selector.Shelf, selector.Buried, Inv, Exec;
    BooksSound(selector.polls, selector.scripts, selector.queue.h, selector.queue.created);
  }

  /** The drop of the selector, as far as values go: the list drops what is stored. */
  method DropSelector<V>(selector: Selector<V>, panics: nat -> bool) returns (outcome: DropOutcome)
    requires selector.Valid()
    modifies selector.list, selector.list.nodes
    ensures outcome == Verdict(Panicking(old(selector.list.nodes), panics))
    ensures outcome.Completed? <==> !SomePanics(old(selector.list.nodes), panics)
    ensures outcome.Aborted? <==> TwoPanic(old(selector.list.nodes), panics)
    ensures selector.list.Accounted() && selector.list.made == selector.arena
    ensures selector.list.out == old(selector.list.out)
    ensures !outcome.Aborted? ==>
      selector.list.nodes == [] && selector.list.spent == old(selector.list.spent) + old(selector.list.nodes)
  {
    hide selector.Buried, Books, Receiver.Valid, List<Task<V>>.Accounted, Panicking;
    selector.ListOfShelf(selector.queue.created, selector.queue.h.retired);
    ghost var dropped;
    outcome, dropped := selector.list.DropAll(panics, false);
  }

  /** A poll of node n ended with a transformation that kept its `Removed`. */
  ghost predicate WasKept<V>(polls: seq<Poll<V>>, n: nat) {
    exists j :: 0 <= j < |polls| && polls[j].node == n && Kept(polls[j].turn)
  }

  /**
   A whole life: any operations, then the drop of the `Removed`s at hand and of the selector. Unless a second panic
   aborts it, each value pushed is gone, once: dropped or moved out. The only exception are the values whose `Removed`
   a transformation has kept, and those are not gone.
   */
  method Life<V>(threads: nat, schedule: nat -> seq<Action>, ops: seq<Op<V>>, panics: nat -> bool)
    returns (selector: Selector<V>, outcome: DropOutcome)
    requires threads > 0
    ensures selector.scripts == TasksOf(ops) && |selector.arena| == |TasksOf(ops)|
    ensures !outcome.Aborted? ==> forall i :: 0 <= i < |selector.arena| ==>
      var m, kept := selector.arena[i], WasKept(selector.polls, i);
      multiset(selector.list.spent)[m] == (if kept then 0 else 1) && (m.slot.Gone? <==> !kept)
    ensures !outcome.Aborted? ==> forall m <- selector.list.spent :: m in selector.arena
  {
    hide Selector<V>.Valid, AtHand, WasKept, TasksOf, List<Task<V>>.Accounted;
    hide Verdict, Panicking, SomePanics, TwoPanic;
    selector := new Selector(threads, schedule);
    var pool: seq<Removed<Task<V>>> := [];
    NoneAtHand(selector);
    ghost var known := selector.arena;
    pool := Run(selector, ops, pool);
    assert selector.arena == known + selector.arena[|known|..];
    DropEach(selector, pool);
    StoredIsMade(selector);
    OutIsKept(selector.list, selector.list.out, selector.polls, selector.arena);
    outcome := DropSelector(selector, panics);
    AllSpent(selector.list);
  }

  /** The `Removed`s at hand are dropped. */
  method DropEach<V>(selector: Selector<V>, pool: seq<Removed<Task<V>>>)
    requires selector.Valid() && AtHand(pool, selector.list, selector.list.out, selector.polls, selector.arena)
    modifies selector.list`out, selector.list`spent, selector.arena
    ensures selector.Valid() && AtHand([], selector.list, selector.list.out, selector.polls, selector.arena)
  {
    hide Selector<V>.Valid, AtHand;
    ghost var list, polls, arena := selector.list, selector.polls, selector.arena;
    var rest := pool;
    while rest != []
      invariant selector.Valid() && AtHand(rest, list, list.out, polls, arena)
      decreases |rest|
    {
      OneLessAtHand(rest, list, list.out, polls, arena, 0);
      OutIsValid(selector, rest[0].node);
      selector.DropValue(rest[0]);
      rest := Without(rest, 0);
    }
  }

  lemma NoneAtHand<V>(selector: Selector<V>)
    requires selector.list.out == {} && selector.polls == []
    ensures AtHand([], selector.list, selector.list.out, selector.polls, selector.arena)
  {
  }

  lemma OutIsKept<V>(list: List<Task<V>>, out: set<Node<Task<V>>>, polls: seq<Poll<V>>, arena: seq<Node<Task<V>>>)
    requires AtHand([], list, out, polls, arena) && forall i :: 0 <= i < |arena| ==> arena[i].id == i
    ensures forall i :: 0 <= i < |arena| ==> (arena[i] in out <==> WasKept(polls, i))
  {
    forall i | 0 <= i < |arena|
      ensures arena[i] in out <==> WasKept(polls, i)
    {
      if arena[i] in out {
        var j :| 0 <= j < |polls| && Kept(polls[j].turn) && polls[j].node < |arena| && arena[i] == arena[polls[j].node];
        assert arena[polls[j].node].id == polls[j].node;
      }
    }
  }

  lemma AllSpent<T>(list: List<T>)
    requires list.Accounted()
    ensures list.nodes == [] ==> forall i :: 0 <= i < |list.made| ==>
      var m := list.made[i];
      multiset(list.spent)[m] == (if m in list.out then 0 else 1) && (m.slot.Gone? <==> m !in list.out)
    ensures forall m <- list.spent :: m in list.made
  {
    forall i | 0 <= i < |list.made| && list.nodes == []
      ensures var m := list.made[i];
        multiset(list.spent)[m] == (if m in list.out then 0 else 1) && (m.slot.Gone? <==> m !in list.out)
    {
      assert Account(list.made[i], list.nodes, list.out, list.spent);
    }
  }
}
