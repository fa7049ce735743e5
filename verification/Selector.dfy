/**
 `src/selector.rs`: the queue of woken tasks, the list of all tasks, and the loop that polls them.

 The selector's own thread is the consumer of the queue; wakes by a task while it is polled
 are enqueues on this thread, and the other threads run before each access to an atomic.
 */
module Selectors {
  import opened Wrappers
  import opened Protocol
  import opened ProtocolRuns
  import opened ProtocolTheorems
  import opened ProtocolWakeups
  import opened ReceiverSteps
  import opened Queues
  import opened Lists
  import opened Cursors
  import opened Iterators
  import opened Tasks
  import opened Snapshots
  import opened Batches
  import opened SoleThread

  /** Those of the nodes that exist are in the queue, or on their way. */
  ghost predicate Flagged(ids: seq<nat>, created: nat, flags: set<nat>) {
    forall n <- ids :: n < created ==> n in flags
  }

  lemma FlaggedMore(ids: seq<nat>, created: nat, flags: set<nat>, more: set<nat>)
    requires Flagged(ids, created, flags) && flags <= more
    ensures Flagged(ids, created, more)
  {
  }

  lemma FlaggedNone(created: nat, flags: set<nat>)
    ensures Flagged([], created, flags)
  {
  }

  lemma FlaggedBoth(a: seq<nat>, b: seq<nat>, created: nat, flags: set<nat>)
    requires Flagged(a, created, flags) && Flagged(b, created, flags)
    ensures Flagged(a + b, created, flags)
  {
  }

  /** What is asked for after a poll, by its outcome. */
  lemma LaterIsFlagged<V>(turn: Turn<V>, n: nat, created: nat, flags: set<nat>)
    requires Flagged(Later(turn, n), created, flags) && n < created
    ensures turn.outcome.Continues? ==> n in flags
    ensures turn.outcome.Continues? || turn.outcome.Breaks? ==> Flagged(turn.lateWakes, created, flags)
    ensures turn.outcome.Panics? || turn.outcome == Continues(Unwinds) ==> Flagged(turn.dropWakes, created, flags)
    ensures turn.outcome.Breaks? && !turn.outcome.kept ==> Flagged(turn.dropWakes, created, flags)
  {
    var later := Later(turn, n);
    assert turn.outcome.Continues? ==> n == later[0];
    forall x | x in turn.lateWakes && (turn.outcome.Continues? || turn.outcome.Breaks?)
      ensures x in later
    {
    }
  }

  function Numbers<T>(nodes: seq<Node<T>>): seq<nat> {
    if nodes == [] then [] else Numbers(nodes[..|nodes| - 1]) + [nodes[|nodes| - 1].id]
  }

  lemma NumbersSnoc<T>(nodes: seq<Node<T>>, node: Node<T>)
    ensures Numbers(nodes + [node]) == Numbers(nodes) + [node.id]
  {
    assert (nodes + [node])[..|nodes|] == nodes;
  }

  /**
   The log of the polls agrees with the queue's: released to be polled, asked for once by `push` and once by every
   Continue.
   */
  ghost predicate Books<V>(polls: seq<Poll<V>>, scripts: seq<nat -> Turn<V>>, h: History, created: nat) {
    && Nodes(polls) == h.released
    && |scripts| == created
    && (forall n: nat :: multiset(h.requests)[Request(n, Pushed)] == if n < created then 1 else 0)
    && (forall n: nat :: multiset(h.requests)[Request(n, Continued)] == ContinuesOf(polls, n))
    && Sound(polls, scripts)
  }

  lemma BooksFrame<V>(polls: seq<Poll<V>>, scripts: seq<nat -> Turn<V>>, h: History, r: History, created: nat)
    requires Books(polls, scripts, h, created) && r.released == h.released && SameRequests(h.requests, r.requests)
    ensures Books(polls, scripts, r, created)
  {
  }

  lemma BooksSound<V>(polls: seq<Poll<V>>, scripts: seq<nat -> Turn<V>>, h: History, created: nat)
    requires Books(polls, scripts, h, created)
    ensures Sound(polls, scripts) && |scripts| == created && Nodes(polls) == h.released
  {
  }

  lemma BooksPushed<V>(polls: seq<Poll<V>>, scripts: seq<nat -> Turn<V>>, h: History, r: History, turn: nat -> Turn<V>)
    requires Books(polls, scripts, h, |scripts|)
    requires r.released == h.released && AskedOnce(h.requests, r.requests, Request(|scripts|, Pushed))
    ensures Books(polls, scripts + [turn], r, |scripts| + 1)
  {
    MoreScripts(polls, scripts, scripts + [turn]);
  }

  lemma BooksPolled<V>(polls: seq<Poll<V>>, scripts: seq<nat -> Turn<V>>, h: History, r: History, created: nat,
                       p: Poll<V>)
    requires Books(polls, scripts, h, created) && p.node < created
    requires r.released == h.released + [p.node]
    requires if p.turn.outcome.Continues? then AskedOnce(h.requests, r.requests, Request(p.node, Continued))
             else SameRequests(h.requests, r.requests)
    requires p.turn == scripts[p.node](PollsOf(polls, p.node))
    requires forall i :: 0 <= i < |polls| && polls[i].node == p.node ==> !Ends(polls[i].turn)
    ensures Books(polls + [p], scripts, r, created)
  {
    hide Sound, PollsOf, ContinuesOf, Nodes, Ends;
    Logged(polls, p, scripts);
    forall n: nat
      ensures multiset(r.requests)[Request(n, Continued)] == ContinuesOf(polls + [p], n)
    {
      Counted(polls, p, n);
    }
    Counted(polls, p, 0);
  }

  lemma BooksAfterPoll<V>(polls: seq<Poll<V>>, scripts: seq<nat -> Turn<V>>, s: State, r: State, p: Poll<V>)
    requires Books(polls, scripts, s.h, s.created) && p.node < s.created
    requires PolledOnce(s, r, p.node, p.turn.outcome.Continues?)
    requires p.turn == scripts[p.node](PollsOf(polls, p.node))
    requires forall i :: 0 <= i < |polls| && polls[i].node == p.node ==> !Ends(polls[i].turn)
    ensures Books(polls + [p], scripts, r.h, r.created)
  {
    hide SameRequests, AskedOnce;
    BooksPolled(polls, scripts, s.h, r.h, s.created, p);
  }

  /** A node that was never released was never polled. */
  lemma {:induction false} NeverPolled<V>(polls: seq<Poll<V>>, n: nat)
    requires forall j :: 0 <= j < |polls| ==> polls[j].node != n
    ensures PollsOf(polls, n) == 0
  {
    if polls != [] {
      NeverPolled(polls[..|polls| - 1], n);
    }
  }

  /** Whoever was not stored is not stored again, and not polled again. */
  ghost predicate StaysOut<V>(arena: seq<Node<Task<V>>>, nodes: seq<Node<Task<V>>>, polls: seq<Poll<V>>,
                              arena': seq<Node<Task<V>>>, nodes': seq<Node<Task<V>>>, polls': seq<Poll<V>>) {
    && arena <= arena' && polls <= polls'
    && forall n :: 0 <= n < |arena| && arena[n] !in nodes ==>
         arena[n] !in nodes' && forall j :: |polls| <= j < |polls'| ==> polls'[j].node != n
  }

  lemma StaysOutTransitive<V>(arena: seq<Node<Task<V>>>, nodes: seq<Node<Task<V>>>, polls: seq<Poll<V>>,
                              arena': seq<Node<Task<V>>>, nodes': seq<Node<Task<V>>>, polls': seq<Poll<V>>,
                              arena'': seq<Node<Task<V>>>, nodes'': seq<Node<Task<V>>>, polls'': seq<Poll<V>>)
    requires StaysOut(arena, nodes, polls, arena', nodes', polls')
    requires StaysOut(arena', nodes', polls', arena'', nodes'', polls'')
    ensures StaysOut(arena, nodes, polls, arena'', nodes'', polls'')
  {
    forall n | 0 <= n < |arena| && arena[n] !in nodes
      ensures arena[n] !in nodes'' && forall j :: |polls| <= j < |polls''| ==> polls''[j].node != n
    {
      assert arena'[n] == arena[n];
    }
  }

  /** Nothing is polled, and only new nodes get into the list. */
  lemma StaysOutUnpolled<V>(arena: seq<Node<Task<V>>>, nodes: seq<Node<Task<V>>>, polls: seq<Poll<V>>,
                            arena': seq<Node<Task<V>>>, nodes': seq<Node<Task<V>>>)
    requires arena <= arena' && forall m <- nodes' :: m in nodes || m !in arena
    ensures StaysOut(arena, nodes, polls, arena', nodes', polls)
  {
  }

  /** A call polls only what was stored. */
  lemma StaysOutPolled<V>(arena: seq<Node<Task<V>>>, nodes: seq<Node<Task<V>>>, polls: seq<Poll<V>>,
                          nodes': seq<Node<Task<V>>>, served: seq<nat>, batch: seq<Poll<V>>)
    requires Batch(nodes, nodes', served, batch, arena) && Distinct(served) && Placed(nodes, arena)
    ensures StaysOut(arena, nodes, polls, arena, nodes', polls + batch)
  {
    EachOnce(nodes, nodes', served, batch, arena);
    BatchMembers(nodes, nodes', served, batch, arena);
    var polls' := polls + batch;
    forall n, j | 0 <= n < |arena| && arena[n] !in nodes && |polls| <= j < |polls'|
      ensures polls'[j].node != n
    {
      assert polls'[j] == batch[j - |polls|];
      assert polls'[j].node in Ids(nodes);
    }
  }

  class Selector<V> {
    const queue: Receiver
    const list: List<Task<V>>
    var arena: seq<Node<Task<V>>>               // the node a number stands for
    ghost var scripts: seq<nat -> Turn<V>>      // the tasks pushed so far
    ghost var polls: seq<Poll<V>>
    ghost var answers: seq<V>                   // what `poll_next` has returned so far
    ghost var parked: bool                      // `poll_next` returned Pending last

    /** Nodes and list: a node is stored when it is linked, and a retired node is not. */
    ghost predicate Shelf(created: nat, retired: set<nat>)
      reads this`arena, this`scripts, this`polls, list`front, list`len, list`nodes, list.nodes, arena
    {
      && list.Valid()
      && |arena| == |scripts| == created
      && (forall i :: 0 <= i < |arena| ==> arena[i].id == i && (arena[i] in list.nodes || arena[i].next == null))
      && (forall m <- list.nodes :: m.id < |arena| && arena[m.id] == m)
      && (forall m <- list.nodes :: m.slot == Full(Task(scripts[m.id], PollsOf(polls, m.id))))
      && (forall n <- retired :: n < |arena| && arena[n] !in list.nodes)
    }

    /** A task that has ended is not stored. */
    ghost predicate Buried(log: seq<Poll<V>>)
      reads this`arena, list`nodes
    {
      forall j :: 0 <= j < |log| && Ends(log[j].turn) ==> log[j].node < |arena| && arena[log[j].node] !in list.nodes
    }

    /** Each value is stored, or in the hands of a `Removed`, or gone, once. */
    ghost predicate Accounts()
      reads this`arena, list, arena
    {
      list.made == arena && list.Accounted()
    }

    ghost predicate Consistent()
      reads this`arena, this`scripts, this`polls, queue, list, list.nodes, arena
    {
      && queue.Valid() && At(queue.producers, 0).Out?
      && Shelf(queue.created, queue.h.retired) && Buried(polls) && Accounts()
      && Books(polls, scripts, queue.h, queue.created)
    }

    ghost predicate Valid()
      reads this, queue, list, list.nodes, arena
    {
      && Consistent() && queue.consumer.Idle?
      && (parked ==> Parked(queue.View()))
      && answers == Values(Outputs(polls))
    }

    constructor (threads: nat, schedule: nat -> seq<Action>)
      requires threads > 0
      ensures Valid() && list.nodes == [] && list.out == {} && polls == [] && scripts == [] && !parked
      ensures fresh(queue) && fresh(list)
      ensures queue.threads == threads && queue.schedule == schedule
      ensures queue.View() == Init(threads) && arena == [] && answers == []
    {
      queue := new Receiver(threads, schedule);
      list := new List();
      arena, scripts, polls, answers, parked := [], [], [], [], false;
    }

    // ---------- wakes ----------

    /** Nodes are woken on this thread: `Id::wake`, or wakers used while a task is polled. */
    method Stir(ids: seq<nat>)
      requires queue.Resting()
      modifies queue
      ensures queue.Resting() && Calm(old(queue.View()), queue.View())
      ensures old(queue.log) <= queue.log
      ensures SameRequests(old(queue.h.requests), queue.h.requests)
      ensures Flagged(ids, queue.created, queue.flags)
      ensures queue.Alone() ==> Appends(old(queue.View()), queue.View(), ids)
    {
      hide Receiver.Valid, Calm, Flagged, SameRequests, Inv, Exec, Appends, Entries, Raised;
      ghost var s := queue.View();
      CalmReflexive(s);
      AppendsNothing(s);
      FlaggedNone(queue.created, queue.flags);
      for i := 0 to |ids|
        invariant queue.Resting() && Calm(s, queue.View()) && old(queue.log) <= queue.log
        invariant SameRequests(s.h.requests, queue.h.requests)
        invariant Flagged(ids[..i], s.created, queue.flags)
        invariant queue.Alone() ==> Appends(s, queue.View(), ids[..i])
      {
        ghost var m := queue.View();
        CalmKeeps(s, m);
        StirOne(ids[i]);
        CalmTransitive(s, m, queue.View());
        CalmKeeps(m, queue.View());
        FlaggedMore(ids[..i], s.created, m.m.flags, queue.flags);
        FlaggedBoth(ids[..i], [ids[i]], s.created, queue.flags);
        assert ids[..i + 1] == ids[..i] + [ids[i]];
        if queue.Alone() {
          AppendsMore(s, m, queue.View(), ids[..i], [ids[i]]);
        }
      }
      CalmKeeps(s, queue.View());
      assert ids[..|ids|] == ids;
    }

    method StirOne(id: nat)
      requires queue.Resting()
      modifies queue
      ensures queue.Resting() && Calm(old(queue.View()), queue.View())
      ensures old(queue.log) <= queue.log
      ensures SameRequests(old(queue.h.requests), queue.h.requests)
      ensures Flagged([id], old(queue.created), queue.flags)
      ensures queue.Alone() ==> Appends(old(queue.View()), queue.View(), [id])
    {
      hide Receiver.Valid, Calm, Beside, AskedOnce, SameRequests, Inv, Exec, Appends;
      ghost var s := queue.View();
      CalmReflexive(s);
      if id < queue.created {
        queue.Enqueue(id, Woken);
        BesideCalm(s, queue.View());
        WakeIsUncounted(s.h.requests, queue.h.requests, id);
        CalmKeeps(s, queue.View());
        if queue.Alone() {
          AppendsOne(s, queue.View(), id);
        }
      } else {
        AppendsAbsent(s, id);
      }
    }

    method Wake(ids: seq<nat>)
      requires Valid()
      modifies queue
      ensures Valid()
      ensures old(queue.log) <= queue.log
      ensures Flagged(ids, queue.created, queue.flags)
      ensures queue.Alone() ==>
        Appends(old(queue.View()), queue.View(), ids) && queue.h.delivered == old(queue.h.delivered)
      ensures StaysOut(old(arena), old(list.nodes), old(polls), arena, list.nodes, polls)
    {
      hide Receiver.Valid, Parked, Books, Shelf, Inv, Exec, SameRequests, Accounts, Appends;
      Stir(ids);
      BooksFrame(polls, scripts, old(queue.h), queue.h, queue.created);
      StaysOutUnpolled(arena, list.nodes, polls, arena, list.nodes);
    }

    /** Lines 213-215: every stored task is woken. */
    method WakeAll()
      requires Valid()
      modifies queue
      ensures Valid()
      ensures old(queue.log) <= queue.log
      ensures Flagged(Numbers(list.nodes), queue.created, queue.flags)
      ensures queue.Alone() ==>
        Appends(old(queue.View()), queue.View(), Numbers(list.nodes)) && queue.h.delivered == old(queue.h.delivered)
      ensures StaysOut(old(arena), old(list.nodes), old(polls), arena, list.nodes, polls)
    {
      hide Receiver.Valid, Parked, Books, Shelf, Buried, Inv, Exec, SameRequests, Calm, Flagged, Accounts, Appends;
      StaysOutUnpolled(arena, list.nodes, polls, arena, list.nodes);
      ListOfShelf(queue.created, queue.h.retired);
      WakeEach();
      CalmMeans(old(queue.View()), queue.View());
      BooksFrame(polls, scripts, old(queue.h), queue.h, queue.created);
    }

    method WakeEach()
      requires queue.Resting() && list.Valid()
      modifies queue
      ensures queue.Resting() && Calm(old(queue.View()), queue.View())
      ensures SameRequests(old(queue.h.requests), queue.h.requests)
      ensures old(queue.log) <= queue.log
      ensures Flagged(Numbers(list.nodes), old(queue.created), queue.flags)
      ensures queue.Alone() ==> Appends(old(queue.View()), queue.View(), Numbers(list.nodes))
    {
      hide Receiver.Valid, Appends, Inv, Exec, SameRequests, Cursor<Task<V>>.Valid, Calm, Flagged, List<Task<V>>.Valid;
      ghost var s := queue.View();
      CalmReflexive(s);
      FlaggedNone(s.created, s.m.flags);
      AppendsNothing(s);
      var cursor := new Cursor(list);
      var more := true;
      while more
        invariant cursor.Valid() && cursor.first + cursor.ahead == list.nodes && (more || cursor.ahead == [])
        invariant queue.Resting() && Calm(s, queue.View()) && SameRequests(s.h.requests, queue.h.requests)
        invariant old(queue.log) <= queue.log
        invariant Flagged(Numbers(cursor.first), s.created, queue.flags)
        invariant queue.Alone() ==> Appends(s, queue.View(), Numbers(cursor.first))
        decreases |cursor.ahead|, more
      {
        more := WakeNext(cursor, s);
      }
      assert cursor.first == list.nodes;
    }

    /** The next node of the cursor is woken. */
    method WakeNext(cursor: Cursor<Task<V>>, ghost s: State) returns (more: bool)
      requires cursor.Valid() && queue.Resting() && Calm(s, queue.View())
      requires SameRequests(s.h.requests, queue.h.requests)
      requires Flagged(Numbers(cursor.first), s.created, queue.flags)
      requires queue.Alone() ==> Appends(s, queue.View(), Numbers(cursor.first))
      modifies cursor, queue
      ensures cursor.Valid() && cursor.first + cursor.ahead == old(cursor.first + cursor.ahead)
      ensures if more then |cursor.ahead| < old(|cursor.ahead|) else cursor.ahead == []
      ensures queue.Resting() && Calm(s, queue.View()) && SameRequests(s.h.requests, queue.h.requests)
      ensures old(queue.log) <= queue.log
      ensures Flagged(Numbers(cursor.first), s.created, queue.flags)
      ensures queue.Alone() ==> Appends(s, queue.View(), Numbers(cursor.first))
    {
      hide Receiver.Valid, Inv, Exec, SameRequests, Cursor<Task<V>>.Valid, Calm, Flagged, Parked, Appends;
      var next := cursor.PopFront();
      more := next.Some?;
      if more {
        ghost var m := queue.View();
        CalmMeans(s, m);
        Stir([next.value.id]);
        CalmTransitive(s, m, queue.View());
        CalmKeeps(m, queue.View());
        FlaggedMore(Numbers(old(cursor.first)), s.created, m.m.flags, queue.flags);
        NumbersSnoc(old(cursor.first), next.value);
        FlaggedBoth(Numbers(old(cursor.first)), [next.value.id], s.created, queue.flags);
        if queue.Alone() {
          AppendsMore(s, m, queue.View(), Numbers(old(cursor.first)), [next.value.id]);
        }
      }
    }

    lemma ListOfShelf(created: nat, retired: set<nat>)
      requires Shelf(created, retired)
      ensures list.Valid() && forall m <- list.nodes :: m.id < created
    {
    }

    // ---------- lines 95-97, and lines 41-77 of list.rs ----------

    method Push(turn: nat -> Turn<V>) returns (node: Node<Task<V>>)
      requires Valid()
      modifies this`arena, this`scripts, queue, list, list.nodes
      ensures Valid() && fresh(node)
      ensures old(queue.log) <= queue.log
      ensures list.nodes == old(list.nodes) + [node] && node.id == old(queue.created)
      ensures arena == old(arena) + [node] && scripts == old(scripts) + [turn]
      ensures list.out == old(list.out) && list.spent == old(list.spent)
      ensures forall m <- old(list.nodes) :: m.slot == old(m.slot)
      ensures node.id in queue.flags && queue.created == old(queue.created) + 1
      ensures queue.h.retired == old(queue.h.retired) && queue.h.delivered == old(queue.h.delivered)
      ensures queue.Alone() ==>
        Reals(queue.q.chain) == old(Reals(queue.q.chain)) + [node.id] && queue.flags == old(queue.flags) + {node.id}
      ensures StaysOut(old(arena), old(list.nodes), old(polls), arena, list.nodes, polls)
    {
      hide Receiver.Valid, Parked, Books, Inv, Exec, AskedOnce, SameRequests, Shelf, Buried, Accounts;
      var id := queue.Create();
      BooksSound(polls, scripts, queue.h, id);
      node := Store(id, turn, queue.h.retired);
      StaysOutUnpolled(old(arena), old(list.nodes), polls, arena, list.nodes);
      ghost var s := queue.View();
      queue.Enqueue(id, Pushed);
      BooksPushed(polls, old(scripts), s.h, queue.h, turn);
    }

    /** The node is allocated and becomes the last of the list. */
    method Store(id: nat, turn: nat -> Turn<V>, ghost retired: set<nat>) returns (node: Node<Task<V>>)
      requires Shelf(id, retired) && Buried(polls) && Sound(polls, scripts) && Accounts()
      modifies this`arena, this`scripts, list, list.nodes
      ensures Shelf(id + 1, retired) && Buried(polls) && Accounts() && fresh(node) && |old(scripts)| == id
      ensures list.nodes == old(list.nodes) + [node] && node.id == id
      ensures arena == old(arena) + [node] && scripts == old(scripts) + [turn]
      ensures list.out == old(list.out) && list.spent == old(list.spent)
      ensures forall m <- old(list.nodes) :: m.slot == old(m.slot)
    {
      hide List<Task<V>>.Valid, List<Task<V>>.Accounted;
      node := new Node(id, Task(turn, 0));
      forall j | 0 <= j < |polls|
        ensures polls[j].node != id
      {
        assert SoundAt(polls, scripts, j);
      }
      NeverPolled(polls, id);
      list.LinkBack(node);
      arena := arena + [node];
      scripts := scripts + [turn];
    }

    // ---------- lines 116-148 and 217-221 ----------

    /** An id is a node and the queue it belongs to. Whoever holds one for this queue has it from `Push`. */
    ghost predicate Genuine(id: Id<V>)
      reads this
    {
      id.home == queue ==> id.node in arena
    }

    /** `contains`, `get` and `get_mut`: the id was created here, and its node is linked. */
    method Contains(id: Id<V>) returns (found: bool)
      requires Valid() && Genuine(id)
      ensures found <==> id.home == queue && id.node in list.nodes
    {
      if id.home != queue {
        return false;
      }
      found := list.Linked(id.node);
    }

    /** The node leaves the list and its owner is returned. It may stay in the queue. */
    method Remove(id: Id<V>) returns (r: Option<Removed<Task<V>>>)
      requires Valid() && Genuine(id)
      modifies list, list.nodes
      ensures Valid()
      ensures r.Some? <==> id.home == queue && id.node in old(list.nodes)
      ensures r.Some? ==> r.value == Removed(id.node, list) && r.value.Valid() && r.value.node.slot == old(id.node.slot)
      ensures list.nodes == if r.Some? then Keep(old(list.nodes), {id.node}) else old(list.nodes)
      ensures list.out == old(list.out) + (if r.Some? then {id.node} else {}) && list.spent == old(list.spent)
      ensures StaysOut(old(arena), old(list.nodes), old(polls), arena, list.nodes, polls)
    {
      hide Receiver.Valid, Parked, Books, Inv, Exec, Keep, List<Task<V>>.Valid, List<Task<V>>.Accounted;
      if id.home != queue {
        StaysOutUnpolled(arena, list.nodes, polls, arena, list.nodes);
        return None;
      }
      r := TakeOut(id.node, queue.created, queue.h.retired);
      StaysOutUnpolled(arena, old(list.nodes), polls, arena, list.nodes);
    }

    /** `Removed::into_inner`, for a task of this selector. */
    method TakeValue(removed: Removed<Task<V>>) returns (task: Task<V>)
      requires Valid() && removed.Valid() && removed.home == list
      modifies removed.node`slot, list`out, list`spent
      ensures Valid() && Full(task) == old(removed.node.slot) && removed.node.slot.Gone?
      ensures list.out == old(list.out) - {removed.node} && list.spent == old(list.spent) + [removed.node]
    {
      hide Receiver.Valid, Parked, Books, Inv, Exec, List<Task<V>>.Accounted;
      task := removed.IntoInner();
      forall i | 0 <= i < |list.nodes|
        ensures LinkedAt(list.nodes, i)
      {
        assert old(LinkedAt(list.nodes, i));
      }
    }

    /** The drop of a `Removed`. */
    method DropValue(removed: Removed<Task<V>>)
      requires Valid() && removed.Valid() && removed.home == list
      modifies removed.node`slot, list`out, list`spent
      ensures Valid() && removed.node.slot.Gone?
      ensures list.out == old(list.out) - {removed.node} && list.spent == old(list.spent) + [removed.node]
    {
      var task := TakeValue(removed);
    }

    /** Lines 205-210: the tasks that do not satisfy the predicate are removed and dropped. */
    method Retain(pred: nat -> bool)
      requires Valid()
      modifies list, list.nodes
      ensures Valid() && list.nodes == Sift(old(list.nodes), pred)
      ensures list.out == old(list.out) && old(list.spent) <= list.spent
      ensures StaysOut(old(arena), old(list.nodes), old(polls), arena, list.nodes, polls)
    {
      hide Receiver.Valid, Parked, Books, Inv, Exec, Sift, List<Task<V>>.Valid, List<Task<V>>.Accounted;
      Iterators.Retain(list, pred);
      forall m | m in list.nodes
        ensures m in old(list.nodes)
      {
        SiftMember(old(list.nodes), pred, m);
      }
      StaysOutUnpolled(arena, old(list.nodes), polls, arena, list.nodes);
    }

    /** The node leaves the list, if it is there. */
    method TakeOut(node: Node<Task<V>>, ghost created: nat, ghost retired: set<nat>)
      returns (r: Option<Removed<Task<V>>>)
      requires Shelf(created, retired) && node in arena && list.made == arena
      modifies list, list.nodes
      ensures Shelf(created, retired) && node !in list.nodes
      ensures forall m <- list.nodes :: m in old(list.nodes)
      ensures r.Some? <==> node in old(list.nodes)
      ensures list.nodes == if r.Some? then Keep(old(list.nodes), {node}) else old(list.nodes)
      ensures r.Some? ==> r.value == Removed(node, list) && r.value.Valid() && r.value.node.slot == old(node.slot)
      ensures if r.Some? then list.HandsOut(node) else list.SameValues()
    {
      hide List<Task<V>>.Valid, List<Task<V>>.Accounted, Keep, Without;
      ListIsDistinct(list);
      ghost var k;
      r, k := list.Remove(node);
      if r.Some? {
        WithoutMembers(old(list.nodes), k);
        WithoutIsKeep(old(list.nodes), k);
      }
    }

    // ---------- lines 289-336, and lines 504-537 of list.rs ----------

    /** `poll_progress` of a stored task. */
    method Progress(n: nat, ghost created: nat, ghost retired: set<nat>) returns (turn: Turn<V>)
      requires Shelf(created, retired) && Buried(polls) && n < created && arena[n] in list.nodes && Accounts()
      modifies this`polls, arena[n]
      ensures Shelf(created, retired) && Buried(old(polls)) && Accounts()
      ensures turn == scripts[n](PollsOf(old(polls), n)) && polls == old(polls) + [Poll(n, turn)]
      ensures forall j :: 0 <= j < |old(polls)| && old(polls)[j].node == n ==> !Ends(old(polls)[j].turn)
    {
      turn := Play(n, created, retired);
      forall m | m in list.made
        ensures Account(m, list.nodes, list.out, list.spent)
      {
        assert old(Account(m, list.nodes, list.out, list.spent));
      }
    }

    method Play(n: nat, ghost created: nat, ghost retired: set<nat>) returns (turn: Turn<V>)
      requires Shelf(created, retired) && Buried(polls) && n < created && arena[n] in list.nodes
      modifies this`polls, arena[n]
      ensures Shelf(created, retired) && Buried(old(polls)) && old(arena[n].slot.Full?) && arena[n].slot.Full?
      ensures turn == scripts[n](PollsOf(old(polls), n)) && polls == old(polls) + [Poll(n, turn)]
      ensures forall j :: 0 <= j < |old(polls)| && old(polls)[j].node == n ==> !Ends(old(polls)[j].turn)
    {
      var task := arena[n].slot.value;
      turn := task.turn(task.age);
      arena[n].slot := Full(task.(age := task.age + 1));
      polls := polls + [Poll(n, turn)];
      forall m <- list.nodes
        ensures m.slot == Full(Task(scripts[m.id], PollsOf(polls, m.id)))
      {
        Counted(old(polls), Poll(n, turn), m.id);
      }
      forall i | 0 <= i < |list.nodes|
        ensures LinkedAt(list.nodes, i)
      {
        assert old(LinkedAt(list.nodes, i));
      }
    }

    /** `remove_now`: the task leaves the list, for a `Removed`. */
    method Extract(n: nat, ghost created: nat, ghost retired: set<nat>) returns (removed: Removed<Task<V>>)
      requires Shelf(created, retired) && Accounts() && n < created && arena[n] in list.nodes
      modifies list, list.nodes
      ensures Shelf(created, retired) && Accounts() && arena[n] !in list.nodes
      ensures removed == Removed(arena[n], list) && removed.Valid()
      ensures list.nodes == Keep(old(list.nodes), {arena[n]})
      ensures list.out == old(list.out) + {arena[n]} && list.spent == old(list.spent)
      ensures forall m <- list.nodes :: m in old(list.nodes)
    {
      hide Shelf, Keep, List<Task<V>>.Accounted;
      ShelfIsPlaced(created, retired);
      var r := TakeOut(arena[n], created, retired);
      removed := r.value;
    }

    lemma NoneHandedOut()
      requires Accounts()
      ensures forall m <- list.nodes :: m !in list.out
    {
      list.NotHandedOut();
    }

    /** The drop of the guard: the task leaves the list and its value is dropped, which may wake nodes. */
    method Evict(n: nat, ghost created: nat, ghost retired: set<nat>)
      requires Shelf(created, retired) && Accounts() && n < created && arena[n] in list.nodes
      modifies list, list.nodes
      ensures Shelf(created, retired) && Accounts() && arena[n] !in list.nodes && arena[n].slot.Gone?
      ensures list.nodes == Keep(old(list.nodes), {arena[n]})
      ensures list.out == old(list.out) && list.spent == old(list.spent) + [arena[n]]
      ensures forall m <- list.nodes :: m in old(list.nodes)
    {
      hide Shelf, Keep, List<Task<V>>.Accounted;
      ShelfIsPlaced(created, retired);
      NoneHandedOut();
      var removed := Extract(n, created, retired);
      Discard(removed, created, retired);
    }

    /** The value of a `Removed` is dropped. */
    method Discard(removed: Removed<Task<V>>, ghost created: nat, ghost retired: set<nat>)
      requires Shelf(created, retired) && Accounts() && removed.Valid() && removed.home == list
      modifies removed.node`slot, list`out, list`spent
      ensures Shelf(created, retired) && Accounts() && removed.node.slot.Gone?
      ensures list.out == old(list.out) - {removed.node} && list.spent == old(list.spent) + [removed.node]
    {
      hide List<Task<V>>.Accounted;
      removed.Drop();
      forall i | 0 <= i < |list.nodes|
        ensures LinkedAt(list.nodes, i)
      {
        assert old(LinkedAt(list.nodes, i));
      }
    }

    /** A dequeued node whose task is stored is polled. */
    method PollTask(n: nat) returns (turn: Turn<V>)
      requires Consistent() && queue.consumer == Holding(n) && n < queue.created && arena[n] in list.nodes
      modifies this`polls, queue, list, list.nodes
      ensures Consistent() && PolledOnce(old(queue.View()), queue.View(), n, turn.outcome.Continues?)
      ensures old(queue.log) <= queue.log
      ensures turn == scripts[n](PollsOf(old(polls), n)) && polls == old(polls) + [Poll(n, turn)]
      ensures list.nodes == if Ends(turn) then Keep(old(list.nodes), {arena[n]}) else old(list.nodes)
      ensures list.out == old(list.out) + (if Kept(turn) then {arena[n]} else {}) && old(list.spent) <= list.spent
      ensures Ends(turn) ==> if Kept(turn) then Removed(arena[n], list).Valid() else arena[n].slot.Gone?
      ensures arena[n] in list.nodes <==>
        turn.outcome.Waits? || (turn.outcome.Continues? && turn.outcome.cont != Unwinds)
      ensures arena[n].slot.Gone? <==>
        turn.outcome.Panics? || turn.outcome == Continues(Unwinds) || (turn.outcome.Breaks? && !turn.outcome.kept)
      ensures forall m <- list.nodes :: m in old(list.nodes)
      ensures Flagged(turn.wakes, queue.created, queue.flags)
      ensures turn.outcome.Continues? ==> n in queue.flags
      ensures turn.outcome.Continues? || turn.outcome.Breaks? ==> Flagged(turn.lateWakes, queue.created, queue.flags)
      ensures arena[n].slot.Gone? ==> Flagged(turn.dropWakes, queue.created, queue.flags)
      ensures queue.Alone() ==>
        AppendsAfter(old(queue.View()), queue.View(), n,
          match turn.outcome
          case Waits => turn.wakes
          case Panics => turn.wakes + turn.dropWakes
          case Continues(t) => turn.wakes + [n] + turn.lateWakes + (if t.Unwinds? then turn.dropWakes else [])
          case Breaks(_, kept) => turn.wakes + turn.lateWakes + (if kept then [] else turn.dropWakes))
    {
      hide Receiver.Valid, SameRequests, PolledOnce, Inv, Exec;
      hide Shelf, Books, Keep, Parked, Flagged, Accounts, AppendsAfter, Later;
      ghost var s := queue.View();
      ShelfIsPlaced(s.created, s.h.retired);
      turn := Launch(n);
      ghost var m := queue.View();
      Conclude(s, n, turn);
      PolledKeeps(s, queue.View(), n, turn.outcome.Continues?);
      FlaggedMore(turn.wakes, s.created, m.m.flags, queue.flags);
      LaterIsFlagged(turn, n, s.created, queue.flags);
      AsksByOutcome(turn, n);
      StoredIsFull(queue.created, queue.h.retired);
      BooksAfterPoll(old(polls), scripts, s, queue.View(), Poll(n, turn));
    }

    lemma StoredIsFull(created: nat, retired: set<nat>)
      requires Shelf(created, retired)
      ensures forall m <- list.nodes :: m.slot.Full?
    {
    }

    /** Lines 301-309: the flag is cleared, then the task is polled. */
    method Launch(n: nat) returns (turn: Turn<V>)
      requires queue.Valid() && At(queue.producers, 0).Out? && queue.consumer == Holding(n) && n < queue.created
      requires Shelf(queue.created, queue.h.retired) && Buried(polls) && Accounts() && arena[n] in list.nodes
      modifies this`polls, queue, arena[n]
      ensures queue.Resting() && PolledOnce(old(queue.View()), queue.View(), n, false)
      ensures old(queue.log) <= queue.log
      ensures Shelf(old(queue.created), old(queue.h.retired)) && Buried(old(polls)) && Accounts()
      ensures turn == scripts[n](PollsOf(old(polls), n)) && polls == old(polls) + [Poll(n, turn)]
      ensures forall j :: 0 <= j < |old(polls)| && old(polls)[j].node == n ==> !Ends(old(polls)[j].turn)
      ensures Flagged(turn.wakes, old(queue.created), queue.flags)
      ensures queue.Alone() ==> AppendsAfter(old(queue.View()), queue.View(), n, turn.wakes)
    {
      hide Receiver.Valid, SameRequests, Settled, PolledOnce, Inv, Exec;
      hide Shelf, Parked, Flagged, Accounts, AppendsAfter;
      ghost var s := queue.View();
      queue.IntoInner(n);
      ReleasedIsPolled(s, queue.View(), n);
      PolledKeeps(s, queue.View(), n, false);
      if queue.Alone() {
        AfterRelease(s, queue.View(), n);
      }
      turn := Progress(n, s.created, s.h.retired);
      Calmly(s, n, false, [], turn.wakes);
      assert [] + turn.wakes == turn.wakes;
    }

    /** Lines 311-336: what follows the poll that began in s. */
    method Conclude(ghost s: State, n: nat, turn: Turn<V>)
      requires queue.Resting() && PolledOnce(s, queue.View(), n, false)
      requires queue.Alone() ==> AppendsAfter(s, queue.View(), n, turn.wakes)
      requires Shelf(s.created, s.h.retired) && Accounts() && n < s.created && arena[n] in list.nodes
      modifies queue, list, list.nodes
      ensures queue.Resting() && PolledOnce(s, queue.View(), n, turn.outcome.Continues?)
      ensures old(queue.log) <= queue.log && old(queue.flags) <= queue.flags
      ensures Shelf(s.created, s.h.retired) && Accounts()
      ensures queue.Alone() ==> AppendsAfter(s, queue.View(), n, Asks(turn, n))
      ensures Flagged(Later(turn, n), queue.created, queue.flags)
      ensures list.nodes == if Ends(turn) then Keep(old(list.nodes), {arena[n]}) else old(list.nodes)
      ensures list.out == old(list.out) + (if Kept(turn) then {arena[n]} else {}) && old(list.spent) <= list.spent
      ensures Ends(turn) ==> if Kept(turn) then Removed(arena[n], list).Valid() else arena[n].slot.Gone?
      ensures forall m <- list.nodes :: m in old(list.nodes)
      ensures Ends(turn) ==> arena[n] !in list.nodes
    {
      hide Receiver.Valid, SameRequests, PolledOnce, Inv, Exec;
      hide Shelf, Keep, Parked, Accounts, Flagged, AppendsAfter;
      ghost var created, retired := s.created, s.h.retired;
      match turn.outcome
      case Waits =>
        FlaggedNone(queue.created, queue.flags);
        assert Asks(turn, n) == turn.wakes;
      case Panics =>
        Evict(n, created, retired);
        Calmly(s, n, false, turn.wakes, turn.dropWakes);
      case Continues(_) =>
        GoOn(s, n, turn);
      case Breaks(_, _) =>
        Break(s, n, turn);
    }

    /** Lines 312-323: back into the queue, then the transformation, which may panic. */
    method GoOn(ghost s: State, n: nat, turn: Turn<V>)
      requires queue.Resting() && PolledOnce(s, queue.View(), n, false) && turn.outcome.Continues?
      requires queue.Alone() ==> AppendsAfter(s, queue.View(), n, turn.wakes)
      requires Shelf(s.created, s.h.retired) && Accounts() && n < s.created && arena[n] in list.nodes
      modifies queue, list, list.nodes
      ensures queue.Resting() && PolledOnce(s, queue.View(), n, true)
      ensures old(queue.log) <= queue.log && old(queue.flags) <= queue.flags
      ensures Shelf(s.created, s.h.retired) && Accounts()
      ensures queue.Alone() ==> AppendsAfter(s, queue.View(), n, Asks(turn, n))
      ensures Flagged(Later(turn, n), queue.created, queue.flags)
      ensures list.nodes == if Ends(turn) then Keep(old(list.nodes), {arena[n]}) else old(list.nodes)
      ensures list.out == old(list.out) && old(list.spent) <= list.spent
      ensures Ends(turn) ==> arena[n].slot.Gone? && arena[n] !in list.nodes
      ensures forall m <- list.nodes :: m in old(list.nodes)
    {
      hide Receiver.Valid, SameRequests, PolledOnce, Inv, Exec;
      hide Shelf, Keep, Parked, Accounts, Flagged, AppendsAfter;
      PolledKeeps(s, queue.View(), n, false);
      Again(s, n, turn.wakes);
      ghost var m := queue.View();
      Calmly(s, n, true, turn.wakes + [n], turn.lateWakes);
      FlaggedMore([n], s.created, m.m.flags, queue.flags);
      FlaggedBoth([n], turn.lateWakes, s.created, queue.flags);
      if turn.outcome.cont.Unwinds? {
        Evict(n, s.created, s.h.retired);
        m := queue.View();
        Calmly(s, n, true, turn.wakes + [n] + turn.lateWakes, turn.dropWakes);
        FlaggedMore([n] + turn.lateWakes, s.created, m.m.flags, queue.flags);
        FlaggedBoth([n] + turn.lateWakes, turn.dropWakes, s.created, queue.flags);
        assert turn.wakes + [n] + turn.lateWakes + turn.dropWakes == Asks(turn, n);
      } else {
        assert turn.wakes + [n] + turn.lateWakes == Asks(turn, n);
        assert Later(turn, n) == [n] + turn.lateWakes;
      }
    }

    /** `Queue::enqueue` of the node that was just polled. */
    method Again(ghost s: State, n: nat, ghost asked: seq<nat>)
      requires queue.Resting() && PolledOnce(s, queue.View(), n, false) && n < queue.created == s.created
      requires queue.Alone() ==> AppendsAfter(s, queue.View(), n, asked)
      modifies queue
      ensures queue.Resting() && PolledOnce(s, queue.View(), n, true)
      ensures old(queue.log) <= queue.log && old(queue.flags) <= queue.flags && queue.created == s.created
      ensures queue.Alone() ==> AppendsAfter(s, queue.View(), n, asked + [n])
      ensures Flagged([n], s.created, queue.flags)
    {
      hide Receiver.Valid, AskedOnce, SameRequests, PolledOnce, Inv, Exec, Parked, Appends, AppendsAfter;
      ghost var m := queue.View();
      queue.Enqueue(n, Continued);
      PolledThenContinued(s, m, queue.View(), n);
      if queue.Alone() {
        AppendsOne(m, queue.View(), n);
        AppendsAfterMore(s, m, queue.View(), n, asked, [n]);
      }
    }

    /** Lines 325-331: the task leaves the list, and its `Removed` is kept by the transformation or dropped. */
    method Break(ghost s: State, n: nat, turn: Turn<V>)
      requires queue.Resting() && PolledOnce(s, queue.View(), n, false) && turn.outcome.Breaks?
      requires queue.Alone() ==> AppendsAfter(s, queue.View(), n, turn.wakes)
      requires Shelf(s.created, s.h.retired) && Accounts() && n < s.created && arena[n] in list.nodes
      modifies queue, list, list.nodes
      ensures queue.Resting() && PolledOnce(s, queue.View(), n, false)
      ensures old(queue.log) <= queue.log && old(queue.flags) <= queue.flags
      ensures Shelf(s.created, s.h.retired) && Accounts()
      ensures queue.Alone() ==> AppendsAfter(s, queue.View(), n, Asks(turn, n))
      ensures Flagged(Later(turn, n), queue.created, queue.flags)
      ensures list.nodes == Keep(old(list.nodes), {arena[n]}) && arena[n] !in list.nodes
      ensures list.out == old(list.out) + (if Kept(turn) then {arena[n]} else {}) && old(list.spent) <= list.spent
      ensures if Kept(turn) then Removed(arena[n], list).Valid() else arena[n].slot.Gone?
      ensures forall m <- list.nodes :: m in old(list.nodes)
    {
      hide Receiver.Valid, SameRequests, PolledOnce, Inv, Exec;
      hide Shelf, Keep, Parked, Accounts, Flagged, AppendsAfter;
      PolledKeeps(s, queue.View(), n, false);
      ShelfIsPlaced(s.created, s.h.retired);
      NoneHandedOut();
      var removed := Extract(n, s.created, s.h.retired);
      Calmly(s, n, false, turn.wakes, turn.lateWakes);
      if turn.outcome.kept {
        assert Later(turn, n) == turn.lateWakes;
      } else {
        Discard(removed, s.created, s.h.retired);
        ghost var m := queue.View();
        Calmly(s, n, false, turn.wakes + turn.lateWakes, turn.dropWakes);
        FlaggedMore(turn.lateWakes, s.created, m.m.flags, queue.flags);
        FlaggedBoth(turn.lateWakes, turn.dropWakes, s.created, queue.flags);
        assert turn.wakes + turn.lateWakes + turn.dropWakes == Asks(turn, n);
      }
    }

    /** Wakes in the course of the poll of n, which began in s. */
    method Calmly(ghost s: State, ghost n: nat, ghost continued: bool, ghost asked: seq<nat>, ids: seq<nat>)
      requires queue.Resting() && PolledOnce(s, queue.View(), n, continued)
      requires queue.Alone() ==> AppendsAfter(s, queue.View(), n, asked)
      modifies queue
      ensures queue.Resting() && PolledOnce(s, queue.View(), n, continued)
      ensures old(queue.log) <= queue.log
      ensures queue.created == old(queue.created)
      ensures queue.h.retired == old(queue.h.retired) && old(queue.flags) <= queue.flags
      ensures Flagged(ids, queue.created, queue.flags)
      ensures queue.Alone() ==> AppendsAfter(s, queue.View(), n, asked + ids)
    {
      hide Receiver.Valid, SameRequests, Inv, Exec, PolledOnce, Parked, Appends, AppendsAfter;
      ghost var m := queue.View();
      Stir(ids);
      PolledThenCalm(s, m, queue.View(), n, continued);
      if queue.Alone() {
        AppendsAfterMore(s, m, queue.View(), n, asked, ids);
      }
    }

    // ---------- lines 277-348 ----------

    /** The next node of the snapshot, unless none is found. */
    method Fetch(ghost before: seq<nat>, ghost snapshot: seq<nat>, ghost k: nat) returns (r: Option<nat>)
      requires Consistent() && queue.consumer.Idle? && Progressed(queue.View(), before, snapshot, k) && k < |snapshot|
      modifies queue
      ensures Consistent()
      ensures old(queue.log) <= queue.log
      ensures r.None? ==> queue.consumer == Idle(Missed) && Progressed(queue.View(), before, snapshot, k)
      ensures r.Some? ==> queue.consumer == Holding(r.value) && Progressed(queue.View(), before, snapshot, k + 1)
      ensures r.Some? ==> r.value == snapshot[k] && r.value < queue.created && r.value !in queue.h.retired
      ensures queue.Alone() ==>
        r.Some? && Reals(queue.q.chain) == old(Reals(queue.q.chain)) && queue.flags == old(queue.flags)
      ensures queue.created == old(queue.created) && queue.w.session == old(queue.w.session)
    {
      hide Inv, Exec, Shelf, Buried, Books, During, SameRequests, Progressed, Onward, Waiting, SomeLinking;
      ghost var s := queue.View();
      r := queue.Dequeue();
      DuringOnward(s, queue.View());
      BooksFrame(polls, scripts, s.h, queue.h, queue.created);
      match r
      case Some(n) =>
        ProgressAdvances(s, queue.View(), before, snapshot, k, n);
      case None =>
        ProgressStays(s, queue.View(), before, snapshot, k);
        SnapshotWaits(queue.View(), before, snapshot, k);
        if queue.Alone() {
          AloneIsStill(s);
        }
    }

    /** Lines 292-299: the task is gone, and the `Dequeued` is dropped. */
    ghost method Skip(n: nat, before: seq<nat>, snapshot: seq<nat>, k: nat)
      requires Consistent() && queue.consumer == Holding(n) && n < queue.created && arena[n] !in list.nodes
      requires Progressed(queue.View(), before, snapshot, k)
      modifies queue`q, queue`h, queue`w, queue`consumer, queue`log
      ensures Consistent() && queue.consumer.Idle? && Progressed(queue.View(), before, snapshot, k)
      ensures old(queue.log) <= queue.log
      ensures queue.q == old(queue.q) && queue.flags == old(queue.flags)
      ensures queue.w.session == old(queue.w.session) && queue.created == old(queue.created)
    {
      hide Receiver.Valid, Inv, Exec, Buried, Books, SameRequests, Progressed;
      ghost var s := queue.View();
      queue.Discard();
      BooksFrame(polls, scripts, s.h, queue.h, queue.created);
      ProgressStays(s, queue.View(), before, snapshot, k);
    }

    /**
     Register the waker, then dequeue up to the marker and poll what is stored.
     `snapshot` is what waited at the registration, k of it was dequeued, `batch` was polled.
     */
    method PollNext(waker: nat)
      returns (answer: Answer<V>, ghost snapshot: seq<nat>, ghost k: nat, ghost batch: seq<Poll<V>>)
      requires Valid()
      modifies this`polls, this`answers, this`parked, queue, list, list.nodes
      ensures Valid() && queue.w.session == Some(waker)
      ensures old(queue.log) <= queue.log
      ensures old(Waiting(queue.View())) <= snapshot && Distinct(snapshot) && k <= |snapshot|
      ensures queue.h.delivered == old(queue.h.delivered) + snapshot[..k]
      ensures polls == old(polls) + batch
      ensures Batch(old(list.nodes), list.nodes, snapshot[..k], batch, arena)
      ensures Answers(answer, batch, list.nodes == [])
      ensures Told(answer, batch, list.nodes == [])
      ensures parked == answer.Pending?
      ensures Heard(old(queue.flags), queue.flags, batch)
      ensures Quiet(batch) ==> k == |snapshot| || queue.consumer == Idle(Missed)
      ensures queue.Alone() ==> snapshot == old(Waiting(queue.View())) && (Quiet(batch) ==> k == |snapshot|)
      ensures queue.Alone() ==> Replayed(old(queue.View()), queue.View(), batch)
      ensures answers == old(answers) + Item(answer)
      ensures list.out == old(list.out) + KeptOf(batch, arena) && old(list.spent) <= list.spent
      ensures StaysOut(old(arena), old(list.nodes), old(polls), arena, list.nodes, polls)
    {
      hide Inv, Exec, Shelf, Buried, Books, SameRequests, Progressed, Parked, Waiting, Accounts, StaysOut, Replayed;
      hide Batch, Answers, Told, Quiet, Decided, Heard, Values, Outputs, Distinct, Item, KeptOf;
      ghost var before := queue.h.delivered;
      BooksSound(polls, scripts, queue.h, queue.created);
      ShelfIsPlaced(queue.created, queue.h.retired);
      var marker := RegisterFor(waker);
      TailInChain(queue.View());
      snapshot, k, batch := Waiting(queue.View()), 0, [];
      NothingDecided(list.nodes, arena);
      var output: Option<Answer<V>> := None;
      if marker != Null {
        output, k, batch := PollUpTo(marker, before, snapshot, old(queue.View()));
      }
      ProgressMeans(queue.View(), before, snapshot, k);
      answer := Conclusion(output, before, snapshot, k, batch);
      AnswerIsTold(answer, batch, list.nodes == []);
      AllHeard(old(queue.log), old(queue.View()), old(polls), batch);
      OthersStayOut(old(list.nodes), old(polls), snapshot, k, batch);
      AnswersGrow(old(polls), batch, answer, list.nodes == []);
      parked := answer.Pending?;
      answers := answers + Item(answer);
    }

    /** Lines 282-286, 320-331 and 343-347: the output of a poll, or whether tasks are left. */
    method Conclusion(output: Option<Answer<V>>, ghost before: seq<nat>, ghost snapshot: seq<nat>, ghost k: nat,
                      ghost batch: seq<Poll<V>>)
      returns (answer: Answer<V>)
      requires Consistent() && queue.consumer.Idle?
      requires Progressed(queue.View(), before, snapshot, k) && Decided(batch, output)
      requires output.None? ==> k == |snapshot| || queue.consumer == Idle(Missed)
      ensures Answers(answer, batch, list.nodes == []) && (Quiet(batch) ==> output.None?)
      ensures answer.Pending? ==> Parked(queue.View())
    {
      hide Receiver.Valid, Inv, Exec, Shelf, Buried, Books, Progressed, Parked, Accounts, Decided, Answers, Quiet;
      if output.Some? {
        answer := output.value;
        DecidedAnswers(batch, answer, list.nodes == []);
        return;
      }
      ParkedAtEnd(before, snapshot, k);
      QuietAnswers(batch);
      var empty := IsEmpty(queue.created, queue.h.retired);
      answer := if empty then Ready(None) else Pending;
    }

    lemma ParkedAtEnd(before: seq<nat>, snapshot: seq<nat>, k: nat)
      requires queue.Valid() && queue.consumer.Idle? && Progressed(queue.View(), before, snapshot, k)
      requires k == |snapshot| || queue.consumer == Idle(Missed)
      ensures Parked(queue.View())
    {
      hide Inv, Progressed, Parked, Exec;
      ProgressEnds(queue.View(), before, snapshot, k);
    }

    lemma OthersStayOut(nodes: seq<Node<Task<V>>>, before: seq<Poll<V>>, snapshot: seq<nat>, k: nat,
                        batch: seq<Poll<V>>)
      requires k <= |snapshot| && Distinct(snapshot) && Placed(nodes, arena) && polls == before + batch
      requires Batch(nodes, list.nodes, snapshot[..k], batch, arena)
      ensures StaysOut(arena, nodes, before, arena, list.nodes, polls)
    {
      hide Placed, Batch;
      StaysOutPolled(arena, nodes, before, list.nodes, snapshot[..k], batch);
    }

    /** No wake since s is lost. */
    lemma AllHeard(log: seq<Action>, s: State, before: seq<Poll<V>>, batch: seq<Poll<V>>)
      requires Consistent() && s == Exec(Init(queue.threads), log) && Nodes(before) == s.h.released
      requires log <= queue.log && polls == before + batch
      ensures Heard(s.m.flags, queue.flags, batch)
    {
      hide Exec, Inv, Shelf, Buried, Heard;
      FlagsAreHeard(queue.threads, log, queue.log, before, batch);
    }

    /** The loop: lines 289-341. */
    method PollUpTo(marker: Ptr, ghost before: seq<nat>, ghost snapshot: seq<nat>, ghost s: State)
      returns (output: Option<Answer<V>>, ghost k: nat, ghost batch: seq<Poll<V>>)
      requires Consistent() && queue.consumer.Idle? && Progressed(queue.View(), before, snapshot, 0)
      requires snapshot != [] && marker == Real(snapshot[|snapshot| - 1])
      requires queue.Alone() ==> Replayed<V>(s, queue.View(), [])
      modifies this`polls, queue, list, list.nodes
      ensures Consistent() && queue.consumer.Idle? && Progressed(queue.View(), before, snapshot, k)
      ensures old(queue.log) <= queue.log
      ensures queue.w.session == old(queue.w.session)
      ensures polls == old(polls) + batch && Decided(batch, output)
      ensures Batch(old(list.nodes), list.nodes, snapshot[..k], batch, arena)
      ensures list.out == old(list.out) + KeptOf(batch, arena) && old(list.spent) <= list.spent
      ensures output.None? ==> k == |snapshot| || (queue.consumer == Idle(Missed) && !queue.Alone())
      ensures queue.Alone() ==> Replayed(s, queue.View(), batch)
    {
      hide Receiver.Valid, Inv, Exec, Shelf, Buried, Books, SameRequests, Progressed, Parked, Waiting, Accounts;
      hide Batch, Decided, PolledOnce, Replayed, KeptOf;
      ghost var start := list.nodes;
      ShelfIsPlaced(queue.created, queue.h.retired);
      NothingDecided(start, arena);
      k, batch := 0, [];
      while true
        invariant Consistent() && queue.consumer.Idle?
        invariant Progressed(queue.View(), before, snapshot, k) && k < |snapshot|
        invariant queue.w.session == old(queue.w.session) && queue.created == |arena| && old(queue.log) <= queue.log
        invariant polls == old(polls) + batch && Decided(batch, None)
        invariant Batch(start, list.nodes, snapshot[..k], batch, arena)
        invariant forall i :: 0 <= i < |list.nodes| ==> list.nodes[i] in start
        invariant list.out == old(list.out) + KeptOf(batch, arena) && old(list.spent) <= list.spent
        invariant queue.Alone() ==> Replayed(s, queue.View(), batch)
        decreases |snapshot| - k
      {
        ghost var m := queue.View();
        var r := Fetch(before, snapshot, k);
        if queue.Alone() {
          ReplayedSame(s, m, queue.View(), batch);
        }
        if r.None? {
          return None, k, batch;
        }
        k := k + 1;
        NextIsNew(queue.View(), before, snapshot, k);
        var isLast := Real(r.value) == marker;
        output, batch := Serve(r.value, before, snapshot, k, start, batch, s, old(list.out));
        BatchMembers(start, list.nodes, snapshot[..k], batch, arena);
        if output.Some? {
          return;
        }
        if isLast {
          return;
        }
      }
    }

    /** One turn of the loop: node n was dequeued, and is polled if its task is stored. */
    method Serve(n: nat, ghost before: seq<nat>, ghost snapshot: seq<nat>, ghost k: nat,
                 ghost start: seq<Node<Task<V>>>, ghost batch: seq<Poll<V>>, ghost s: State,
                 ghost out: set<Node<Task<V>>>)
      returns (output: Option<Answer<V>>, ghost more: seq<Poll<V>>)
      requires Consistent() && queue.consumer == Holding(n) && n < queue.created == |arena|
      requires 0 < k <= |snapshot| && snapshot[..k] == snapshot[..k - 1] + [n] && n !in snapshot[..k - 1]
      requires Progressed(queue.View(), before, snapshot, k) && Decided(batch, None)
      requires Batch(start, list.nodes, snapshot[..k - 1], batch, arena) && Placed(start, arena)
      requires list.out == out + KeptOf(batch, arena)
      requires queue.Alone() ==> Replayed(s, queue.View(), batch)
      modifies this`polls, queue, list, list.nodes
      ensures Consistent() && queue.consumer.Idle? && Progressed(queue.View(), before, snapshot, k)
      ensures old(queue.log) <= queue.log
      ensures queue.w.session == old(queue.w.session) && queue.created == old(queue.created)
      ensures batch <= more && polls == old(polls) + more[|batch|..] && Decided(more, output)
      ensures Batch(start, list.nodes, snapshot[..k], more, arena)
      ensures list.out == out + KeptOf(more, arena) && old(list.spent) <= list.spent
      ensures forall m <- list.nodes :: m in old(list.nodes)
      ensures queue.Alone() ==> Replayed(s, queue.View(), more)
    {
      hide Receiver.Valid, Inv, Exec, Shelf, Buried, Books, SameRequests, Progressed, Parked, Waiting, Accounts;
      hide Batch, Decided, AnswerOf, PolledOnce, Flagged, Keep, Replayed, Appends, KeptOf, Asks, Later;
      StillStored(start, list.nodes, snapshot[..k - 1], batch, arena, n);
      var stored := IsStored(n, queue.created, queue.h.retired);
      ghost var m, nodes := queue.View(), list.nodes;
      if !stored {
        Skip(n, before, snapshot, k);
        if queue.Alone() {
          ReplayedSame(s, m, queue.View(), batch);
        }
        BatchSkip(start, list.nodes, snapshot[..k - 1], batch, arena, n);
        return None, batch;
      }
      var turn := PollTask(n);
      PolledKeeps(m, queue.View(), n, turn.outcome.Continues?);
      ProgressStays(m, queue.View(), before, snapshot, k);
      BatchPoll(start, nodes, snapshot[..k - 1], batch, arena, Poll(n, turn), list.nodes);
      KeptConcat(batch, [Poll(n, turn)], arena);
      KeptOne(Poll(n, turn), arena);
      DecidedSnoc(batch, Poll(n, turn));
      if queue.Alone() {
        AsksByOutcome(turn, n);
        ReplayedMore(s, m, queue.View(), batch, Poll(n, turn));
      }
      return AnswerOf(turn), batch + [Poll(n, turn)];
    }

    method IsEmpty(ghost created: nat, ghost retired: set<nat>) returns (empty: bool)
      requires Shelf(created, retired)
      ensures empty <==> list.nodes == []
    {
      empty := list.len == 0;
    }

    lemma ShelfIsPlaced(created: nat, retired: set<nat>)
      requires Shelf(created, retired)
      ensures Placed(list.nodes, arena) && |arena| == created
    {
    }

    /** `access`: the task is stored. */
    method IsStored(n: nat, ghost created: nat, ghost retired: set<nat>) returns (stored: bool)
      requires Shelf(created, retired) && n < created
      ensures stored <==> arena[n] in list.nodes
    {
      stored := list.Linked(arena[n]);
    }

    /** Line 280. */
    method RegisterFor(waker: nat) returns (marker: Ptr)
      requires Valid()
      modifies this`parked, queue
      ensures Consistent() && queue.consumer == Idle(Marked(marker))
      ensures old(queue.log) <= queue.log
      ensures marker == Null <==> Waiting(queue.View()) == []
      ensures Waiting(queue.View()) != [] ==> marker == Real(Waiting(queue.View())[|Waiting(queue.View())| - 1])
      ensures Progressed(queue.View(), old(queue.h.delivered), Waiting(queue.View()), 0)
      ensures old(Waiting(queue.View())) <= Waiting(queue.View())
      ensures queue.created == old(queue.created) && queue.h.delivered == old(queue.h.delivered)
      ensures queue.w.session == Some(waker)
      ensures queue.Alone() ==> queue.q == old(queue.q) && Waiting(queue.View()) == old(Waiting(queue.View()))
      ensures queue.Alone() ==> Replayed<V>(old(queue.View()), queue.View(), [])
      ensures !parked
    {
      hide Inv, Exec, Shelf, Buried, Books, SameRequests, Progressed, Parked;
      ReplayedNothing<V>(queue.View());
      ghost var s := queue.View();
      TailInChain(s);
      marker := queue.RegisterWaker(waker);
      TailInChain(queue.View());
      parked := false;
      ProgressStarts(s, queue.View());
      if queue.Alone() {
        ReplayedSame<V>(s, s, queue.View(), []);
      }
      BooksFrame(polls, scripts, s.h, queue.h, queue.created);
    }
  }

  datatype Id<V> = Id(home: Receiver, node: Node<Task<V>>)

  lemma ListIsDistinct<T>(list: List<T>)
    requires list.Valid()
    ensures AllDistinct(list.nodes)
  {
  }

  lemma WithoutFirst<T>(s: seq<T>)
    requires s != []
    ensures Without(s, 0) == s[1..]
  {
  }

  lemma WithoutLater<T>(s: seq<T>, k: nat)
    requires 0 < k < |s|
    ensures Without(s, k) == [s[0]] + Without(s[1..], k - 1)
  {
    assert s[1..][..k - 1] == s[1..k];
    assert s[..k] == [s[0]] + s[1..k];
  }

  lemma {:induction false} WithoutIsKeep<T>(s: seq<T>, k: nat)
    requires k < |s| && AllDistinct(s)
    ensures Without(s, k) == Keep(s, {s[k]})
  {
    hide Without;
    if k == 0 {
      WithoutFirst(s);
      KeepAll(s[1..], {s[0]});
    } else {
      WithoutLater(s, k);
      WithoutIsKeep(s[1..], k - 1);
    }
  }
}
