/**
 Reference counts: `src/selector/waker.rs`, `src/selector/id.rs`, and the `Arc`s that the list,
 the queue and the selector hold; and the references to the queue itself.

 A run is a sequence of actions of any threads. `strong` is the strong count of every node, and
 `owners` that of the queue: a node is freed, and the queue dropped, when the count gets to zero.

 A thread that wakes a node by reference borrows a reference that somebody else owns: the list, a
 `Removed`, `poll_next`, or an id or waker. As in the source, what is borrowed is not given up.
 */
module References {
  import opened Wrappers
  import opened Protocol
  import opened ProtocolRuns

  /** Where a thread is in `enqueue`, `enqueue_by_ref` or `Queue::enqueue`. */
  datatype Phase =
    | Outside
    | Swapped(node: nat, owned: bool)           // has set the flag, is about to upgrade; owned: with its own reference
    | Upgraded(node: nat)                       // it has the queue and is about to clone the borrowed node
    | Inside(owner: bool)                       // in `enqueue_inner`; owner: it holds a reference to the queue
    | Leaving                                   // about to drop its reference to the queue

  datatype Counts = Counts(
    s: State,
    strong: multiset<nat>,
    handles: multiset<nat>,                     // ids and owned wakers
    stored: set<nat>,                           // nodes that the list or a `Removed` owns
    local: Option<nat>,                         // the `Arc` that `poll_next` took out of a `Dequeued`
    phases: seq<Phase>,                         // one for each thread
    owners: nat,                                // the strong count of the queue
    receiver: bool,                             // the receiver is there
    closed: bool                                // the queue was dropped
  )

  datatype RefAction =
    | Push                                      // `push_back`, and the first step of its `Queue::enqueue`
    | Clone(node: nat)                          // `do_clone`, or the clone of an id
    | Drop(node: nat)                           // `do_drop`, or the drop of an id
    | Discard(node: nat)                        // the end of a `Removed`
    | Wake(thread: nat, node: nat)              // `do_wake`: the swap of the flag
    | WakeByRef(thread: nat, node: nat)         // `do_wake_by_ref`, `Id::wake`: the swap of the flag
    | Upgrade(thread: nat)
    | CloneNode(thread: nat)                    // `self.clone()`, line 298 of queue.rs
    | Move(thread: nat)                         // the next atomic of `enqueue_inner`
    | Leave(thread: nat)                        // the upgraded reference to the queue is dropped
    | Requeue                                   // `poll_next` gives its `Arc` to `Queue::enqueue`
    | Finish                                    // `poll_next` drops its `Arc`
    | Consume(action: Action)                   // a step of `register_waker` or `dequeue`
    | Release                                   // `into_inner` of a `Dequeued`
    | Retire                                    // drop of a `Dequeued`
    | DropReceiver

  function Phases(c: Counts, t: nat): Phase {
    if t < |c.phases| then c.phases[t] else Outside
  }

  /** The thread holds a reference to the queue that keeps the queue alive. */
  predicate Holds(p: Phase) {
    p.Upgraded? || p == Inside(true) || p.Leaving?
  }

  /** The thread borrows a reference to the node. */
  predicate Borrows(p: Phase, n: nat) {
    p == Swapped(n, false) || p == Upgraded(n)
  }

  /** The thread has set the node's flag and has not entered `enqueue_inner`. */
  predicate Pending(p: Phase, n: nat) {
    p == Swapped(n, true) || Borrows(p, n)
  }

  function Holders(phases: seq<Phase>): nat {
    if phases == [] then 0 else Holders(phases[..|phases| - 1]) + if Holds(phases[|phases| - 1]) then 1 else 0
  }

  predicate Lent(c: Counts, n: nat) {
    exists t :: 0 <= t < |c.phases| && Borrows(c.phases[t], n)
  }

  /** The references to a node from which a thread can borrow. */
  function Owned(c: Counts, n: nat): nat {
    c.handles[n] + (if n in c.stored then 1 else 0) + if c.local == Some(n) then 1 else 0
  }

  /** One of these references can be given up: nobody borrows, or there is another one. */
  predicate Spare(c: Counts, n: nat) {
    Lent(c, n) ==> Owned(c, n) >= 2
  }

  predicate RefEnabled(c: Counts, a: RefAction) {
    match a
    case Push => c.receiver && 0 < |c.phases| == |c.s.producers| && c.phases[0].Outside?
    case Clone(n) => Owned(c, n) > 0
    case Drop(n) => c.handles[n] > 0 && Spare(c, n)
    case Discard(n) => n in c.stored && Spare(c, n)
    case Wake(t, n) =>
      && t < |c.phases| == |c.s.producers| && c.phases[t].Outside?
      && n < c.s.created && c.handles[n] > 0 && Spare(c, n)
    case WakeByRef(t, n) =>
      && t < |c.phases| == |c.s.producers| && c.phases[t].Outside?
      && n < c.s.created && Owned(c, n) > 0
    case Upgrade(t) => Phases(c, t).Swapped? && |c.phases| == |c.s.producers|
    case CloneNode(t) => Phases(c, t).Upgraded?
    case Move(t) => Phases(c, t).Inside?
    case Leave(t) => Phases(c, t).Leaving?
    case Requeue =>
      && c.receiver && c.local.Some? && c.local.value < c.s.created
      && 0 < |c.phases| == |c.s.producers| && c.phases[0].Outside?
      && Spare(c, c.local.value)
    case Finish => c.local.Some? && Spare(c, c.local.value)
    case Consume(a) =>
      && c.receiver && (a.Register? || a.LoadHead? || a.Dequeue?)
      && (a.Dequeue? || a.Register? ==> c.local.None?) && Enabled(c.s, a)
    case Release => c.receiver && c.local.None? && c.s.consumer.Holding?
    case Retire => c.receiver && c.s.consumer.Holding?
    case DropReceiver => c.receiver && c.s.consumer.Idle? && c.local.None? && Phases(c, 0) != Inside(false)
  }

  /** The thread sets the flag of a node, for itself or in vain. */
  function Swap(c: Counts, t: nat, n: nat, cause: Cause, phase: Phase): Counts
    requires t < |c.phases| == |c.s.producers|
  {
    c.(s := BeginStep(c.s, t, n, cause), phases := if n in c.s.m.flags then c.phases else c.phases[t := phase])
  }

  /** `Queue::enqueue` with a reference to the node: that is dropped if the flag was set. */
  function Given(c: Counts, n: nat, cause: Cause): Counts
    requires 0 < |c.phases| == |c.s.producers|
  {
    var swapped := Swap(c, 0, n, cause, Inside(false));
    if n in c.s.m.flags then swapped.(strong := c.strong - multiset{n}) else swapped
  }

  /** What is in the queue. */
  function Rest(s: State): seq<nat> {
    if s.q.pos <= |s.q.chain| then Waiting(s) else []
  }

  /** A reference to the queue is dropped. With the last one the queue goes, and its references to the waiting nodes. */
  function LetGo(c: Counts): Counts {
    if c.owners == 1 then c.(owners := 0, closed := true, strong := c.strong - multiset(Rest(c.s)))
    else if c.owners > 1 then c.(owners := c.owners - 1)
    else c
  }

  function UpgradeStep(c: Counts, t: nat): Counts
    requires Phases(c, t).Swapped? && |c.phases| == |c.s.producers|
  {
    var n, owned := c.phases[t].node, c.phases[t].owned;
    if c.owners == 0 then
      c.(phases := c.phases[t := Outside], s := c.s.(producers := c.s.producers[t := Out]),
         strong := if owned then c.strong - multiset{n} else c.strong)
    else if owned then
      c.(owners := c.owners + 1, phases := c.phases[t := Inside(true)], s := MoveStep(c.s, t))
    else
      c.(owners := c.owners + 1, phases := c.phases[t := Upgraded(n)])
  }

  function MoveOn(c: Counts, t: nat): Counts
    requires Phases(c, t).Inside?
  {
    var s := MoveStep(c.s, t);
    var done := if c.phases[t].owner then Leaving else Outside;
    c.(s := s, phases := if !At(s.producers, t).Out? then c.phases else c.phases[t := done])
  }

  function RefApply(c: Counts, a: RefAction): Counts
    requires RefEnabled(c, a)
  {
    match a
    case Push =>
      var n := c.s.created;
      Given(c.(s := c.s.(created := n + 1), strong := c.strong + multiset{n, n}, stored := c.stored + {n}), n, Pushed)
    case Clone(n) => c.(strong := c.strong + multiset{n}, handles := c.handles + multiset{n})
    case Drop(n) => c.(strong := c.strong - multiset{n}, handles := c.handles - multiset{n})
    case Discard(n) => c.(strong := c.strong - multiset{n}, stored := c.stored - {n})
    case Wake(t, n) =>
      var swapped := Swap(c.(handles := c.handles - multiset{n}), t, n, Woken, Swapped(n, true));
      if n in c.s.m.flags then swapped.(strong := c.strong - multiset{n}) else swapped
    case WakeByRef(t, n) => Swap(c, t, n, Woken, Swapped(n, false))
    case Upgrade(t) => UpgradeStep(c, t)
    case CloneNode(t) =>
      c.(strong := c.strong + multiset{c.phases[t].node}, phases := c.phases[t := Inside(true)], s := MoveStep(c.s, t))
    case Move(t) => MoveOn(c, t)
    case Leave(t) => LetGo(c.(phases := c.phases[t := Outside]))
    case Requeue => Given(c.(local := None), c.local.value, Continued)
    case Finish => c.(strong := c.strong - multiset{c.local.value}, local := None)
    case Consume(a) => c.(s := Apply(c.s, a))
    case Release => c.(s := ReleaseStep(c.s), local := Some(c.s.consumer.node))
    case Retire => c.(s := RetireStep(c.s), strong := c.strong - multiset{c.s.consumer.node})
    case DropReceiver => LetGo(c.(receiver := false))
  }

  function RefStep(c: Counts, a: RefAction): Counts {
    if RefEnabled(c, a) then RefApply(c, a) else c
  }

  function RefExec(c: Counts, run: seq<RefAction>): Counts
    decreases |run|
  {
    if run == [] then c else RefExec(RefStep(c, run[0]), run[1..])
  }

  function Start(threads: nat): Counts {
    Counts(Init(threads), multiset{}, multiset{}, {}, None, seq(threads, _ => Outside), 1, true, false)
  }

  // ---------- invariant ----------

  /** The nodes of which the queue, or a thread on its way into it, holds a reference. */
  ghost predicate Shared(c: Counts, n: nat) {
    if c.closed then exists t :: 0 <= t < |c.phases| && c.phases[t] == Swapped(n, true)
    else n in c.s.m.flags && n !in c.s.h.retired && !Lent(c, n)
  }

  /**
   Conservation: a strong count is the number of ids and wakers, one for the list or the `Removed`, one for
   `poll_next` between `into_inner` and the end of the poll, and one for the queue or the thread that enqueues.
   */
  ghost predicate Conserved(c: Counts) {
    forall n: nat :: c.strong[n] == Owned(c, n) + if Shared(c, n) then 1 else 0
  }

  /** What the phase says about the thread's program counter. */
  predicate Agrees(p: Phase, q: Producer) {
    match p
    case Outside => q.Out?
    case Swapped(n, _) => q == Upgrading(n)
    case Upgraded(n) => q == Upgrading(n)
    case Inside(_) => q.Resetting? || q.Swapping? || q.Linking? || q.Waking?
    case Leaving => q.Out?
  }

  /** Threads and program counters, and who borrows the receiver's reference to the queue. */
  ghost predicate Aligned(c: Counts) {
    && |c.phases| == |c.s.producers|
    && (forall t: nat :: Agrees(Phases(c, t), At(c.s.producers, t)))
    && (forall t: nat :: Phases(c, t) == Inside(false) ==> t == 0 && c.receiver)
    && (!c.receiver ==> c.s.consumer.Idle? && c.local.None?)
    && (forall n: nat :: Owned(c, n) > 0 ==> n < c.s.created)
  }

  /**
   A node whose flag was set by a thread outside `enqueue_inner` is that thread's alone; what is borrowed has an owner.
   */
  ghost predicate Loans(c: Counts) {
    && (forall t: nat, n: nat :: Pending(Phases(c, t), n) ==> n in c.s.m.flags)
    && (forall t: nat, u: nat, n: nat :: Pending(Phases(c, t), n) && Pending(Phases(c, u), n) ==> t == u)
    && (forall t: nat, n: nat :: Borrows(Phases(c, t), n) ==> Owned(c, n) > 0)
  }

  /**
   The strong count of the queue: one for the receiver, one for each thread from its upgrade to the end of its enqueue.
   */
  ghost predicate Counted(c: Counts) {
    && c.owners == Holders(c.phases) + (if c.receiver then 1 else 0)
    && (c.closed <==> c.owners == 0)
  }

  ghost predicate RefInv(c: Counts) {
    (!c.closed ==> Inv(c.s)) && Aligned(c) && Loans(c) && Counted(c) && Conserved(c)
  }
}
