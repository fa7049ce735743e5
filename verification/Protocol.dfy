/**
 The wake queue of `src/queue.rs` as a concurrent protocol.

 Any number of threads enqueue nodes, one thread consumes them. Every access to an
 atomic is one step; the memory is sequentially consistent. The consumer's private
 variables (`tail`, `stub_predecessor`) change together with the atomic access that
 precedes the assignment. A pointer is a number, or the stub, or null.

 `chain` is the history of the `head` cell: the pointers swapped into it, in order.
 `pos` is the position of `tail` in that history, so `chain[pos..]` is the logical
 queue, whatever the `next` links say at the moment.
 */
module Protocol {
  import opened Wrappers

  datatype Ptr = Null | Stub | Real(id: nat)

  /** Why somebody asks for a node to be enqueued. */
  datatype Cause = Pushed | Continued | Woken

  datatype Request = Request(node: nat, cause: Cause)

  /** Program counter of an enqueueing thread; past `Out` it has won the `is_enqueued` flag of `node`. */
  datatype Producer =
    | Out                                       // not inside an enqueue
    | Upgrading(node: nat)                      // about to get hold of the queue, for a wake
    | Resetting(node: nat)                      // about to clear `next_enqueued`
    | Swapping(node: nat)                       // about to swap `head`
    | Linking(node: nat, pred: Ptr)             // about to write the predecessor's link
    | Waking(node: nat)                         // about to wake the consumer

  /** How the last call of the consumer ended. */
  datatype Outcome = Fresh | Missed | Marked(marker: Ptr)

  /** Program counter of the consumer. */
  datatype Consumer =
    | Idle(last: Outcome)
    | Registered                                // waker stored, `head` not loaded yet
    | SkippedStub                               // about to load the link leaving the new tail
    | SawEnd                                    // the link leaving the tail was null
    | ResettingStub
    | SwappingStub
    | LinkingStub(pred: Ptr)
    | Rechecking                                // about to load the tail's link a second time
    | Holding(node: nat)                        // owns a `Dequeued`
    | Broken                                    // "popping stub, this should never happen"

  /** The shared cells. */
  datatype Memory = Memory(
    head: Ptr,
    tail: Ptr,
    next: map<Ptr, Ptr>,
    flags: set<nat>,                            // nodes whose `is_enqueued` is true
    stubPred: Ptr,
    waker: Option<nat>                          // slot of the AtomicWaker
  )

  /** The history of `head`, and the consumer's position in it. */
  datatype Order = Order(
    chain: seq<Ptr>,
    via: seq<nat>,                              // via[i]: the thread that swapped chain[i] in (any number for the stub)
    last: map<Ptr, nat>,                        // where in chain a pointer was swapped in last
    pos: nat
  )

  /** The history of the nodes. */
  datatype History = History(
    winner: map<nat, nat>,                      // the thread that won the flag of a node last
    delivered: seq<nat>,                        // results of `dequeue`
    released: seq<nat>,                         // nodes that went through `into_inner`
    retired: set<nat>,                          // nodes dequeued and dropped with the flag still set
    requests: seq<Request>
  )

  /** The history of the waker. */
  datatype Signals = Signals(
    session: Option<nat>,                       // the waker registered last
    mark: nat,                                  // |woken| at that registration
    woken: seq<nat>,                            // wakers signalled so far
    regAt: nat,                                 // |chain| at the last load of `head` by `register_waker`
    gapped: bool                                // some producer was Linking at some moment of the current `dequeue`
  )

  datatype State = State(
    m: Memory,
    q: Order,
    h: History,
    w: Signals,
    created: nat,                               // nodes 0 .. created - 1 exist
    producers: seq<Producer>,                   // one program counter for each enqueueing thread
    consumer: Consumer
  )

  function At(producers: seq<Producer>, t: nat): Producer {
    if t < |producers| then producers[t] else Out
  }

  function Load(next: map<Ptr, Ptr>, p: Ptr): Ptr {
    if p in next then next[p] else Null
  }

  // ---------- steps ----------

  datatype Action =
    | Create                                    // `Queue::create`
    | Begin(thread: nat, node: nat, cause: Cause)  // swap of `is_enqueued`
    | Move(thread: nat)                         // the upgrade, or the next atomic of `enqueue_inner`
    | Register(waker: nat)
    | LoadHead
    | Dequeue                                   // next atomic of `dequeue`
    | Release                                   // `Dequeued::into_inner`
    | Retire                                    // drop of a `Dequeued`

  predicate Dequeuing(c: Consumer) {
    c.SkippedStub? || c.SawEnd? || c.ResettingStub? || c.SwappingStub? || c.LinkingStub? || c.Rechecking?
  }

  predicate Enabled(s: State, a: Action) {
    match a
    case Create => true
    case Begin(t, n, _) => t < |s.producers| && At(s.producers, t).Out? && n < s.created
    case Move(t) => !At(s.producers, t).Out?
    case Register(_) => s.consumer.Idle?
    case LoadHead => s.consumer.Registered?
    case Dequeue => s.consumer.Idle? || Dequeuing(s.consumer)
    case Release => s.consumer.Holding?
    case Retire => s.consumer.Holding?
  }

  function BeginStep(s: State, t: nat, n: nat, cause: Cause): State
    requires t < |s.producers|
  {
    var h := s.h.(requests := s.h.requests + [Request(n, cause)]);
    if n in s.m.flags then s.(h := h)
    else
      s.(m := s.m.(flags := s.m.flags + {n}), h := h.(winner := h.winner[n := t]),
         producers := s.producers[t := Entry(n, cause)])
  }

  /** `push` and `poll_next` have the queue at hand, a waker and an id must upgrade their reference to it. */
  function Entry(n: nat, cause: Cause): Producer {
    if cause.Woken? then Upgrading(n) else Resetting(n)
  }

  /** `head` is swapped for p by thread t. */
  function SwapHead(s: State, p: Ptr, t: nat): State {
    s.(m := s.m.(head := p),
       q := s.q.(chain := s.q.chain + [p], via := s.q.via + [t], last := s.q.last[p := |s.q.chain|]))
  }

  function Store(s: State, p: Ptr, next: Ptr): State {
    s.(m := s.m.(next := s.m.next[p := next]))
  }

  function Signal(s: State): State {
    match s.m.waker
    case None => s
    case Some(w) => s.(m := s.m.(waker := None), w := s.w.(woken := s.w.woken + [w]))
  }

  function MoveStep(s: State, t: nat): State {
    match At(s.producers, t)
    case Out => s
    case Upgrading(n) => s.(producers := s.producers[t := Resetting(n)])
    case Resetting(n) => Store(s, Real(n), Null).(producers := s.producers[t := Swapping(n)])
    case Swapping(n) =>
      SwapHead(s, Real(n), t).(producers := s.producers[t := Linking(n, s.m.head)], w := s.w.(gapped := true))
    case Linking(n, pred) => Store(s, pred, Real(n)).(producers := s.producers[t := Waking(n)])
    case Waking(_) => Signal(s).(producers := s.producers[t := Out])
  }

  function RegisterStep(s: State, w: nat): State {
    s.(m := s.m.(waker := Some(w)), w := s.w.(session := Some(w), mark := |s.w.woken|), consumer := Registered)
  }

  function Marker(s: State): Ptr {
    if s.m.head != Stub then s.m.head else if s.m.tail == Stub then Null else s.m.stubPred
  }

  function LoadHeadStep(s: State): State {
    s.(consumer := Idle(Marked(Marker(s))), w := s.w.(regAt := |s.q.chain|))
  }

  function Advanced(s: State, next: Ptr): State {
    s.(m := s.m.(tail := next), q := s.q.(pos := s.q.pos + 1))
  }

  /** The tail has a successor: hand the tail out. */
  function Deliver(s: State, next: Ptr): State {
    match s.m.tail
    case Real(n) => Advanced(s, next).(h := s.h.(delivered := s.h.delivered + [n]), consumer := Holding(n))
    case _ => s.(consumer := Broken)
  }

  predicate SomeLinking(s: State) {
    exists t: nat :: t < |s.producers| && At(s.producers, t).Linking?
  }

  /** Lines 58 to 83 for a call that begins. */
  function FirstRead(s: State): State {
    var s := s.(w := s.w.(gapped := SomeLinking(s)));
    var next := Load(s.m.next, s.m.tail);
    if s.m.tail == Stub then
      if next == Null then s.(consumer := Idle(Missed)) else Advanced(s, next).(consumer := SkippedStub)
    else if next != Null then Deliver(s, next)
    else s.(consumer := SawEnd)
  }

  function DequeueStep(s: State): State {
    match s.consumer
    case Idle(_) => FirstRead(s)
    case SkippedStub =>
      var next := Load(s.m.next, s.m.tail);
      if next != Null then Deliver(s, next) else s.(consumer := SawEnd)
    case SawEnd =>
      s.(consumer := if s.m.tail != s.m.head then Idle(Missed) else ResettingStub)
    case ResettingStub => Store(s, Stub, Null).(consumer := SwappingStub)
    case SwappingStub => SwapHead(s, Stub, 0).(consumer := LinkingStub(s.m.head))
    case LinkingStub(pred) =>
      var s := Store(s, pred, Stub);
      s.(m := s.m.(stubPred := pred), consumer := Rechecking)
    case Rechecking =>
      var next := Load(s.m.next, s.m.tail);
      if next == Null then s.(consumer := Idle(Missed)) else Deliver(s, next)
    case _ => s
  }

  function ReleaseStep(s: State): State
    requires s.consumer.Holding?
  {
    var n := s.consumer.node;
    s.(m := s.m.(flags := s.m.flags - {n}), h := s.h.(released := s.h.released + [n]), consumer := Idle(Fresh))
  }

  function RetireStep(s: State): State
    requires s.consumer.Holding?
  {
    s.(h := s.h.(retired := s.h.retired + {s.consumer.node}), consumer := Idle(Fresh))
  }

  function Apply(s: State, a: Action): State
    requires Enabled(s, a)
  {
    match a
    case Create => s.(created := s.created + 1)
    case Begin(t, n, cause) => BeginStep(s, t, n, cause)
    case Move(t) => MoveStep(s, t)
    case Register(w) => RegisterStep(s, w)
    case LoadHead => LoadHeadStep(s)
    case Dequeue => DequeueStep(s)
    case Release => ReleaseStep(s)
    case Retire => RetireStep(s)
  }

  /** An action that is not enabled changes nothing. */
  function Step(s: State, a: Action): State {
    if Enabled(s, a) then Apply(s, a) else s
  }

  /** The state after a run. Any sequence of actions is a run: the scheduler is free. */
  function Exec(s: State, run: seq<Action>): State
    decreases |run|
  {
    if run == [] then s else Exec(Step(s, run[0]), run[1..])
  }

  // ---------- the logical queue ----------

  /** The nodes among the pointers: the stub erased. */
  function Reals(c: seq<Ptr>): seq<nat> {
    if c == [] then []
    else (if c[0].Real? then [c[0].id] else []) + Reals(c[1..])
  }

  /** The nodes waiting in the logical queue, oldest first. */
  function Waiting(s: State): seq<nat>
    requires s.q.pos <= |s.q.chain|
  {
    Reals(s.q.chain[s.q.pos..])
  }

  /** The pointer is in chain[pos..]. */
  predicate Queued(s: State, p: Ptr) {
    p in s.q.last && s.q.pos <= s.q.last[p]
  }

  predicate PreSwap(p: Producer) {
    p.Upgrading? || p.Resetting? || p.Swapping?
  }

  /** The link that ends in chain[i] is still to be written, by the thread that swapped chain[i] in. */
  predicate Owed(s: State, i: nat)
    requires i < |s.q.chain| == |s.q.via|
  {
    if s.q.chain[i] == Stub then s.consumer.LinkingStub?
    else var p := At(s.producers, s.q.via[i]); p.Linking? && Real(p.node) == s.q.chain[i]
  }

  /** Thread t won the flag of n and has not swapped it into `head` yet. */
  predicate Carried(s: State, n: nat) {
    && n in s.h.winner
    && var p := At(s.producers, s.h.winner[n]); PreSwap(p) && p.node == n
  }

  /** Some producer is past its swap and has still to call `wake`. */
  ghost predicate InFlight(s: State) {
    exists t: nat :: At(s.producers, t).Linking? || At(s.producers, t).Waking?
  }

  predicate Signalled(s: State) {
    |s.w.woken| > s.w.mark
  }

  /** The consumer has been signalled since it registered, or will be. */
  ghost predicate WakeDue(s: State) {
    Signalled(s) || InFlight(s)
  }

  // ---------- invariant ----------

  /** The ends of the logical queue, and that no pointer is in it twice. */
  ghost predicate Shape(s: State) {
    && s.q.pos < |s.q.chain| == |s.q.via|
    && s.m.tail == s.q.chain[s.q.pos]
    && s.m.head == s.q.chain[|s.q.chain| - 1]
    && (forall p :: p in s.q.last ==> s.q.last[p] < |s.q.chain| && s.q.chain[s.q.last[p]] == p)
    && (forall i :: s.q.pos <= i < |s.q.chain| ==>
          s.q.chain[i] != Null && s.q.chain[i] in s.q.last && s.q.last[s.q.chain[i]] == i)
  }

  /** The link from chain[i] to chain[i + 1] is missing exactly when somebody owes it. */
  predicate LinkAt(s: State, i: nat)
    requires i + 1 < |s.q.chain| == |s.q.via|
  {
    Load(s.m.next, s.q.chain[i]) == if Owed(s, i + 1) then Null else s.q.chain[i + 1]
  }

  /** Inside the logical queue a link is missing exactly when somebody owes it. */
  ghost predicate Links(s: State)
    requires Shape(s)
  {
    && Load(s.m.next, s.m.head) == Null
    && (forall i :: s.q.pos <= i < |s.q.chain| - 1 ==> LinkAt(s, i))
  }

  /** Who owes a link owes it inside the logical queue, to the pointer next to its own node. */
  ghost predicate Owers(s: State)
    requires Shape(s)
  {
    && (forall t: nat :: At(s.producers, t).Linking? ==>
          var p := At(s.producers, t);
          OwedTo(s, Real(p.node), p.pred) && s.q.via[s.q.last[Real(p.node)]] == t)
    && (s.consumer.LinkingStub? ==> OwedTo(s, Stub, s.consumer.pred))
  }

  /** p is in the queue, right behind pred. */
  ghost predicate OwedTo(s: State, p: Ptr, pred: Ptr)
    requires Shape(s)
  {
    && p in s.q.last && s.q.pos < s.q.last[p]
    && s.q.chain[s.q.last[p] - 1] == pred
  }

  /** Where a node with its flag set can be: in exactly one of four places. */
  ghost predicate Places(s: State) {
    && (forall n: nat :: n in s.m.flags ==>
          n < s.created && (Queued(s, Real(n)) || Carried(s, n) || s.consumer == Holding(n) || n in s.h.retired))
    && (forall n: nat :: Queued(s, Real(n)) ==>
          n in s.m.flags && !Carried(s, n) && s.consumer != Holding(n) && n !in s.h.retired)
    && (forall t: nat :: PreSwap(At(s.producers, t)) ==>
          var n := At(s.producers, t).node;
          n in s.h.winner && s.h.winner[n] == t && n in s.m.flags && s.consumer != Holding(n) && n !in s.h.retired)
    && (s.consumer.Holding? ==> s.consumer.node in s.m.flags && s.consumer.node !in s.h.retired)
    && s.h.retired <= s.m.flags
  }

  /** What each program counter knows. */
  ghost predicate Pcs(s: State)
    requires Shape(s)
  {
    && (forall t: nat :: At(s.producers, t).Swapping? ==> Load(s.m.next, Real(At(s.producers, t).node)) == Null)
    && !s.consumer.Broken?
    && (Dequeuing(s.consumer) ==> s.m.tail.Real?)
    && (s.consumer.SkippedStub? || s.consumer.ResettingStub? || s.consumer.SwappingStub? ==> !Queued(s, Stub))
    && (s.consumer.SwappingStub? ==> Load(s.m.next, Stub) == Null)
    && (s.consumer.Rechecking? ==> s.q.pos + 1 < |s.q.chain|)
    && (Queued(s, Stub) && s.q.pos < s.q.last[Stub] && !s.consumer.LinkingStub? ==>
          s.m.stubPred == s.q.chain[s.q.last[Stub] - 1])
  }

  /** What was delivered is what lies behind the tail. */
  ghost predicate Delivered(s: State)
    requires Shape(s)
  {
    s.h.delivered == Reals(s.q.chain[..s.q.pos])
  }

  /** `dequeue` gives up on a queue that holds a node only if it met an unfinished enqueue. */
  ghost predicate Gaps(s: State)
    requires Shape(s)
  {
    && (Dequeuing(s.consumer) && SomeLinking(s) ==> s.w.gapped)
    && (s.consumer.SawEnd? ==> s.m.head == s.m.tail || s.w.gapped)
    && (s.consumer == Idle(Missed) ==> Waiting(s) == [] || s.w.gapped)
  }

  /** The waker's slot, and why a waiting node implies a signal. */
  ghost predicate Wakes(s: State)
    requires Shape(s)
  {
    s.w.session.Some? ==>
      && s.w.mark <= |s.w.woken|
      && (if Signalled(s) then s.m.waker == None && s.w.woken[s.w.mark..] == [s.w.session.value]
          else s.m.waker == s.w.session)
      && (!s.consumer.Registered? ==>
            && s.w.regAt <= |s.q.chain|
            && (WakeDue(s) || forall i :: s.w.regAt <= i < |s.q.chain| ==> !s.q.chain[i].Real?)
            && (s.consumer.SawEnd? ==> s.m.head == s.m.tail || WakeDue(s))
            && (s.consumer == Idle(Missed) || s.consumer == Idle(Marked(Null)) ==> Waiting(s) == [] || WakeDue(s)))
  }

  /** A node is released at most once for every request to enqueue it. */
  ghost predicate Reasons(s: State) {
    forall n: nat :: Times(s.h.released, n) + (if n in s.m.flags then 1 else 0) <= Asked(s.h.requests, n)
  }

  function Times(log: seq<nat>, n: nat): nat {
    if log == [] then 0
    else Times(log[..|log| - 1], n) + if log[|log| - 1] == n then 1 else 0
  }

  /** How often the node was asked for. */
  function Asked(requests: seq<Request>, n: nat): nat {
    if requests == [] then 0
    else Asked(requests[..|requests| - 1], n) + if requests[|requests| - 1].node == n then 1 else 0
  }

  ghost predicate Inv(s: State) {
    Shape(s) && Links(s) && Owers(s) && Places(s) && Pcs(s) && Delivered(s) && Gaps(s) && Wakes(s) && Reasons(s)
  }
}
