/**
 The consumer's side of `src/queue.rs`, statement by statement, amid other threads.

 Before every access to an atomic the other threads run: `Interfere` lets them take the
 steps that `schedule`, an arbitrary oracle, has for that moment. The ghost fields record
 the history, and `View` is at all times the state that the protocol reaches by `log`.
 */
module Queues {
  import opened Wrappers
  import opened Protocol
  import opened ProtocolRuns
  import opened ProtocolTheorems
  import opened ProtocolWakeups
  import opened ReceiverSteps

  lemma Reach(threads: nat, log: seq<Action>, s: State, a: Action)
    requires s == Exec(Init(threads), log) && Inv(s)
    ensures Step(s, a) == Exec(Init(threads), log + [a]) && Inv(Step(s, a)) && |Step(s, a).producers| == |s.producers|
  {
    hide Inv;
    ExecSnoc(Init(threads), log, a);
    InvStep(s, a);
    SameThreads(s, a);
  }

  lemma SameThreads(s: State, a: Action)
    ensures |Step(s, a).producers| == |s.producers|
  {
  }

  /** No other thread of this many begins an enqueue. */
  ghost predicate Wakeless(threads: nat, schedule: nat -> seq<Action>) {
    forall i: nat, j: nat :: j < |schedule(i)| ==> !Awakens(threads, schedule(i)[j])
  }

  predicate Awakens(threads: nat, a: Action) {
    a.Begin? && 0 < a.thread < threads
  }

  /** No thread but the first is inside an enqueue. */
  ghost predicate OthersOut(producers: seq<Producer>) {
    forall t: nat :: 0 < t < |producers| ==> producers[t].Out?
  }

  class Receiver {
    // the shared cells
    var head: Ptr
    var tail: Ptr
    var next: map<Ptr, Ptr>
    var flags: set<nat>
    var stubPredecessor: Ptr
    var waker: Option<nat>
    // nodes allocated so far, and where the enqueueing threads are; this thread enqueues as number 0
    var created: nat
    var producers: seq<Producer>
    // the other threads
    const schedule: nat -> seq<Action>
    var clock: nat
    // history
    const threads: nat
    ghost var log: seq<Action>
    ghost var q: Order
    ghost var h: History
    ghost var w: Signals
    ghost var consumer: Consumer

    ghost function View(): State
      reads this
    {
      State(Memory(head, tail, next, flags, stubPredecessor, waker), q, h, w, created, producers, consumer)
    }

    /** The state is reachable, hence the invariant of the protocol holds. */
    ghost predicate Valid()
      reads this
    {
      && View() == Exec(Init(threads), log) && Inv(View())
      && |producers| == threads > 0
      && (Alone() ==> OthersOut(producers))
    }

    ghost predicate Resting()
      reads this
    {
      Valid() && consumer.Idle? && At(producers, 0).Out?
    }

    /** Whoever is enqueued, it is this thread that enqueues: there is no other thread, or none that wakes a node. */
    ghost predicate Alone() {
      Wakeless(threads, schedule)
    }

    constructor (threads: nat, schedule: nat -> seq<Action>)
      requires threads > 0
      ensures Resting() && View() == Init(threads) && this.threads == threads && this.schedule == schedule && log == []
    {
      head, tail, next, flags, stubPredecessor, waker := Stub, Stub, map[], {}, Null, None;
      created, producers, clock := 0, seq(threads, _ => Out), 0;
      this.threads, this.schedule := threads, schedule;
      log := [];
      q, h, w, consumer := Init(threads).q, Init(threads).h, Init(threads).w, Init(threads).consumer;
      new;
      InvInit(threads);
    }

    /** The shared cells have taken the step a; the history follows. */
    ghost method Commit(s: State, a: Action)
      requires s == Exec(Init(threads), log) && Inv(s) && |s.producers| == threads > 0
      requires Memory(head, tail, next, flags, stubPredecessor, waker) == Step(s, a).m
      requires created == Step(s, a).created && producers == Step(s, a).producers
      requires Alone() ==> OthersOut(producers)
      modifies this`q, this`h, this`w, this`consumer, this`log
      ensures Valid() && View() == Step(s, a) && log == old(log) + [a]
      ensures old(log) <= log
    {
      hide Exec, Inv;
      var r := Step(s, a);
      Reach(threads, log, s, a);
      q, h, w, consumer := r.q, r.h, r.w, r.consumer;
      log := log + [a];
    }

    // ---------- other threads ----------

    /** One step of another thread: `Node::enqueue` up to, or past, its next atomic. */
    method Other(a: Action)
      requires Valid() && Foreign(a) && (Alone() ==> !Awakens(threads, a))
      modifies this
      ensures Valid() && Stirred(old(View()), View()) && clock == old(clock)
      ensures log == old(log) + [a]
      ensures Alone() ==> View() == old(View())
    {
      hide Exec, Inv, Stirred;
      ghost var s := View();
      var t := a.thread;
      if a.Begin? {
        if t < |producers| && producers[t].Out? && a.node < created && a.node !in flags {
          flags := flags + {a.node};
          producers := producers[t := Entry(a.node, a.cause)];
        }
      } else {
        MoveOther(t);
      }
      ForeignStep(s, a);
      Commit(s, a);
    }

    /** The next atomic of another thread's enqueue. */
    method MoveOther(t: nat)
      modifies this`head, this`next, this`waker, this`producers
      ensures Memory(head, tail, next, flags, stubPredecessor, waker) == MoveStep(old(View()), t).m
      ensures producers == MoveStep(old(View()), t).producers
    {
      if t >= |producers| {
        return;
      }
      match producers[t]
      case Out =>
      case Upgrading(n) =>
        producers := producers[t := Resetting(n)];
      case Resetting(n) =>
        next := next[Real(n) := Null];
        producers := producers[t := Swapping(n)];
      case Swapping(n) =>
        var pred := head;
        head := Real(n);
        producers := producers[t := Linking(n, pred)];
      case Linking(n, pred) =>
        next := next[pred := Real(n)];
        producers := producers[t := Waking(n)];
      case Waking(_) =>
        waker := None;
        producers := producers[t := Out];
    }

    /** Between two of the consumer's steps the other threads do what they like. */
    method Interfere()
      requires Valid()
      modifies this
      ensures Valid() && Stirred(old(View()), View())
      ensures old(log) <= log
      ensures consumer == old(consumer) && tail == old(tail) && h.delivered == old(h.delivered)
      ensures Alone() ==> View() == old(View())
    {
      hide Exec, Inv, Step;
      var actions := schedule(clock);
      clock := clock + 1;
      for i := 0 to |actions|
        invariant Valid() && Stirred(old(View()), View()) && old(log) <= log
        invariant Alone() ==> View() == old(View())
      {
        if Foreign(actions[i]) {
          ghost var s := View();
          Other(actions[i]);
          StirredTransitive(old(View()), s, View());
        }
      }
    }

    // ---------- lines 34-52 ----------

    method RegisterWaker(id: nat) returns (marker: Ptr)
      requires Resting()
      modifies this
      ensures Resting() && consumer == Idle(Marked(marker))
      ensures old(log) <= log
      ensures marker == Null <==> Waiting(View()) == []
      ensures Waiting(View()) != [] ==> marker == Real(Waiting(View())[|Waiting(View())| - 1])
      ensures w.session == Some(id) && w.regAt == |q.chain|
      ensures Grew(old(View()), View()) && h.delivered == old(h.delivered) && q.pos == old(q.pos)
      ensures Alone() ==> q == old(q) && flags == old(flags)
    {
      hide Wakeless, Exec, Inv;
      Interfere();
      ghost var s := View();
      waker := Some(id);
      Commit(s, Register(id));

      Interfere();
      s := View();
      var last := head;
      MarkerIsLast(s);
      Commit(s, LoadHead);
      if last != Stub {
        return last;
      }
      if tail == Stub {
        return Null;
      }
      return stubPredecessor;
    }
  
    // ---------- lines 57-116 ----------

    /** The consumer's next step, whose effect on the shared cells has just taken place. */
    ghost method CommitDequeue(s0: State, s: State)
      requires s == Exec(Init(threads), log) && Inv(s) && |s.producers| == threads > 0
      requires (Underway(s0, s) && Dequeuing(s.consumer)) || (Stirred(s0, s) && s.consumer.Idle?)
      requires Memory(head, tail, next, flags, stubPredecessor, waker) == DequeueStep(s).m
      requires created == s.created && producers == s.producers && (Alone() ==> OthersOut(producers))
      modifies this`q, this`h, this`w, this`consumer, this`log
      ensures Valid() && View() == DequeueStep(s) && Underway(s0, View()) && Excused(s0, View())
      ensures old(log) <= log
      ensures Reals(q.chain) == Reals(s.q.chain)
    {
      hide Exec, Inv, Step, DequeueStep, Underway, Stirred, Excused;
      DequeueIsEnabled(s);
      if s.consumer.Idle? {
        FirstStepUnderway(s0, s);
      } else {
        StepUnderway(s0, s);
      }
      Commit(s, Action.Dequeue);
    }

    method Dequeue() returns (r: Option<nat>)
      requires Resting()
      modifies this
      ensures Valid() && During(old(View()), View())
      ensures old(log) <= log
      ensures r.Some? ==> consumer == Holding(r.value) && h.delivered == old(h.delivered) + [r.value]
      ensures r.None? ==> consumer == Idle(Missed) && h.delivered == old(h.delivered)
      ensures r.None? ==>
        Waiting(View()) == [] || old(SomeLinking(View())) || |Reals(old(q.chain))| < |Reals(q.chain)|
      ensures Alone() ==> Reals(q.chain) == old(Reals(q.chain)) && flags == old(flags)
    {
      hide Wakeless, Exec, Inv, Step, DequeueStep, During, Excused, Underway, Stirred, Load;
      ghost var s0 := View();
      Interfere();
      ghost var s := View();
      FirstReadEffect(s);
      var end := tail;
      var successor := Load(next, end);
      if end == Stub {
        if successor == Null {
          CommitDequeue(s0, s);
          MissIsExcused(s0, View());
          UnderwayDuring(s0, View());
          return None;
        }
        end, successor := SkipStub(s0, successor);
        s := View();
        LaterReadEffect(s);
      }
      if successor != Null {
        tail := successor;
        CommitDequeue(s0, s);
        UnderwayDuring(s0, View());
        return Some(end.id);
      }
      CommitDequeue(s0, s);
      r := CatchUp(s0);
    }

    /** Lines 69-71: the tail moves past the stub. */
    method SkipStub(ghost s0: State, successor: Ptr) returns (end: Ptr, following: Ptr)
      requires Valid() && consumer.Idle? && Stirred(s0, View())
      requires tail == Stub && successor == Load(next, tail) != Null
      modifies this
      ensures Valid() && consumer == SkippedStub && Underway(s0, View())
      ensures old(log) <= log
      ensures end == tail && following == Load(next, end) && h.delivered == old(h.delivered)
      ensures Alone() ==> Reals(q.chain) == old(Reals(q.chain)) && flags == old(flags)
    {
      hide Exec, Inv, Step, DequeueStep, During, Excused, Underway, Stirred, Load;
      ghost var s := View();
      FirstReadEffect(s);
      tail := successor;
      CommitDequeue(s0, s);
      end := successor;
      Overtake(s0);
      following := Load(next, end);
    }

    /** Lines 85-115: no successor was seen. */
    method CatchUp(ghost s0: State) returns (r: Option<nat>)
      requires Valid() && consumer == SawEnd && Underway(s0, View())
      modifies this
      ensures Valid() && During(s0, View())
      ensures old(log) <= log
      ensures r.Some? ==> consumer == Holding(r.value) && h.delivered == old(h.delivered) + [r.value]
      ensures r.None? ==> consumer == Idle(Missed) && h.delivered == old(h.delivered)
      ensures r.None? ==>
        Waiting(View()) == [] || SomeLinking(s0) || |Reals(s0.q.chain)| < |Reals(q.chain)|
      ensures Alone() ==> Reals(q.chain) == old(Reals(q.chain)) && flags == old(flags)
    {
      hide Exec, Inv, Step, DequeueStep, During, Excused, Underway, Stirred, Load;
      Overtake(s0);
      ghost var s := View();
      HeadEffect(s);
      var seen := head;
      CommitDequeue(s0, s);
      if tail != seen {
        MissIsExcused(s0, View());
        UnderwayDuring(s0, View());
        return None;
      }
      EnqueueStub(s0);
      r := Recheck(s0);
    }

    /** Other threads run in the middle of a call that began in s0. */
    method Overtake(ghost s0: State)
      requires Valid() && Underway(s0, View())
      modifies this
      ensures Valid() && Underway(s0, View())
      ensures old(log) <= log
      ensures consumer == old(consumer) && tail == old(tail) && h.delivered == old(h.delivered)
      ensures Alone() ==> View() == old(View())
    {
      hide Exec, Inv, During, Excused;
      Interfere();
      StirredUnderway(s0, old(View()), View());
    }

    /** Lines 90-100: the tail is the only node; the stub goes behind it. */
    method EnqueueStub(ghost s0: State)
      requires Valid() && consumer == ResettingStub && Underway(s0, View())
      modifies this
      ensures Valid() && consumer == Rechecking && Underway(s0, View()) && h.delivered == old(h.delivered)
      ensures old(log) <= log
      ensures Alone() ==> Reals(q.chain) == old(Reals(q.chain)) && flags == old(flags)
    {
      hide Exec, Inv, Step, DequeueStep, During, Excused, Underway, Stirred, Load;
      Overtake(s0);
      ghost var s := View();
      StubEffect(s);
      next := next[Stub := Null];
      CommitDequeue(s0, s);

      Overtake(s0);
      s := View();
      StubEffect(s);
      var predecessor := head;
      head := Stub;
      CommitDequeue(s0, s);
      LinkStub(s0, predecessor);
    }

    /** Lines 97-100. */
    method LinkStub(ghost s0: State, predecessor: Ptr)
      requires Valid() && consumer == LinkingStub(predecessor) && Underway(s0, View())
      modifies this
      ensures Valid() && consumer == Rechecking && Underway(s0, View()) && h.delivered == old(h.delivered)
      ensures old(log) <= log
      ensures Alone() ==> Reals(q.chain) == old(Reals(q.chain)) && flags == old(flags)
    {
      hide Exec, Inv, Step, DequeueStep, During, Excused, Underway, Stirred, Load;
      Overtake(s0);
      ghost var s := View();
      StubEffect(s);
      next := next[predecessor := Stub];
      stubPredecessor := predecessor;
      CommitDequeue(s0, s);
    }

    /** Lines 102-115. */
    method Recheck(ghost s0: State) returns (r: Option<nat>)
      requires Valid() && consumer == Rechecking && Underway(s0, View())
      modifies this
      ensures Valid() && During(s0, View())
      ensures old(log) <= log
      ensures r.Some? ==> consumer == Holding(r.value) && h.delivered == old(h.delivered) + [r.value]
      ensures r.None? ==> consumer == Idle(Missed) && h.delivered == old(h.delivered)
      ensures r.None? ==>
        Waiting(View()) == [] || SomeLinking(s0) || |Reals(s0.q.chain)| < |Reals(q.chain)|
      ensures Alone() ==> Reals(q.chain) == old(Reals(q.chain)) && flags == old(flags)
    {
      hide Exec, Inv, Step, DequeueStep, During, Excused, Underway, Stirred, Load;
      Overtake(s0);
      ghost var s := View();
      LaterReadEffect(s);
      var node := tail;
      var successor := Load(next, node);
      if successor == Null {
        CommitDequeue(s0, s);
        MissIsExcused(s0, View());
        UnderwayDuring(s0, View());
        return None;
      }
      tail := successor;
      CommitDequeue(s0, s);
      UnderwayDuring(s0, View());
      return Some(node.id);
    }
  
    // ---------- lines 345-348, and the drop of a `Dequeued` ----------

    method IntoInner(n: nat)
      requires Valid() && consumer == Holding(n) && At(producers, 0).Out?
      modifies this
      ensures Resting() && Settled(old(View()), View())
      ensures old(log) <= log
      ensures h.released == old(h.released) + [n] && h.retired == old(h.retired) && n !in flags
      ensures Alone() ==> q == old(q) && flags == old(flags) - {n}
    {
      hide Exec, Inv;
      Interfere();
      ghost var s := View();
      flags := flags - {n};
      Commit(s, Release);
    }

    /** The `Dequeued` is dropped as it is: its flag stays set. */
    ghost method Discard()
      requires Valid() && consumer.Holding? && At(producers, 0).Out?
      modifies this`q, this`h, this`w, this`consumer, this`log
      ensures Resting() && Settled(old(View()), View()) && flags == old(flags)
      ensures old(log) <= log
      ensures h.released == old(h.released) && h.retired == old(h.retired) + {old(consumer).node} && q == old(q)
    {
      hide Exec, Inv;
      Commit(View(), Retire);
    }

    // ---------- lines 165-204 ----------

    method Create() returns (id: nat)
      requires Resting()
      modifies this`created, this`q, this`h, this`w, this`consumer, this`log
      ensures Resting() && id == old(created) && created == id + 1
      ensures old(log) <= log
      ensures View() == old(View()).(created := id + 1)
      ensures id !in flags && id !in h.retired
      ensures old(Parked(View())) ==> Parked(View())
    {
      hide Exec;
      ghost var s := View();
      id := created;
      created := created + 1;
      if Parked(s) {
        ParkedStep(s, Action.Create);
      }
      Commit(s, Action.Create);
    }

    method Enqueue(n: nat, cause: Cause)
      requires Resting() && n < created
      modifies this
      ensures Resting() && Beside(old(View()), View()) && n in flags
      ensures old(log) <= log
      ensures AskedOnce(old(h.requests), h.requests, Request(n, cause))
      ensures Alone() ==>
        Reals(q.chain) == old(Reals(q.chain)) + (if n in old(flags) then [] else [n]) && flags == old(flags) + {n}
    {
      hide Wakeless, Exec, Inv, Stirred, Beside, Step;
      ghost var s0 := View();
      Interfere();
      ghost var s := View();
      StirredKeeps(s0, s);
      OwnBegin(s0, s, n, cause);
      if n in flags {
        Commit(s, Begin(0, n, cause));
        return;
      }
      flags := flags + {n};
      producers := producers[0 := Entry(n, cause)];
      Commit(s, Begin(0, n, cause));

      if cause.Woken? {
        Upgrade(s0, n);
      }
      EnqueueInner(s0, n);
    }

    /** Lines 285 and 297: this thread belongs to the receiver, so the queue is there. */
    method Upgrade(ghost s0: State, n: nat)
      requires Valid() && consumer.Idle? && At(producers, 0) == Upgrading(n) && Beside(s0, View())
      modifies this
      ensures Valid() && consumer.Idle? && At(producers, 0) == Resetting(n)
      ensures old(log) <= log
      ensures Beside(s0, View()) && SameRequests(old(h.requests), h.requests) && old(flags) <= flags
      ensures Alone() ==> Reals(q.chain) == old(Reals(q.chain)) && flags == old(flags)
    {
      hide Wakeless, Exec, Inv, Stirred, Beside, Step;
      StepAside(s0);
      ghost var s := View();
      OwnMove(s0, s);
      OwnMoveEffect(s);
      producers := producers[0 := Resetting(n)];
      Commit(s, Move(0));
    }

    method EnqueueInner(ghost s0: State, n: nat)
      requires Valid() && consumer.Idle? && At(producers, 0) == Resetting(n) && Beside(s0, View())
      modifies this
      ensures Resting() && Beside(s0, View()) && SameRequests(old(h.requests), h.requests) && old(flags) <= flags
      ensures old(log) <= log
      ensures Alone() ==> Reals(q.chain) == old(Reals(q.chain)) + [n] && flags == old(flags)
    {
      hide Wakeless, Exec, Inv, Stirred, Beside, Step;
      StepAside(s0);
      ghost var s := View();
      OwnMove(s0, s);
      OwnMoveEffect(s);
      next := next[Real(n) := Null];
      producers := producers[0 := Swapping(n)];
      Commit(s, Move(0));

      var pred := SwapIn(s0, n);
      LinkAndWake(s0, n, pred);
    }

    method SwapIn(ghost s0: State, n: nat) returns (pred: Ptr)
      requires Valid() && consumer.Idle? && At(producers, 0) == Swapping(n) && Beside(s0, View())
      modifies this
      ensures Valid() && consumer.Idle? && At(producers, 0) == Linking(n, pred)
      ensures old(log) <= log
      ensures Beside(s0, View()) && SameRequests(old(h.requests), h.requests) && old(flags) <= flags
      ensures Alone() ==> Reals(q.chain) == old(Reals(q.chain)) + [n] && flags == old(flags)
    {
      hide Wakeless, Exec, Inv, Stirred, Beside, Step;
      StepAside(s0);
      ghost var s := View();
      OwnMove(s0, s);
      OwnMoveEffect(s);
      pred := head;
      head := Real(n);
      producers := producers[0 := Linking(n, pred)];
      Commit(s, Move(0));
    }

    method LinkAndWake(ghost s0: State, n: nat, pred: Ptr)
      requires Valid() && consumer.Idle? && At(producers, 0) == Linking(n, pred) && Beside(s0, View())
      modifies this
      ensures Resting() && Beside(s0, View()) && SameRequests(old(h.requests), h.requests) && old(flags) <= flags
      ensures old(log) <= log
      ensures Alone() ==> Reals(q.chain) == old(Reals(q.chain)) && flags == old(flags)
    {
      hide Wakeless, Exec, Inv, Stirred, Beside, Step;
      StepAside(s0);
      ghost var s := View();
      OwnMove(s0, s);
      OwnMoveEffect(s);
      next := next[pred := Real(n)];
      producers := producers[0 := Waking(n)];
      Commit(s, Move(0));

      StepAside(s0);
      s := View();
      OwnMove(s0, s);
      OwnMoveEffect(s);
      waker := None;
      producers := producers[0 := Out];
      Commit(s, Move(0));
    }

    /** Other threads run in the middle of an enqueue of this thread. */
    method StepAside(ghost s0: State)
      requires Valid() && Beside(s0, View())
      modifies this
      ensures Valid() && Beside(s0, View()) && SameRequests(old(h.requests), h.requests) && old(flags) <= flags
      ensures old(log) <= log
      ensures At(producers, 0) == old(At(producers, 0)) && consumer == old(consumer)
      ensures Alone() ==> View() == old(View())
    {
      hide Exec, Inv, Stirred, Beside, Step;
      Interfere();
      StirredBeside(s0, old(View()), View());
    }
  }

  /** As During, but a new registration may have taken place. */
  ghost predicate Grew(s: State, r: State) {
    && r.created == s.created
    && |r.producers| == |s.producers| && At(r.producers, 0) == At(s.producers, 0)
    && s.q.chain <= r.q.chain && |Reals(s.q.chain)| <= |Reals(r.q.chain)|
    && s.m.flags <= r.m.flags && r.h.released == s.h.released && r.h.retired == s.h.retired
    && SameRequests(s.h.requests, r.h.requests)
  }
}
