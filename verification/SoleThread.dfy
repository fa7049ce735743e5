/** What the selector's thread does to the queue when no other thread enqueues. */
module SoleThread {
  import opened Protocol
  import opened Tasks

  /** Of the nodes asked for, those that are enqueued: they exist, and their flag is clear when they are asked for. */
  function Entries(ids: seq<nat>, flags: set<nat>, created: nat): seq<nat> {
    if ids == [] then []
    else if ids[0] < created && ids[0] !in flags then [ids[0]] + Entries(ids[1..], flags + {ids[0]}, created)
    else Entries(ids[1..], flags, created)
  }

  /** The flags that are set after these requests. */
  function Raised(ids: seq<nat>, flags: set<nat>, created: nat): set<nat> {
    if ids == [] then flags
    else Raised(ids[1..], if ids[0] < created then flags + {ids[0]} else flags, created)
  }

  lemma {:induction false} EntriesConcat(a: seq<nat>, b: seq<nat>, flags: set<nat>, created: nat)
    ensures Entries(a + b, flags, created) ==
            Entries(a, flags, created) + Entries(b, Raised(a, flags, created), created)
    ensures Raised(a + b, flags, created) == Raised(b, Raised(a, flags, created), created)
  {
    if a == [] {
      assert a + b == b;
    } else {
      assert (a + b)[0] == a[0] && (a + b)[1..] == a[1..] + b;
      var more := if a[0] < created then flags + {a[0]} else flags;
      EntriesConcat(a[1..], b, more, created);
      assert a[0] in flags ==> more == flags;
    }
  }

  /** The requests are enqueued, one after the other, and nothing else is. */
  ghost predicate Appends(s: State, r: State, ids: seq<nat>) {
    && r.created == s.created
    && Reals(r.q.chain) == Reals(s.q.chain) + Entries(ids, s.m.flags, s.created)
    && r.m.flags == Raised(ids, s.m.flags, s.created)
  }

  lemma AppendsNothing(s: State)
    ensures Appends(s, s, [])
  {
  }

  lemma AppendsMore(s: State, m: State, r: State, a: seq<nat>, b: seq<nat>)
    requires Appends(s, m, a) && Appends(m, r, b)
    ensures Appends(s, r, a + b)
  {
    EntriesConcat(a, b, s.m.flags, s.created);
  }

  lemma AppendsOne(s: State, r: State, n: nat)
    requires n < s.created == r.created && r.m.flags == s.m.flags + {n}
    requires Reals(r.q.chain) == Reals(s.q.chain) + if n in s.m.flags then [] else [n]
    ensures Appends(s, r, [n])
  {
    assert [n][1..] == [];
  }

  lemma AppendsAbsent(s: State, n: nat)
    requires n >= s.created
    ensures Appends(s, s, [n])
  {
    assert [n][1..] == [];
  }

  /** The requests follow the release of node n. */
  ghost predicate AppendsAfter(s: State, r: State, n: nat, ids: seq<nat>) {
    Appends(s.(m := s.m.(flags := s.m.flags - {n})), r, ids)
  }

  lemma AfterRelease(s: State, r: State, n: nat)
    requires r.created == s.created && r.q == s.q && r.m.flags == s.m.flags - {n}
    ensures AppendsAfter(s, r, n, [])
  {
  }

  lemma AppendsAfterMore(s: State, m: State, r: State, n: nat, a: seq<nat>, b: seq<nat>)
    requires AppendsAfter(s, m, n, a) && Appends(m, r, b)
    ensures AppendsAfter(s, r, n, a + b)
  {
    AppendsMore(s.(m := s.m.(flags := s.m.flags - {n})), m, r, a, b);
  }

  // ---------- the polls of a call ----------

  /** The nodes enqueued by these polls, in order. */
  function Appended<V>(batch: seq<Poll<V>>, flags: set<nat>, created: nat): seq<nat> {
    if batch == [] then []
    else
      var rest, p := batch[..|batch| - 1], batch[|batch| - 1];
      Appended(rest, flags,
               created) + Entries(Asks(p.turn, p.node), FlagsAfter(rest, flags, created) - {p.node}, created)
  }

  /** The flags that are set after these polls. */
  function FlagsAfter<V>(batch: seq<Poll<V>>, flags: set<nat>, created: nat): set<nat> {
    if batch == [] then flags
    else
      var rest, p := batch[..|batch| - 1], batch[|batch| - 1];
      Raised(Asks(p.turn, p.node), FlagsAfter(rest, flags, created) - {p.node}, created)
  }

  /** Of the queue since s, these polls are all that happened. */
  ghost predicate Replayed<V>(s: State, r: State, batch: seq<Poll<V>>) {
    && r.created == s.created
    && Reals(r.q.chain) == Reals(s.q.chain) + Appended(batch, s.m.flags, s.created)
    && r.m.flags == FlagsAfter(batch, s.m.flags, s.created)
  }

  lemma OnePollAppends<V>(p: Poll<V>, flags: set<nat>, created: nat)
    ensures Appended([p], flags, created) == Entries(Asks(p.turn, p.node), flags - {p.node}, created)
    ensures FlagsAfter([p], flags, created) == Raised(Asks(p.turn, p.node), flags - {p.node}, created)
  {
    assert [p][..0] == [];
  }

  lemma ReplayedNothing<V>(s: State)
    ensures Replayed<V>(s, s, [])
  {
  }

  lemma ReplayedSame<V>(s: State, m: State, r: State, batch: seq<Poll<V>>)
    requires Replayed(s, m, batch) && r.created == m.created
    requires Reals(r.q.chain) == Reals(m.q.chain) && r.m.flags == m.m.flags
    ensures Replayed(s, r, batch)
  {
  }

  /** What one more poll adds, by its outcome. */
  lemma OneMorePoll<V>(batch: seq<Poll<V>>, p: Poll<V>, flags: set<nat>, created: nat, asked: seq<nat>)
    requires asked == match p.turn.outcome
      case Waits => p.turn.wakes
      case Panics => p.turn.wakes + p.turn.dropWakes
      case Continues(t) => p.turn.wakes + [p.node] + p.turn.lateWakes + (if t.Unwinds? then p.turn.dropWakes else [])
      case Breaks(_, kept) => p.turn.wakes + p.turn.lateWakes + (if kept then [] else p.turn.dropWakes)
    ensures var f := FlagsAfter(batch, flags, created) - {p.node};
      && Appended(batch + [p], flags, created) == Appended(batch, flags, created) + Entries(asked, f, created)
      && FlagsAfter(batch + [p], flags, created) == Raised(asked, f, created)
  {
    assert (batch + [p])[..|batch|] == batch;
    AsksByOutcome(p.turn, p.node);
  }

  lemma ReplayedMore<V>(s: State, m: State, r: State, batch: seq<Poll<V>>, p: Poll<V>)
    requires Replayed(s, m, batch) && AppendsAfter(m, r, p.node, Asks(p.turn, p.node))
    ensures Replayed(s, r, batch + [p])
  {
    hide Appended, FlagsAfter, Entries, Raised, Asks, Reals;
    AsksByOutcome(p.turn, p.node);
    OneMorePoll(batch, p, s.m.flags, s.created, Asks(p.turn, p.node));
  }
}
