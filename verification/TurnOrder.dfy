/** Taking turns: task 0, 1, .., n - 1, and again from 0. */
module TurnOrders {
  import opened Protocol

  /** Whose turn it is after i turns of n tasks. */
  function Whose(i: nat, n: nat): (t: nat)
    requires n > 0
    ensures t < n
  {
    if i < n then i else Whose(i - n, n)
  }

  /** How many rounds are complete after i turns of n tasks. */
  function Round(i: nat, n: nat): nat
    requires n > 0
  {
    if i < n then 0 else 1 + Round(i - n, n)
  }

  lemma {:induction false} WhoseIsModulo(i: nat, n: nat)
    requires n > 0
    ensures Whose(i, n) == i % n && Round(i, n) == i / n
  {
    if i >= n {
      WhoseIsModulo(i - n, n);
      OneRoundLess(i, n);
    }
  }

  lemma OneRoundLess(i: nat, n: nat)
    requires 0 < n <= i
    ensures (i - n) / n == i / n - 1 && (i - n) % n == i % n
  {
    var q, r := i / n, i % n;
    assert i == q * n + r;
    assert (q - 1) * n == q * n - n;
    SameQuotient((i - n) / n, (i - n) % n, q - 1, r, n);
  }

  lemma SameQuotient(q: int, r: int, p: int, s: int, n: nat)
    requires q * n + r == p * n + s && 0 <= r < n && 0 <= s < n
    ensures q == p && r == s
  {
    var d := q - p;
    assert d * n == q * n - p * n;
    assert (-d) * n == -(d * n);
    AtLeast(d, n);
    AtLeast(-d, n);
  }

  lemma AtLeast(x: int, n: nat)
    ensures x >= 1 ==> x * n >= n
  {
    if x >= 1 {
      assert x * n == (x - 1) * n + n;
    }
  }

  lemma {:induction false} NextTurn(i: nat, n: nat)
    requires n > 0
    ensures if Whose(i, n) == n - 1 then Whose(i + 1, n) == 0 && Round(i + 1, n) == Round(i, n) + 1
            else Whose(i + 1, n) == Whose(i, n) + 1 && Round(i + 1, n) == Round(i, n)
  {
    if i >= n {
      NextTurn(i - n, n);
    }
  }

  /** The tasks' turns from turn number i on. */
  function Turns(n: nat, i: nat, count: nat): seq<nat>
    requires n > 0
  {
    if count == 0 then [] else Turns(n, i, count - 1) + [Whose(i + count - 1, n)]
  }

  lemma {:induction false} TurnsFirst(n: nat, i: nat, count: nat)
    requires n > 0 && count > 0
    ensures Turns(n, i, count) == [Whose(i, n)] + Turns(n, i + 1, count - 1)
  {
    if count > 1 {
      TurnsFirst(n, i, count - 1);
    }
  }

  lemma TurnsRotate(n: nat, i: nat)
    requires n > 0
    ensures Turns(n, i, n)[1..] + [Whose(i, n)] == Turns(n, i + 1, n) && Turns(n, i, n)[0] == Whose(i, n)
  {
    TurnsFirst(n, i, n);
    assert Whose(i + n, n) == Whose(i, n);
    assert Turns(n, i, n)[1..] == Turns(n, i + 1, n - 1);
  }

  lemma TurnsSnoc(n: nat, i: nat)
    requires n > 0
    ensures Turns(n, 0, i + 1) == Turns(n, 0, i) + [Whose(i, n)]
  {
  }

  lemma {:induction false} TurnsLength(n: nat, i: nat, count: nat)
    requires n > 0
    ensures |Turns(n, i, count)| == count && forall t <- Turns(n, i, count) :: t < n
  {
    if count > 0 {
      TurnsLength(n, i, count - 1);
    }
  }

  /** In i turns a task has as many turns as there are complete rounds, and one more if it was passed. */
  lemma {:induction false} TurnsOf(n: nat, i: nat, t: nat)
    requires t < n
    ensures Times(Turns(n, 0, i), t) == Round(i, n) + if t < Whose(i, n) then 1 else 0
  {
    if i > 0 {
      TurnsOf(n, i - 1, t);
      NextTurn(i - 1, n);
    }
  }

  /** Turn number k, among any number of turns. */
  lemma {:induction false} TurnsAt(n: nat, i: nat, count: nat, k: nat)
    requires n > 0 && k < count
    ensures |Turns(n, i, count)| == count && Turns(n, i, count)[k] == Whose(i + k, n)
  {
    TurnsLength(n, i, count - 1);
    if k < count - 1 {
      TurnsAt(n, i, count - 1, k);
    }
  }

  /** The flags of the nodes 0 .. n - 1 are set. */
  ghost predicate AllSet(flags: set<nat>, n: nat) {
    forall m: nat :: m in flags <==> m < n
  }
}
