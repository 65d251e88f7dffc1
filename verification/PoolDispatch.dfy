/** The client pool hands queries to its connections in turn. */
module PoolDispatch {

  const MAX_INT := 0x7fff_ffff
  const TWO_64 := 0x1_0000_0000_0000_0000

  predicate IsInt(x: int) {
    -MAX_INT - 1 <= x <= MAX_INT
  }

  /** `use_index_++` on an atomic 32-bit int. */
  function Bumped(x: int): int {
    if x == MAX_INT then -MAX_INT - 1 else x + 1
  }

  /** `use_index_ % connections_.size()`: the int becomes an unsigned 64-bit number first. */
  function Slot(x: int, n: nat): (i: nat)
    requires IsInt(x) && n > 0
    ensures i < n
  {
    (if x < 0 then x + TWO_64 else x) % n
  }

  /** The connections that the next `calls` calls turn to, from use_index_ == x. */
  function Slots(x: int, n: nat, calls: nat): (r: seq<nat>)
    requires IsInt(x) && n > 0
    ensures |r| == calls
    decreases calls
  {
    if calls == 0 then [] else [Slot(Bumped(x), n)] + Slots(Bumped(x), n, calls - 1)
  }

  function Count(s: seq<nat>, i: nat): nat {
    if s == [] then 0 else (if s[0] == i then 1 else 0) + Count(s[1..], i)
  }

  /** Each of n connections got the same share. */
  ghost predicate Balanced(s: seq<nat>, n: nat, share: nat) {
    forall i: nat :: i < n ==> Count(s, i) == share
  }

  // ---------------------------------------------------------------- dispatch

  /** What a call posts: a query to a connection, or the completion of a refused one. */
  datatype Post = Started(connection: nat, query: nat) | Refused(query: nat, code: int, message: string)

  /** `ready` is what the connections' `IsReady` says during a call. */
  function Posted(x: int, ready: seq<bool>, query: nat): Post
    requires IsInt(x) && ready != []
  {
    var i := Slot(Bumped(x), |ready|);
    if ready[i] then Started(i, query) else Refused(query, -1, "connection not ready")
  }

  class Pool {
    var useIndex: int
    var posts: seq<Post>

    /** The loop looks at one connection, ready or not, since what it takes out of the list is never null. */
    method GetClient(ready: seq<bool>) returns (i: nat, found: bool)
      requires IsInt(useIndex) && ready != []
      modifies this`useIndex
      ensures IsInt(useIndex) && useIndex == Bumped(old(useIndex))
      ensures i == Slot(useIndex, |ready|) && found == ready[i]
      ensures useIndex == if old(useIndex) == 2147483647 then -2147483648 else old(useIndex) + 1
      ensures i == (if useIndex < 0 then 18446744073709551616 + useIndex else useIndex) % |ready|
    {
      var again, rounds := true, 0;
      i := 0;
      while again
        invariant IsInt(useIndex)
        invariant again ==> useIndex == old(useIndex)
        invariant !again ==> useIndex == Bumped(old(useIndex)) && i == Slot(useIndex, |ready|) && !ready[i]
        decreases again
      {
        useIndex := Bumped(useIndex);
        rounds := rounds + 1;
        i := Slot(useIndex, |ready|);
        if ready[i] {
          return i, true;
        }
        // The list holds no null pointer, so the loop ends here.
        var isNull := false;
        again := isNull && rounds < |ready|;
      }
      found := false;
    }

    method PendingQuery(ready: seq<bool>, query: nat)
      requires IsInt(useIndex) && ready != []
      modifies this
      ensures IsInt(useIndex) && useIndex == Bumped(old(useIndex))
      ensures posts == old(posts) + [Posted(old(useIndex), ready, query)]
      ensures var i := Slot(useIndex, |ready|);
              posts == old(posts) + [if ready[i] then Started(i, query) else Refused(query, -1, "connection not ready")]
    {
      var i, found := GetClient(ready);
      posts := posts + [if found then Started(i, query) else Refused(query, -1, "connection not ready")];
    }

    /** Any number of calls while all n connections are ready. */
    method Burst(n: nat, queries: seq<nat>)
      requires IsInt(useIndex) && n > 0
      modifies this
      ensures IsInt(useIndex) && |posts| == |old(posts)| + |queries| && posts[..|old(posts)|] == old(posts)
      ensures forall k :: 0 <= k < |queries| ==>
                posts[|old(posts)| + k] == Started(Slots(old(useIndex), n, |queries|)[k], queries[k])
    {
      var ready := seq(n, _ => true);
      for k := 0 to |queries|
        invariant IsInt(useIndex) && |posts| == |old(posts)| + k && posts[..|old(posts)|] == old(posts)
        invariant Slots(old(useIndex), n, |queries|)[k..] == Slots(useIndex, n, |queries| - k)
        invariant forall j :: 0 <= j < k ==>
                    posts[|old(posts)| + j] == Started(Slots(old(useIndex), n, |queries|)[j], queries[j])
      {
        assert Slots(old(useIndex), n, |queries|)[k..][0] == Slot(Bumped(useIndex), n);
        PendingQuery(ready, queries[k]);
      }
    }
  }

  // ---------------------------------------------------------------- fairness

  /** The next `calls` bumps each turn to the next connection. */
  ghost predicate Turns(x: int, n: nat, calls: nat)
    requires IsInt(x) && n > 0
    decreases calls
  {
    calls > 0 ==> Slot(Bumped(x), n) == Following(Slot(x, n), n) && Turns(Bumped(x), n, calls - 1)
  }

  function Following(i: nat, n: nat): (j: nat)
    requires i < n
    ensures j < n
  {
    if i + 1 == n then 0 else i + 1
  }

  /** How many turns until it is i's, coming from connection a. */
  function Ahead(a: nat, i: nat, n: nat): (d: nat)
    requires a < n && i < n
    ensures d < n
  {
    if a < i then i - a - 1 else n + i - a - 1
  }

  lemma {:induction false} Shares(x: int, n: nat, i: nat, rounds: nat, rest: nat)
    requires IsInt(x) && n > 0 && i < n && rest < n && Turns(x, n, rounds * n + rest)
    ensures Count(Slots(x, n, rounds * n + rest), i) == rounds + (if Ahead(Slot(x, n), i, n) < rest then 1 else 0)
    decreases rounds, rest
  {
    if rest > 0 {
      Shares(Bumped(x), n, i, rounds, rest - 1);
    } else if rounds > 0 {
      assert rounds * n == (rounds - 1) * n + (n - 1) + 1;
      Shares(Bumped(x), n, i, rounds - 1, n - 1);
    }
  }

  lemma TurnsAreBalanced(x: int, n: nat, share: nat)
    requires IsInt(x) && n > 0 && Turns(x, n, share * n)
    ensures Balanced(Slots(x, n, share * n), n, share)
  {
    forall i: nat | i < n ensures Count(Slots(x, n, share * n), i) == share {
      Shares(x, n, i, share, 0);
    }
  }

  lemma NextRemainder(x: nat, n: nat)
    requires n > 0
    ensures (x + 1) % n == Following(x % n, n)
  {
    var q, r := x / n, x % n;
    assert x == q * n + r;
    if r + 1 == n {
      assert x + 1 == (q + 1) * n + 0;
      Remainder(q + 1, 0, n);
    } else {
      assert x + 1 == q * n + (r + 1);
      Remainder(q, r + 1, n);
    }
  }

  lemma Remainder(q: nat, r: nat, n: nat)
    requires r < n
    ensures (q * n + r) % n == r
  {
    var x := q * n + r;
    var k := x / n - q;
    assert x % n - r + k * n == 0;
    SmallMultiple(k, n);
  }

  lemma SmallMultiple(k: int, n: int)
    requires 0 < n && 0 - n < k * n < n
    ensures k == 0
  {
    assert k >= 1 ==> (k - 1) * n >= 0;
    assert k <= -1 ==> (k + 1) * n <= 0;
  }

  lemma {:induction false} PlainTurns(x: int, n: nat, calls: nat)
    requires IsInt(x) && n > 0 && 0 <= x && x + calls <= MAX_INT
    ensures Turns(x, n, calls)
    decreases calls
  {
    if calls > 0 {
      NextRemainder(x, n);
      PlainTurns(x + 1, n, calls - 1);
    }
  }

  /** While the index is not negative and does not overflow, share * n calls give each connection share. */
  lemma RoundRobin(x: int, n: nat, share: nat)
    requires 0 <= x && n > 0 && x + share * n <= MAX_INT
    ensures IsInt(x) && Balanced(Slots(x, n, share * n), n, share)
  {
    assert share * n >= 0;
    PlainTurns(x, n, share * n);
    TurnsAreBalanced(x, n, share);
  }

  // ---------------------------------------------------------------- across the two seams

  function Pow2(k: nat): (p: nat)
    ensures p > 0
  {
    if k == 0 then 1 else 2 * Pow2(k - 1)
  }

  lemma {:induction false} OddDivisor(a: nat, m: nat, k: nat)
    requires a * m == Pow2(k) && m % 2 == 1
    ensures m == 1
  {
    if k == 0 {
      assert a >= 1 ==> a * m >= m;
    } else {
      OddTimes(a, m);
      assert a == 2 * (a / 2);
      assert (a / 2) * m * 2 == a * m;
      OddDivisor(a / 2, m, k - 1);
    }
  }

  lemma OddTimes(a: nat, m: nat)
    requires m % 2 == 1 && (a * m) % 2 == 0
    ensures a % 2 == 0
  {
    var h := m / 2;
    assert m == 2 * h + 1;
    assert a * m == 2 * (a * h) + a;
  }

  lemma {:induction false} SmallDivisor(n: nat, m: nat, k: nat, j: nat)
    requires n * m == Pow2(k) && j <= k && n <= Pow2(j)
    ensures exists d: nat :: n * d == Pow2(j)
    decreases k
  {
    if j < k {
      Doubles(j, k - 1);
      assert m > 1;
      if m % 2 == 1 {
        OddDivisor(n, m, k);
      }
      assert m == 2 * (m / 2);
      assert n * m == 2 * (n * (m / 2));
      SmallDivisor(n, m / 2, k - 1, j);
    }
  }

  lemma {:induction false} Doubles(j: nat, k: nat)
    requires j <= k
    ensures Pow2(j) <= Pow2(k)
  {
    if j < k {
      Doubles(j, k - 1);
    }
  }

  lemma Powers()
    ensures Pow2(31) == MAX_INT + 1 && Pow2(64) == TWO_64
  {
    assert Pow2(8) == 0x100;
    assert Pow2(16) == 0x1_0000;
    assert Pow2(24) == 0x100_0000;
    assert Pow2(31) == 0x8000_0000;
    assert Pow2(40) == 0x100_0000_0000;
    assert Pow2(48) == 0x1_0000_0000_0000;
    assert Pow2(56) == 0x100_0000_0000_0000;
  }

  /** A pool size that divides 2^64 divides 2^31. */
  lemma DividesBoth(n: nat)
    requires 0 < n <= MAX_INT && TWO_64 % n == 0
    ensures (MAX_INT + 1) % n == 0
  {
    Powers();
    assert n * (TWO_64 / n) == TWO_64;
    SmallDivisor(n, TWO_64 / n, 64, 31);
    var d: nat :| n * d == Pow2(31);
    Remainder(d, 0, n);
  }

  lemma SeamTurns(x: int, n: nat)
    requires IsInt(x) && 0 < n <= MAX_INT && TWO_64 % n == 0
    ensures Slot(Bumped(x), n) == Following(Slot(x, n), n)
  {
    if x == MAX_INT {
      DividesBoth(n);
      NextRemainder(x, n);
      var a, b := TWO_64 / n, (MAX_INT + 1) / n;
      assert TWO_64 - MAX_INT - 1 == n * a - n * b == (a - b) * n;
      Remainder(a - b, 0, n);
    } else if x == -1 {
      NextRemainder(TWO_64 - 1, n);
      Remainder(0, 0, n);
    } else {
      NextRemainder(if x < 0 then x + TWO_64 else x, n);
    }
  }

  lemma {:induction false} SeamlessTurns(x: int, n: nat, calls: nat)
    requires IsInt(x) && 0 < n <= MAX_INT && TWO_64 % n == 0
    ensures Turns(x, n, calls)
    decreases calls
  {
    if calls > 0 {
      SeamTurns(x, n);
      SeamlessTurns(Bumped(x), n, calls - 1);
    }
  }

  /** From any index, over any number of rounds, the pool is fair. */
  ghost predicate AlwaysFair(n: nat)
    requires n > 0
  {
    forall x, share: nat :: IsInt(x) ==> Balanced(Slots(x, n, share * n), n, share)
  }

  /** The round from -2 takes the slot of -1 and then those of 0 to n-2. */
  lemma RoundFromMinusTwo(n: nat)
    requires 0 < n <= MAX_INT
    ensures Count(Slots(-2, n, n), n - 1) == (if Slot(-1, n) == n - 1 then 1 else 0)
  {
    Remainder(0, 0, n);
    assert Bumped(-2) == -1 && Bumped(-1) == 0;
    if n > 1 {
      UpTo(0, n, n - 2);
    }
  }

  lemma {:induction false} UpTo(x: nat, n: nat, calls: nat)
    requires IsInt(x) && n > 0 && x + calls < n - 1 && n <= MAX_INT
    ensures Count(Slots(x, n, calls), n - 1) == 0
    decreases calls
  {
    if calls > 0 {
      Remainder(0, x + 1, n);
      UpTo(x + 1, n, calls - 1);
    }
  }

  /** The dispatch is fair from every index exactly when the number of connections divides 2^64: the jumps
      from -1 to 0 and from the largest int to the smallest keep the turn for those sizes only. */
  lemma FairExactly(n: nat)
    requires 0 < n <= MAX_INT
    ensures AlwaysFair(n) <==> TWO_64 % n == 0
  {
    if TWO_64 % n == 0 {
      forall x, share: nat | IsInt(x) ensures Balanced(Slots(x, n, share * n), n, share) {
        SeamlessTurns(x, n, share * n);
        TurnsAreBalanced(x, n, share);
      }
    } else {
      RoundFromMinusTwo(n);
      NextRemainder(TWO_64 - 1, n);
      assert Slots(-2, n, 1 * n) == Slots(-2, n, n);
      assert !Balanced(Slots(-2, n, 1 * n), n, 1);
    }
  }

  /** Three connections: from -2, three calls use connections 0, 0 and 1. */
  lemma ThreeSkips()
    ensures Slots(-2, 3, 3) == [0, 0, 1]
  {
    assert Slots(1, 3, 0) == [];
    assert Slots(0, 3, 1) == [1];
    assert Slots(-1, 3, 2) == [0, 1];
  }
}
