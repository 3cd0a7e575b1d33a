/** Vocabulary shared by every module: results, clamping, the settlement slack and rounding. */
module Basics {

  datatype Option<+T> = None | Some(value: T)

  datatype Result<+T, +E> = Ok(value: T) | Err(error: E)

  /** The absolute tolerance that the ledgers grant when they compare dollar amounts. */
  const SLACK: real := 0.000000000001

  const MILLION: real := 1000000.0

  function Min(a: real, b: real): real {
    if b < a then b else a
  }

  function Max(a: real, b: real): real {
    if a < b then b else a
  }

  function MinInt(a: int, b: int): int {
    if b < a then b else a
  }

  function MaxInt(a: int, b: int): int {
    if a < b then b else a
  }

  predicate Distinct<T(==)>(s: seq<T>) {
    forall i, j | 0 <= i < j < |s| :: s[i] != s[j]
  }

  predicate Close(a: real, b: real) {
    -SLACK <= a - b <= SLACK
  }

  lemma ProductGrows(a: real, b: real, x: real)
    requires a <= b && x >= 0.0
    ensures a * x <= b * x
  {
  }

  lemma ProductIsLess(a: real, b: real, x: real)
    requires a < b && x > 0.0
    ensures a * x < b * x
  {
  }

  // ---------------------------------------------------------------- rounding to eight decimals, ties to even

  const HUNDRED_MILLION: real := 100000000.0

  function RoundHalfEven(x: real): int {
    var low := x.Floor;
    var excess := x - low as real;
    if excess < 0.5 || (excess == 0.5 && low % 2 == 0) then low else low + 1
  }

  /** Rounds an amount to eight decimals. */
  function Round8(x: real): real {
    RoundHalfEven(x * HUNDRED_MILLION) as real / HUNDRED_MILLION
  }

  lemma RoundingIsMonotone(x: real, y: real)
    requires x <= y
    ensures Round8(x) <= Round8(y)
  {
    var a, b := x * HUNDRED_MILLION, y * HUNDRED_MILLION;
    assert a <= b;
    assert RoundHalfEven(a) <= RoundHalfEven(b);
  }

  lemma RoundingKeepsSign(x: real)
    requires x >= 0.0
    ensures Round8(x) >= 0.0
  {
    RoundingIsMonotone(0.0, x);
  }
}

/** Sums over the entries of a map, independent of the order in which they are visited. */
module Tallies {

  ghost function Tally<K, V>(m: map<K, V>, share: V -> real): real {
    if m == map[] then
      0.0
    else
      var k :| k in m;
      share(m[k]) + Tally(m - {k}, share)
  }

  lemma {:induction false} TallyTake<K, V>(m: map<K, V>, k: K, share: V -> real)
    requires k in m
    ensures Tally(m, share) == share(m[k]) + Tally(m - {k}, share)
    decreases |m|
  {
    var j :| j in m && Tally(m, share) == share(m[j]) + Tally(m - {j}, share);
    if j != k {
      TallyTake(m - {j}, k, share);
      TallyTake(m - {k}, j, share);
      assert m - {j} - {k} == m - {k} - {j};
    }
  }

  ghost function ShareAt<K, V>(m: map<K, V>, k: K, share: V -> real): real {
    if k in m then share(m[k]) else 0.0
  }

  lemma TallyRemove<K, V>(m: map<K, V>, k: K, share: V -> real)
    ensures Tally(m - {k}, share) == Tally(m, share) - ShareAt(m, k, share)
  {
    if k in m {
      TallyTake(m, k, share);
    } else {
      assert m - {k} == m;
    }
  }

  lemma TallyPut<K, V>(m: map<K, V>, k: K, v: V, share: V -> real)
    ensures Tally(m[k := v], share) == Tally(m, share) - ShareAt(m, k, share) + share(v)
  {
    TallyTake(m[k := v], k, share);
    TallyRemove(m, k, share);
    assert m[k := v] - {k} == m - {k};
  }

  /** With nonnegative shares a total is nonnegative and covers each entry. */
  lemma {:induction false} TallyCovers<K, V>(m: map<K, V>, share: V -> real)
    requires forall k | k in m :: share(m[k]) >= 0.0
    ensures Tally(m, share) >= 0.0
    ensures forall k | k in m :: share(m[k]) <= Tally(m, share)
    decreases |m|
  {
    if m != map[] {
      var j :| j in m && Tally(m, share) == share(m[j]) + Tally(m - {j}, share);
      TallyCovers(m - {j}, share);
      forall k | k in m ensures share(m[k]) <= Tally(m, share) {
        if k != j {
          assert (m - {j})[k] == m[k];
        }
      }
    }
  }

  /** Entry-wise comparison of two maps over the same keys carries over to the totals. */
  lemma {:induction false} TallyCompare<K, V, W>(m: map<K, V>, share: V -> real, n: map<K, W>, other: W -> real)
    requires m.Keys == n.Keys
    requires forall k | k in m :: share(m[k]) <= other(n[k])
    ensures Tally(m, share) <= Tally(n, other)
    decreases |m|
  {
    if m == map[] {
      assert n.Keys == {};
      assert n == map[];
    } else {
      var j :| j in m && Tally(m, share) == share(m[j]) + Tally(m - {j}, share);
      TallyTake(n, j, other);
      TallyCompare(m - {j}, share, n - {j}, other);
    }
  }

  lemma TallySame<K, V, W>(m: map<K, V>, share: V -> real, n: map<K, W>, other: W -> real)
    requires m.Keys == n.Keys
    requires forall k | k in m :: share(m[k]) == other(n[k])
    ensures Tally(m, share) == Tally(n, other)
  {
    TallyCompare(m, share, n, other);
    TallyCompare(n, other, m, share);
  }

  /** A total splits along any split of its shares. */
  lemma {:induction false} TallySplit<K, V>(m: map<K, V>, share: V -> real, left: V -> real, right: V -> real)
    requires forall k | k in m :: share(m[k]) == left(m[k]) + right(m[k])
    ensures Tally(m, share) == Tally(m, left) + Tally(m, right)
    decreases |m|
  {
    if m != map[] {
      var j :| j in m && Tally(m, share) == share(m[j]) + Tally(m - {j}, share);
      TallyTake(m, j, left);
      TallyTake(m, j, right);
      TallySplit(m - {j}, share, left, right);
    }
  }

  lemma {:induction false} TallyZero<K, V>(m: map<K, V>, share: V -> real)
    requires forall k | k in m :: share(m[k]) == 0.0
    ensures Tally(m, share) == 0.0
    decreases |m|
  {
    if m != map[] {
      var j :| j in m && Tally(m, share) == share(m[j]) + Tally(m - {j}, share);
      TallyZero(m - {j}, share);
    }
  }
}
