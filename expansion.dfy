/**
 * The replication of the configuration list: every entry is repeated
 * `instances` times in place, as the nested comprehension
 * `[option for option in options_list for _ in range(instances)]` does.
 */
module Expansion {

  /** How many values `range(n)` yields: none for n <= 0. */
  function RangeLength(n: int): nat
  {
    if n <= 0 then 0 else n
  }

  /** `[x for _ in range(n)]`. */
  function Repeat<T>(x: T, n: int): (r: seq<T>)
    ensures |r| == RangeLength(n)
    ensures forall i :: 0 <= i < |r| ==> r[i] == x
    decreases RangeLength(n)
  {
    if n <= 0 then [] else [x] + Repeat(x, n - 1)
  }

  /** `[option for option in options for _ in range(n)]`. */
  function Expand<T>(options: seq<T>, n: int): (r: seq<T>)
    ensures n <= 0 ==> r == []
    ensures n > 0 && |options| > 0 ==> |r| > 0 && r[0] == options[0]
  {
    if |options| == 0 then [] else Repeat(options[0], n) + Expand(options[1..], n)
  }

  /** The expanded list has `len(options) * n` entries (none when n <= 0). */
  lemma {:induction false} ExpandLength<T>(options: seq<T>, n: int)
    ensures |Expand(options, n)| == |options| * RangeLength(n)
  {
    if |options| > 0 {
      ExpandLength(options[1..], n);
    }
  }

  /**
   * Entry i of the expansion is entry i / n of the configuration: order is
   * kept and each entry occupies a run of n consecutive places.
   */
  lemma ExpandAt<T>(options: seq<T>, n: int, i: int)
    requires n > 0
    requires 0 <= i < |options| * n
    ensures i / n < |options|
    ensures |Expand(options, n)| == |options| * n
    ensures Expand(options, n)[i] == options[i / n]
  {
    var k, j := i / n, i % n;
    DivBound(i, n, |options|);
    ExpandBlock(options, n, k, j);
    ExpandLength(options, n);
  }

  /** Place j of the k-th run of the expansion holds entry k. */
  lemma {:induction false} ExpandBlock<T>(options: seq<T>, n: int, k: int, j: int)
    requires n > 0 && 0 <= k < |options| && 0 <= j < n
    ensures k * n + j < |Expand(options, n)|
    ensures Expand(options, n)[k * n + j] == options[k]
  {
    ExpandLength(options, n);
    MulBound(k, |options|, n);
    var rest := options[1..];
    if k == 0 {
      assert 0 * n == 0;
    } else {
      ExpandBlock(rest, n, k - 1, j);
      MulSucc(k - 1, n);
      var idx := k * n + j;
      assert idx - n == (k - 1) * n + j;
      assert Expand(options, n) == Repeat(options[0], n) + Expand(rest, n);
      assert Expand(options, n)[idx] == Expand(rest, n)[idx - n];
    }
  }

  // Arithmetic hints for the solver, kept apart so that the lemmas above stay cheap.
  lemma MulSucc(a: int, n: int)
    ensures (a + 1) * n == a * n + n
  {
  }

  lemma MulBound(k: int, m: int, n: int)
    requires 0 <= k < m && n > 0
    ensures (k + 1) * n <= m * n
  {
  }

  lemma DivBound(i: int, n: int, m: int)
    requires n > 0 && 0 <= i < m * n
    ensures 0 <= i / n < m
    ensures i == (i / n) * n + i % n && 0 <= i % n < n
  {
    var q := i / n;
    assert i == q * n + i % n;
    if q >= m {
      MulBound(m - 1, q, n);
    }
  }

  /** Every entry appears exactly n times as often as in the configuration. */
  lemma {:induction false} ExpandMultiplicity<T>(options: seq<T>, n: int, x: T)
    ensures multiset(Expand(options, n))[x] == multiset(options)[x] * RangeLength(n)
  {
    if |options| > 0 {
      var head, rest := options[0], options[1..];
      ExpandMultiplicity(rest, n, x);
      RepeatMultiplicity(head, n, x);
      ExpandCount(options, n, x);
      CountStep(multiset(Expand(options, n))[x], multiset(Repeat(head, n))[x],
        multiset(Expand(rest, n))[x], if x == head then 1 else 0, multiset(rest)[x], RangeLength(n));
    }
  }

  // A hint for the solver: how one entry and the rest contribute to the counts.
  lemma ExpandCount<T>(options: seq<T>, n: int, x: T)
    requires |options| > 0
    ensures multiset(Expand(options, n))[x] ==
      multiset(Repeat(options[0], n))[x] + multiset(Expand(options[1..], n))[x]
    ensures multiset(options)[x] == (if x == options[0] then 1 else 0) + multiset(options[1..])[x]
  {
    MultisetAppend(Repeat(options[0], n), Expand(options[1..], n), x);
    assert options == [options[0]] + options[1..];
    MultisetAppend([options[0]], options[1..], x);
  }

  // A hint for the solver: the arithmetic of one step of the induction above.
  lemma CountStep(total: int, first: int, others: int, h: int, b: int, k: int)
    requires total == first + others && first == h * k && others == b * k
    ensures total == (h + b) * k
  {
  }

  // A hint for the solver: counting in a concatenation.
  lemma MultisetAppend<T>(a: seq<T>, b: seq<T>, x: T)
    ensures multiset(a + b)[x] == multiset(a)[x] + multiset(b)[x]
  {
  }

  lemma {:induction false} RepeatMultiplicity<T>(y: T, n: int, x: T)
    ensures multiset(Repeat(y, n))[x] == if x == y then RangeLength(n) else 0
    decreases RangeLength(n)
  {
    if n > 0 {
      RepeatMultiplicity(y, n - 1, x);
    }
  }

  /** A replication factor of 1 leaves the list as it is. */
  lemma {:induction false} ExpandOnce<T>(options: seq<T>)
    ensures Expand(options, 1) == options
  {
    if |options| > 0 {
      ExpandOnce(options[1..]);
      assert Repeat(options[0], 1) == [options[0]];
    }
  }

  /** A factor of zero or less yields the empty list. */
  lemma {:induction false} ExpandNonPositive<T>(options: seq<T>, n: int)
    requires n <= 0
    ensures Expand(options, n) == []
  {
    if |options| > 0 {
      ExpandNonPositive(options[1..], n);
    }
  }
}
