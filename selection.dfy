/**
 * In-memory counterparts of the two SQL shapes the search is built from:
 * `SELECT ... WHERE p` (Filter) and `ORDER BY key LIMIT 1` (ArgMin).
 */
module Selection {

  /** The rows of `xs` that satisfy `keep`, in their original order. */
  function Filter<T(!new)>(xs: seq<T>, keep: T -> bool): (ys: seq<T>)
    ensures |ys| <= |xs|
    ensures forall y :: y in ys <==> y in xs && keep(y)
  {
    if xs == [] then []
    else (if keep(xs[0]) then [xs[0]] else []) + Filter(xs[1..], keep)
  }

  /** `m` is a row of `xs` whose key no other row of `xs` undercuts. */
  ghost predicate IsMinimal<T>(m: T, xs: seq<T>, key: T -> real)
  {
    m in xs && forall x :: x in xs ==> key(m) <= key(x)
  }

  /**
   * `ORDER BY key LIMIT 1` over a non-empty table. SQL leaves the choice among rows with
   * equal keys open; this definition takes the first, and its contract promises only some
   * minimal row.
   */
  function ArgMin<T>(xs: seq<T>, key: T -> real): (m: T)
    requires xs != []
    ensures IsMinimal(m, xs, key)
  {
    if |xs| == 1 then xs[0]
    else
      var rest := ArgMin(xs[1..], key);
      assert forall x :: x in xs ==> x == xs[0] || x in xs[1..];
      if key(xs[0]) <= key(rest) then xs[0] else rest
  }

  /** Any two minimal rows of tables holding the same rows have the same key. */
  lemma {:induction false} MinimalKeysAgree<T>(m1: T, xs: seq<T>, m2: T, ys: seq<T>, key: T -> real)
    requires multiset(xs) == multiset(ys)
    requires IsMinimal(m1, xs, key) && IsMinimal(m2, ys, key)
    ensures key(m1) == key(m2)
  {
    assert m1 in multiset(ys) && m2 in multiset(xs);
    assert m1 in ys && m2 in xs;
  }

  /** A minimal row of a larger table has a key at most that of a minimal row of a smaller one. */
  lemma MinimalOfSuperset<T>(m1: T, xs: seq<T>, m2: T, ys: seq<T>, key: T -> real)
    requires forall x :: x in xs ==> x in ys
    requires IsMinimal(m1, xs, key) && IsMinimal(m2, ys, key)
    ensures key(m2) <= key(m1)
  {
  }
}
