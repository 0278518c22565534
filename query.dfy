/** The row selections the views and the delete rules perform on a table:
    `filter(field=value)`, `exclude(field=value)`, `get(pk=...)`, `count()`
    and slicing. A field is given as a function from a row to its value. */
module Query {
  import opened Wrappers

  /** `filter(field=k)`: the rows whose field equals `k`, in table order. */
  function Select<T(!new), K(==)>(s: seq<T>, field: T -> K, k: K): (r: seq<T>)
    ensures |r| <= |s|
    ensures forall x :: x in r <==> x in s && field(x) == k
  {
    if s == [] then []
    else if field(s[0]) == k then [s[0]] + Select(s[1..], field, k)
    else Select(s[1..], field, k)
  }

  /** `exclude(field=k)`: the rows whose field differs from `k`, in table order. */
  function Exclude<T(!new), K(==)>(s: seq<T>, field: T -> K, k: K): (r: seq<T>)
    ensures |r| <= |s|
    ensures forall x :: x in r <==> x in s && field(x) != k
  {
    if s == [] then []
    else if field(s[0]) != k then [s[0]] + Exclude(s[1..], field, k)
    else Exclude(s[1..], field, k)
  }

  /** The position of the first row whose field equals `k`. */
  function Find<T, K(==)>(s: seq<T>, field: T -> K, k: K): (r: Option<nat>)
    ensures r.Some? ==> r.value < |s| && field(s[r.value]) == k
    ensures r.Some? ==> forall j :: 0 <= j < r.value ==> field(s[j]) != k
    ensures r.None? <==> forall x :: x in s ==> field(x) != k
  {
    if s == [] then None
    else if field(s[0]) == k then Some(0)
    else match Find(s[1..], field, k)
      case None => None
      case Some(j) => Some(j + 1)
  }

  /** `filter(flag=True).count()` */
  function CountWhere<T>(s: seq<T>, flag: T -> bool): (n: nat)
    ensures n <= |s|
    ensures n == 0 <==> forall x :: x in s ==> !flag(x)
  {
    if s == [] then 0 else (if flag(s[0]) then 1 else 0) + CountWhere(s[1..], flag)
  }

  /** A flag and its negation split the rows between them. */
  lemma {:induction false} CountWhereComplement<T>(s: seq<T>, flag: T -> bool, other: T -> bool)
    requires forall x :: other(x) == !flag(x)
    ensures CountWhere(s, flag) + CountWhere(s, other) == |s|
  {
    if s != [] {
      CountWhereComplement(s[1..], flag, other);
    }
  }

  /** Changing one row without moving it to another selection keeps the
      selection's size, and changes its flagged count only by that row. */
  lemma {:induction false} SelectUpdate<T(!new), K>(s: seq<T>, field: T -> K, k: K, flag: T -> bool, i: nat, x: T)
    requires i < |s| && field(x) == field(s[i])
    ensures |Select(s[i := x], field, k)| == |Select(s, field, k)|
    ensures CountWhere(Select(s[i := x], field, k), flag)
            + (if field(s[i]) == k && flag(s[i]) then 1 else 0)
         == CountWhere(Select(s, field, k), flag)
            + (if field(x) == k && flag(x) then 1 else 0)
  {
    var u := s[i := x];
    if i == 0 {
      assert u[1..] == s[1..];
    } else {
      assert u[1..] == s[1..][i - 1 := x];
      assert u[0] == s[0];
      SelectUpdate(s[1..], field, k, flag, i - 1, x);
    }
  }

  /** Filtering by `p` and then by `q` is filtering once by both. */
  lemma {:induction false} SelectSelect<T(!new)>(s: seq<T>, p: T -> bool, q: T -> bool, both: T -> bool)
    requires forall x :: both(x) == (p(x) && q(x))
    ensures Select(Select(s, p, true), q, true) == Select(s, both, true)
  {
    if s != [] {
      SelectSelect(s[1..], p, q, both);
      var rest := Select(s[1..], p, true);
      if p(s[0]) {
        assert Select(s, p, true) == [s[0]] + rest;
        assert ([s[0]] + rest)[1..] == rest;
      }
    }
  }

  /** Filters that agree on every row select the same rows. */
  lemma {:induction false} SelectPointwise<T(!new)>(s: seq<T>, p: T -> bool, q: T -> bool)
    requires forall x :: p(x) == q(x)
    ensures Select(s, p, true) == Select(s, q, true)
  {
    if s != [] {
      SelectPointwise(s[1..], p, q);
    }
  }

  /** `filter` keeps every copy of a row it selects. */
  lemma {:induction false} SelectCount<T(!new), K>(s: seq<T>, field: T -> K, k: K, x: T)
    requires field(x) == k
    ensures multiset(Select(s, field, k))[x] == multiset(s)[x]
  {
    if s != [] {
      SelectCount(s[1..], field, k, x);
      assert s == [s[0]] + s[1..];
    }
  }

  /** Every two rows of `s` stand in the relation `ok` (a uniqueness
      constraint when `ok` says that two rows differ in a key). */
  ghost predicate Pairwise<T(!new)>(s: seq<T>, ok: (T, T) -> bool)
  {
    s == [] || ((forall y :: y in s[1..] ==> ok(s[0], y)) && Pairwise(s[1..], ok))
  }

  lemma {:induction false} PairwiseAt<T(!new)>(s: seq<T>, ok: (T, T) -> bool, i: nat, j: nat)
    requires Pairwise(s, ok) && i < j < |s|
    ensures ok(s[i], s[j])
  {
    if i == 0 {
      assert s[j] in s[1..];
    } else {
      PairwiseAt(s[1..], ok, i - 1, j - 1);
    }
  }

  /** Under a constraint no row stands in with itself, a row occurs at most
      once. */
  lemma {:induction false} PairwiseOnce<T(!new)>(s: seq<T>, ok: (T, T) -> bool, x: T)
    requires Pairwise(s, ok) && !ok(x, x)
    ensures multiset(s)[x] <= 1
  {
    if s != [] {
      PairwiseOnce(s[1..], ok, x);
      assert s == [s[0]] + s[1..];
      if s[0] == x {
        assert x !in s[1..];
      }
    }
  }

  /** A row found at two positions occurs at least twice. */
  lemma RepeatCounts<T>(s: seq<T>, i: nat, j: nat)
    requires i < j < |s|
    ensures multiset(s)[s[i]] >= if s[i] == s[j] then 2 else 1
  {
    assert s == s[..j] + s[j..];
    assert s[i] in s[..j];
    assert s[j..][0] == s[j];
  }

  /** Removing rows keeps a uniqueness constraint. */
  lemma {:induction false} PairwiseExclude<T(!new), K>(s: seq<T>, ok: (T, T) -> bool, field: T -> K, k: K)
    requires Pairwise(s, ok)
    ensures Pairwise(Exclude(s, field, k), ok)
  {
    if s != [] {
      PairwiseExclude(s[1..], ok, field, k);
    }
  }

  /** Selecting rows keeps a uniqueness constraint. */
  lemma {:induction false} PairwiseSelect<T(!new), K>(s: seq<T>, ok: (T, T) -> bool, field: T -> K, k: K)
    requires Pairwise(s, ok)
    ensures Pairwise(Select(s, field, k), ok)
  {
    if s != [] {
      PairwiseSelect(s[1..], ok, field, k);
    }
  }

  /** Replacing a row by one that the constraint treats alike keeps the
      constraint. */
  lemma {:induction false} PairwiseReplace<T(!new)>(s: seq<T>, ok: (T, T) -> bool, i: nat, x: T)
    requires Pairwise(s, ok) && i < |s|
    requires forall y :: ok(x, y) == ok(s[i], y) && ok(y, x) == ok(y, s[i])
    ensures Pairwise(s[i := x], ok)
  {
    var r := s[i := x];
    if i == 0 {
      assert r[1..] == s[1..];
    } else {
      PairwiseReplace(s[1..], ok, i - 1, x);
      assert r[1..] == s[1..][i - 1 := x];
      forall y | y in r[1..] ensures ok(r[0], y) {
        if y != x { assert y in s[1..]; }
      }
    }
  }

  /** The first `n` rows (`qs[:n]`). */
  function Take<T>(s: seq<T>, n: nat): (r: seq<T>)
    ensures |r| == if |s| < n then |s| else n
    ensures forall i :: 0 <= i < |r| ==> r[i] == s[i]
  {
    if |s| <= n then s else s[..n]
  }

  /** The first `n` rows of an ordered sequence rank no lower than the rows
      left out. */
  lemma TakeLeads<T>(s: seq<T>, n: nat, le: (T, T) -> bool)
    requires forall i, j :: 0 <= i < j < |s| ==> le(s[i], s[j])
    ensures forall i, j :: 0 <= i < |Take(s, n)| <= j < |s| ==> le(Take(s, n)[i], s[j])
  {
  }
}
