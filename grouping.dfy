/** `values(key).annotate(total=Sum(...), uses=Count(...))`: grouping rows by a
    key into one bucket per distinct key, each carrying the sum of the rows'
    values and the number of rows. */
module Grouping {
  import opened Ordering

  /** One row of a grouped query: its key and the value summed. */
  type Row<K> = (K, int)

  datatype Bucket<K> = Bucket(key: K, total: int, uses: nat)

  function RowSum<K(==)>(rows: seq<Row<K>>, k: K): int
  {
    if rows == [] then 0
    else (if rows[0].0 == k then rows[0].1 else 0) + RowSum(rows[1..], k)
  }

  function RowCount<K(==)>(rows: seq<Row<K>>, k: K): nat
  {
    if rows == [] then 0
    else (if rows[0].0 == k then 1 else 0) + RowCount(rows[1..], k)
  }

  function RowKeys<K>(rows: seq<Row<K>>): set<K>
  {
    set r | r in rows :: r.0
  }

  function SumRows<K>(rows: seq<Row<K>>): int
  {
    if rows == [] then 0 else rows[0].1 + SumRows(rows[1..])
  }

  function Keys<K>(bs: seq<Bucket<K>>): set<K>
  {
    if bs == [] then {} else {bs[0].key} + Keys(bs[1..])
  }

  /** No two buckets share a key. */
  predicate DistinctKeys<K(==)>(bs: seq<Bucket<K>>)
  {
    bs == [] || (bs[0].key !in Keys(bs[1..]) && DistinctKeys(bs[1..]))
  }

  /** The total of the first bucket with key `k`, 0 when there is none. */
  function TotalOf<K(==)>(bs: seq<Bucket<K>>, k: K): int
  {
    if bs == [] then 0 else if bs[0].key == k then bs[0].total else TotalOf(bs[1..], k)
  }

  /** The row count of the first bucket with key `k`, 0 when there is none. */
  function UsesOf<K(==)>(bs: seq<Bucket<K>>, k: K): nat
  {
    if bs == [] then 0 else if bs[0].key == k then bs[0].uses else UsesOf(bs[1..], k)
  }

  function SumTotals<K>(bs: seq<Bucket<K>>): int
  {
    if bs == [] then 0 else bs[0].total + SumTotals(bs[1..])
  }

  /** Adds one row (`k`, `v`) to the buckets. */
  function Add<K(==,!new)>(k: K, v: int, bs: seq<Bucket<K>>): (r: seq<Bucket<K>>)
    ensures Keys(r) == Keys(bs) + {k}
    ensures DistinctKeys(bs) ==> DistinctKeys(r)
    ensures forall k' :: TotalOf(r, k') == TotalOf(bs, k') + (if k' == k then v else 0)
    ensures forall k' :: UsesOf(r, k') == UsesOf(bs, k') + (if k' == k then 1 else 0)
    ensures SumTotals(r) == SumTotals(bs) + v
  {
    if bs == [] then [Bucket(k, v, 1)]
    else if bs[0].key == k then
      [bs[0].(total := bs[0].total + v, uses := bs[0].uses + 1)] + bs[1..]
    else
      var rest := Add(k, v, bs[1..]);
      assert ([bs[0]] + rest)[1..] == rest;
      [bs[0]] + rest
  }

  /** GROUP BY: one bucket per distinct key of `rows`, holding the sum and the
      number of that key's rows. */
  function Group<K(==,!new)>(rows: seq<Row<K>>): (r: seq<Bucket<K>>)
    ensures DistinctKeys(r)
    ensures Keys(r) == RowKeys(rows)
    ensures forall k :: TotalOf(r, k) == RowSum(rows, k)
    ensures forall k :: UsesOf(r, k) == RowCount(rows, k)
    ensures SumTotals(r) == SumRows(rows)
  {
    if rows == [] then []
    else
      assert rows == [rows[0]] + rows[1..];
      assert RowKeys(rows) == {rows[0].0} + RowKeys(rows[1..]);
      Add(rows[0].0, rows[0].1, Group(rows[1..]))
  }

  lemma {:induction false} RowsAppend<K>(a: seq<Row<K>>, b: seq<Row<K>>)
    ensures forall k :: RowSum(a + b, k) == RowSum(a, k) + RowSum(b, k)
    ensures forall k :: RowCount(a + b, k) == RowCount(a, k) + RowCount(b, k)
    ensures RowKeys(a + b) == RowKeys(a) + RowKeys(b)
    ensures SumRows(a + b) == SumRows(a) + SumRows(b)
  {
    if a == [] {
      assert a + b == b;
    } else {
      RowsAppend(a[1..], b);
      assert (a + b)[1..] == a[1..] + b;
    }
  }

  /** With distinct keys, the lookup of a bucket's own key finds that bucket. */
  lemma {:induction false} LookupOwnKey<K>(bs: seq<Bucket<K>>, i: nat)
    requires DistinctKeys(bs) && i < |bs|
    ensures TotalOf(bs, bs[i].key) == bs[i].total
    ensures UsesOf(bs, bs[i].key) == bs[i].uses
  {
    if i > 0 {
      KeyOfIndex(bs[1..], i - 1);
      LookupOwnKey(bs[1..], i - 1);
    }
  }

  lemma {:induction false} KeyOfIndex<K>(bs: seq<Bucket<K>>, i: nat)
    requires i < |bs|
    ensures bs[i].key in Keys(bs)
  {
    if i > 0 {
      KeyOfIndex(bs[1..], i - 1);
    }
  }

  /** A key of the buckets is the key of some position. */
  lemma {:induction false} IndexOfKey<K>(bs: seq<Bucket<K>>, k: K) returns (j: nat)
    requires k in Keys(bs)
    ensures j < |bs| && bs[j].key == k
  {
    if bs[0].key == k {
      j := 0;
    } else {
      j := IndexOfKey(bs[1..], k);
      j := j + 1;
    }
  }

  lemma {:induction false} InsertBucket<K(!new)>(x: Bucket<K>, s: seq<Bucket<K>>, le: (Bucket<K>, Bucket<K>) -> bool)
    requires DistinctKeys(s) && x.key !in Keys(s)
    ensures DistinctKeys(Insert(x, s, le))
    ensures Keys(Insert(x, s, le)) == Keys(s) + {x.key}
    ensures forall k :: TotalOf(Insert(x, s, le), k) == (if k == x.key then x.total else TotalOf(s, k))
    ensures forall k :: UsesOf(Insert(x, s, le), k) == (if k == x.key then x.uses else UsesOf(s, k))
    ensures SumTotals(Insert(x, s, le)) == SumTotals(s) + x.total
  {
    var r := Insert(x, s, le);
    if s == [] || le(x, s[0]) {
      assert r[1..] == s;
    } else {
      InsertBucket(x, s[1..], le);
      assert r[1..] == Insert(x, s[1..], le);
    }
  }

  /** Ordering the buckets keeps them distinct and keeps every key's total and
      count. */
  lemma {:induction false} SortBuckets<K(!new)>(bs: seq<Bucket<K>>, le: (Bucket<K>, Bucket<K>) -> bool)
    requires DistinctKeys(bs)
    ensures DistinctKeys(Sort(bs, le))
    ensures Keys(Sort(bs, le)) == Keys(bs)
    ensures forall k :: TotalOf(Sort(bs, le), k) == TotalOf(bs, k)
    ensures forall k :: UsesOf(Sort(bs, le), k) == UsesOf(bs, k)
    ensures SumTotals(Sort(bs, le)) == SumTotals(bs)
  {
    if bs != [] {
      var tail := bs[1..];
      var sorted := Sort(tail, le);
      SortBuckets(tail, le);
      InsertBucket(bs[0], sorted, le);
      SortStep(bs, le);
    }
  }
}
