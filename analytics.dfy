/** The figures the trip page and the dashboard show: spending totals, the
    remaining budget, spending per day and per tag, the most expensive
    activity and day, packing progress and the budget share. */
module Analytics {
  import opened Wrappers
  import opened Models
  import opened Query
  import opened Ordering
  import opened Grouping

  // ---------------------------------------------------------------------
  // Totals

  /** `Sum('cost')` over the activities, with `or 0` for no activities. */
  function TotalCost(acts: seq<Activity>): (r: int)
    ensures acts == [] ==> r == 0
    ensures |acts| == 1 ==> r == acts[0].cost
  {
    if acts == [] then 0 else acts[0].cost + TotalCost(acts[1..])
  }

  /** The cost of the activities dated `d`. */
  function CostOn(acts: seq<Activity>, d: Day): int
  {
    if acts == [] then 0 else (if acts[0].date == d then acts[0].cost else 0) + CostOn(acts[1..], d)
  }

  /** The remaining budget. */
  function Remaining(budget: Cents, acts: seq<Activity>): (r: Cents)
    ensures r + TotalCost(acts) == budget
  {
    budget - TotalCost(acts)
  }

  lemma {:induction false} TotalCostAppend(a: seq<Activity>, b: seq<Activity>)
    ensures TotalCost(a + b) == TotalCost(a) + TotalCost(b)
  {
    if a == [] {
      assert a + b == b;
    } else {
      TotalCostAppend(a[1..], b);
      assert (a + b)[1..] == a[1..] + b;
    }
  }

  /** With no negative cost the total is not negative and no single cost
      exceeds it. */
  lemma {:induction false} TotalCostBounds(acts: seq<Activity>)
    requires forall a :: a in acts ==> a.cost >= 0
    ensures TotalCost(acts) >= 0
    ensures forall a :: a in acts ==> a.cost <= TotalCost(acts)
  {
    if acts != [] {
      TotalCostBounds(acts[1..]);
      forall a | a in acts ensures a.cost <= TotalCost(acts) {
        if a != acts[0] {
          assert a in acts[1..];
        }
      }
    }
  }

  /** The total does not depend on the order of the activities. */
  lemma {:induction false} TotalCostPermutation(a: seq<Activity>, b: seq<Activity>)
    requires multiset(a) == multiset(b)
    ensures TotalCost(a) == TotalCost(b)
  {
    if a != [] {
      var x := a[0];
      assert x in multiset(b);
      var i :| 0 <= i < |b| && b[i] == x;
      var rest := b[..i] + b[i + 1..];
      assert b == b[..i] + [x] + b[i + 1..];
      assert a == [x] + a[1..];
      calc {
        multiset{x} + multiset(a[1..]);
        multiset(a);
        multiset(b);
        multiset(b[..i] + [x] + b[i + 1..]);
        multiset(b[..i]) + multiset{x} + multiset(b[i + 1..]);
        multiset{x} + multiset(rest);
      }
      assert multiset(a[1..]) == (multiset{x} + multiset(a[1..])) - multiset{x};
      assert multiset(rest) == (multiset{x} + multiset(rest)) - multiset{x};
      TotalCostPermutation(a[1..], rest);
      TotalCostAppend(b[..i] + [x], b[i + 1..]);
      TotalCostAppend(b[..i], [x]);
      TotalCostAppend(b[..i], b[i + 1..]);
    }
  }

  // ---------------------------------------------------------------------
  // Spending per day

  /** The rows of `values('date').annotate(total=Sum('cost'))`. */
  function DayRows(acts: seq<Activity>): (rows: seq<Row<Day>>)
    ensures |rows| == |acts|
    ensures forall i :: 0 <= i < |acts| ==> rows[i] == (acts[i].date, acts[i].cost)
  {
    if acts == [] then [] else [(acts[0].date, acts[0].cost)] + DayRows(acts[1..])
  }

  ghost function Dates(acts: seq<Activity>): set<Day>
  {
    set a | a in acts :: a.date
  }

  lemma {:induction false} DayRowsSum(acts: seq<Activity>, d: Day)
    ensures RowSum(DayRows(acts), d) == CostOn(acts, d)
  {
    if acts != [] {
      DayRowsSum(acts[1..], d);
      assert DayRows(acts)[1..] == DayRows(acts[1..]);
    }
  }

  lemma {:induction false} DayRowsTotal(acts: seq<Activity>)
    ensures SumRows(DayRows(acts)) == TotalCost(acts)
  {
    if acts != [] {
      DayRowsTotal(acts[1..]);
      assert DayRows(acts)[1..] == DayRows(acts[1..]);
    }
  }

  lemma DayRowsKeys(acts: seq<Activity>)
    ensures RowKeys(DayRows(acts)) == Dates(acts)
  {
    var rows := DayRows(acts);
    forall d ensures d in RowKeys(rows) <==> d in Dates(acts) {
      if d in RowKeys(rows) {
        var r :| r in rows && r.0 == d;
        var i :| 0 <= i < |rows| && rows[i] == r;
        assert acts[i] in acts;
      }
      if d in Dates(acts) {
        var a :| a in acts && a.date == d;
        var i :| 0 <= i < |acts| && acts[i] == a;
        assert rows[i] in rows;
      }
    }
  }

  predicate DayAscending(a: Bucket<Day>, b: Bucket<Day>) { a.key <= b.key }

  /** `by_day`: one entry per distinct activity date, in ascending date order,
      each holding that date's total cost; together they account for the
      whole spending. */
  function ByDay(acts: seq<Activity>): (r: seq<Bucket<Day>>)
    ensures forall i, j :: 0 <= i < j < |r| ==> r[i].key < r[j].key
    ensures forall i :: 0 <= i < |r| ==> r[i].total == CostOn(acts, r[i].key)
    ensures forall d :: d in Keys(r) <==> exists a :: a in acts && a.date == d
    ensures SumTotals(r) == TotalCost(acts)
  {
    var grouped := Group(DayRows(acts));
    DayRowsTotal(acts);
    DayRowsKeys(acts);
    SortBuckets(grouped, DayAscending);
    SortSorted(grouped, DayAscending);
    var r := Sort(grouped, DayAscending);
    DistinctAscending(r);
    forall i | 0 <= i < |r| ensures r[i].total == CostOn(acts, r[i].key) {
      LookupOwnKey(r, i);
      DayRowsSum(acts, r[i].key);
    }
    r
  }

  lemma {:induction false} DistinctAscending(r: seq<Bucket<Day>>)
    requires DistinctKeys(r) && Sorted(r, DayAscending)
    ensures forall i, j :: 0 <= i < j < |r| ==> r[i].key < r[j].key
  {
    if r != [] {
      DistinctAscending(r[1..]);
      forall j | 0 < j < |r| ensures r[0].key < r[j].key {
        KeyOfIndex(r[1..], j - 1);
      }
    }
  }

  /** Python's `max(by_day, key=total)`: the position of the first entry with
      the largest total. */
  function FirstMax<K>(bs: seq<Bucket<K>>): (i: nat)
    requires bs != []
    ensures i < |bs|
    ensures forall j :: 0 <= j < |bs| ==> bs[j].total <= bs[i].total
    ensures forall j :: 0 <= j < i ==> bs[j].total < bs[i].total
  {
    if |bs| == 1 then 0
    else
      var j := 1 + FirstMax(bs[1..]);
      if bs[j].total > bs[0].total then j else 0
  }

  /** `most_expensive_day`: none without activities, otherwise the first day
      entry with the largest total. */
  function MostExpensiveDay(byDay: seq<Bucket<Day>>): (r: Option<Bucket<Day>>)
    ensures r.None? <==> byDay == []
    ensures r.Some? ==> r.value in byDay && forall b :: b in byDay ==> b.total <= r.value.total
  {
    if byDay == [] then None else Some(byDay[FirstMax(byDay)])
  }

  /** The most expensive day of a trip is a day with activities whose spending
      no other day exceeds, and the earliest such day. */
  lemma MostExpensiveDayIsEarliest(acts: seq<Activity>)
    ensures MostExpensiveDay(ByDay(acts)).None? <==> acts == []
    ensures MostExpensiveDay(ByDay(acts)).Some? ==>
      var best := MostExpensiveDay(ByDay(acts)).value;
      && (exists a :: a in acts && a.date == best.key)
      && best.total == CostOn(acts, best.key)
      && forall a :: a in acts ==>
           CostOn(acts, a.date) < best.total
           || (CostOn(acts, a.date) == best.total && best.key <= a.date)
  {
    var days := ByDay(acts);
    if acts != [] {
      assert acts[0] in acts;
      assert days != [];
      var i := FirstMax(days);
      forall a | a in acts
        ensures CostOn(acts, a.date) < days[i].total
             || (CostOn(acts, a.date) == days[i].total && days[i].key <= a.date)
      {
        var j := IndexOfKey(days, a.date);
        DayAtMostBest(days, i, j);
      }
      KeyOfIndex(days, i);
    }
  }

  /** In ascending date order, the first largest day is beaten by no day
      and comes no later than any day it ties with. */
  lemma DayAtMostBest(days: seq<Bucket<Day>>, i: nat, j: nat)
    requires days != [] && i == FirstMax(days) && j < |days|
    requires forall p, q :: 0 <= p < q < |days| ==> days[p].key < days[q].key
    ensures days[j].total < days[i].total
         || (days[j].total == days[i].total && days[i].key <= days[j].key)
  {
  }

  // ---------------------------------------------------------------------
  // Spending per tag

  /** The number of times `n` occurs in `names`. */
  function Occurrences(names: seq<string>, n: string): nat
  {
    if names == [] then 0 else (if names[0] == n then 1 else 0) + Occurrences(names[1..], n)
  }

  /** What an activity adds to the bucket `k`: its cost once for each of its
      tags named `n` (`k == Some(n)`), or once to the no-tag bucket
      (`k == None`) when it has no tag. */
  function TagContribution(a: Activity, k: Option<string>): int
  {
    match k
    case Some(n) => a.cost * Occurrences(a.tags, n)
    case None => if a.tags == [] then a.cost else 0
  }

  function TagCost(acts: seq<Activity>, k: Option<string>): int
  {
    if acts == [] then 0 else TagContribution(acts[0], k) + TagCost(acts[1..], k)
  }

  /** How many join rows an activity adds to the bucket `k`: one for each of
      its tags named `n` (`k == Some(n)`), or one to the no-tag bucket when it
      has no tag. */
  function TagUseOf(a: Activity, k: Option<string>): nat
  {
    match k
    case Some(n) => Occurrences(a.tags, n)
    case None => if a.tags == [] then 1 else 0
  }

  /** `Count('id')` of the bucket `k`. */
  function TagUses(acts: seq<Activity>, k: Option<string>): nat
  {
    if acts == [] then 0 else TagUseOf(acts[0], k) + TagUses(acts[1..], k)
  }

  /** The buckets the activities fall into. */
  ghost function TagKeys(acts: seq<Activity>): set<Option<string>>
  {
    (set a, n | a in acts && n in a.tags :: Some(n))
    + (if exists a :: a in acts && a.tags == [] then {None} else {})
  }

  /** The rows of the join of activities with their tags: one per linked tag,
      or one with no name for an activity without tags. */
  function TagRowsOf(a: Activity): seq<Row<Option<string>>>
  {
    if a.tags == [] then [(None, a.cost)] else NameRows(a.tags, a.cost)
  }

  function NameRows(names: seq<string>, cost: Cents): (rows: seq<Row<Option<string>>>)
    ensures |rows| == |names|
  {
    if names == [] then [] else [(Some(names[0]), cost)] + NameRows(names[1..], cost)
  }

  function TagRows(acts: seq<Activity>): seq<Row<Option<string>>>
  {
    if acts == [] then [] else TagRowsOf(acts[0]) + TagRows(acts[1..])
  }

  function NameRowsValue(names: seq<string>, cost: Cents, k: Option<string>): int
  {
    match k
    case Some(n) => cost * Occurrences(names, n)
    case None => 0
  }

  lemma {:induction false} NameRowsSum(names: seq<string>, cost: Cents, k: Option<string>)
    ensures RowSum(NameRows(names, cost), k) == NameRowsValue(names, cost, k)
  {
    if names != [] {
      NameRowsSum(names[1..], cost, k);
      assert NameRows(names, cost)[1..] == NameRows(names[1..], cost);
      if k.Some? {
        var b := if names[0] == k.value then 1 else 0;
        assert cost * (b + Occurrences(names[1..], k.value))
            == cost * b + cost * Occurrences(names[1..], k.value);
      }
    }
  }

  lemma {:induction false} NameRowsCount(names: seq<string>, cost: Cents, k: Option<string>)
    ensures RowCount(NameRows(names, cost), k) == if k.Some? then Occurrences(names, k.value) else 0
  {
    if names != [] {
      NameRowsCount(names[1..], cost, k);
      assert NameRows(names, cost)[1..] == NameRows(names[1..], cost);
    }
  }

  lemma NameRowsKeys(names: seq<string>, cost: Cents)
    ensures RowKeys(NameRows(names, cost)) == set n | n in names :: Some(n)
  {
    var rows := NameRows(names, cost);
    if names != [] {
      NameRowsKeys(names[1..], cost);
      assert rows == [(Some(names[0]), cost)] + NameRows(names[1..], cost);
      RowsAppend([(Some(names[0]), cost)], NameRows(names[1..], cost));
      assert names == [names[0]] + names[1..];
    }
  }

  lemma {:induction false} TagRowsSum(acts: seq<Activity>)
    ensures forall k :: RowSum(TagRows(acts), k) == TagCost(acts, k)
    ensures RowKeys(TagRows(acts)) == TagKeys(acts)
  {
    forall k ensures RowSum(TagRows(acts), k) == TagCost(acts, k) {
      TagRowsSumAt(acts, k);
    }
    TagRowsKeys(acts);
  }

  lemma {:induction false} TagRowsSumAt(acts: seq<Activity>, k: Option<string>)
    ensures RowSum(TagRows(acts), k) == TagCost(acts, k)
  {
    if acts != [] {
      var a := acts[0];
      TagRowsSumAt(acts[1..], k);
      RowsAppend(TagRowsOf(a), TagRows(acts[1..]));
      if a.tags != [] {
        NameRowsSum(a.tags, a.cost, k);
      }
    }
  }

  lemma {:induction false} TagRowsCountAt(acts: seq<Activity>, k: Option<string>)
    ensures RowCount(TagRows(acts), k) == TagUses(acts, k)
  {
    if acts != [] {
      var a := acts[0];
      TagRowsCountAt(acts[1..], k);
      RowsAppend(TagRowsOf(a), TagRows(acts[1..]));
      if a.tags != [] {
        NameRowsCount(a.tags, a.cost, k);
      }
    }
  }

  lemma {:induction false} TagRowsKeys(acts: seq<Activity>)
    ensures RowKeys(TagRows(acts)) == TagKeys(acts)
  {
    if acts != [] {
      var a := acts[0];
      TagRowsKeys(acts[1..]);
      RowsAppend(TagRowsOf(a), TagRows(acts[1..]));
      if a.tags != [] {
        NameRowsKeys(a.tags, a.cost);
      }
      assert acts == [a] + acts[1..];
      assert TagKeys(acts) == TagKeys([a]) + TagKeys(acts[1..]);
    }
  }

  /** Buckets with larger totals first. */
  predicate TotalDescending<K>(a: Bucket<K>, b: Bucket<K>) { a.total >= b.total }

  /** `by_tag`: one entry per tag name the trip's activities carry, plus one
      without a name when some activity has no tag, largest total first; an
      activity counts once towards each of its tags. */
  function ByTag(acts: seq<Activity>): (r: seq<Bucket<Option<string>>>)
    ensures forall i, j :: 0 <= i < j < |r| ==> r[i].total >= r[j].total
    ensures DistinctKeys(r)
    ensures forall i :: 0 <= i < |r| ==> r[i].total == TagCost(acts, r[i].key)
    ensures forall i :: 0 <= i < |r| ==> r[i].uses == TagUses(acts, r[i].key)
    ensures Keys(r) == TagKeys(acts)
  {
    var grouped := Group(TagRows(acts));
    TagRowsSum(acts);
    SortBuckets(grouped, TotalDescending);
    SortSorted(grouped, TotalDescending);
    var r := Sort(grouped, TotalDescending);
    forall i | 0 <= i < |r|
      ensures r[i].total == TagCost(acts, r[i].key) && r[i].uses == TagUses(acts, r[i].key)
    {
      LookupOwnKey(r, i);
      TagRowsCountAt(acts, r[i].key);
    }
    r
  }

  /** The no-tag bucket holds exactly the cost of the activities without tags. */
  lemma {:induction false} UntaggedCost(acts: seq<Activity>)
    ensures TagCost(acts, None) == TotalCost(UntaggedActivities(acts))
  {
    if acts != [] {
      UntaggedCost(acts[1..]);
      if acts[0].tags == [] {
        assert UntaggedActivities(acts) == [acts[0]] + UntaggedActivities(acts[1..]);
      }
    }
  }

  function UntaggedActivities(acts: seq<Activity>): seq<Activity>
  {
    if acts == [] then []
    else if acts[0].tags == [] then [acts[0]] + UntaggedActivities(acts[1..])
    else UntaggedActivities(acts[1..])
  }

  /** The label a tag bucket is shown under: its name, or "Без тега" (no tag)
      for a missing or empty name. */
  function TagLabel(k: Option<string>): (shown: string)
    ensures k.Some? && k.value != [] ==> shown == k.value
    ensures k.None? || k.value == [] ==> shown == "Без тега"
  {
    if k.Some? && k.value != [] then k.value else "Без тега"
  }

  // ---------------------------------------------------------------------
  // The most expensive activity

  /** `order_by('-cost', '-date').first()`: an activity with the highest
      cost, the latest such one on a tie. */
  function MostExpensiveActivity(acts: seq<Activity>): (r: Option<Activity>)
    ensures r.None? <==> acts == []
    ensures r.Some? ==> r.value in acts
    ensures r.Some? ==> forall a :: a in acts ==>
      a.cost < r.value.cost || (a.cost == r.value.cost && a.date <= r.value.date)
  {
    if acts == [] then None
    else
      match MostExpensiveActivity(acts[1..])
      case None => Some(acts[0])
      case Some(b) =>
        if acts[0].cost > b.cost || (acts[0].cost == b.cost && acts[0].date >= b.date)
        then Some(acts[0]) else Some(b)
  }

  // ---------------------------------------------------------------------
  // Percentages

  /** `round(n / d)` for the exact quotient: the nearest integer, the even one
      when two are equally near. */
  function RoundHalfEven(n: int, d: int): (r: int)
    requires d > 0
    ensures 2 * (n - r * d) <= d && 2 * (r * d - n) <= d
    ensures (2 * (n - r * d) == d || 2 * (r * d - n) == d) ==> r % 2 == 0
  {
    var q := n / d;
    var m := n % d;
    assert n == q * d + m;
    assert (q + 1) * d == q * d + d;
    if 2 * m < d then q
    else if 2 * m > d then q + 1
    else if q % 2 == 0 then q
    else q + 1
  }

  /** `round(part / whole * 100, 1)` in tenths of a percent. */
  function Percent(part: int, whole: int): (r: int)
    requires whole > 0
    ensures 2 * (1000 * part - r * whole) <= whole && 2 * (r * whole - 1000 * part) <= whole
  {
    RoundHalfEven(part * 1000, whole)
  }

  lemma GapBound(e: int, d: int)
    requires d > 0 && 2 * (e * d) <= d
    ensures e <= 0
  {
  }

  /** Rounding `n / d` never passes a multiple `c * d` that bounds `n`. */
  lemma RoundBelow(n: int, d: int, c: int)
    requires d > 0 && n <= c * d
    ensures RoundHalfEven(n, d) <= c
  {
    var r := RoundHalfEven(n, d);
    assert (r - c) * d == r * d - c * d;
    GapBound(r - c, d);
  }

  lemma RoundAbove(n: int, d: int, c: int)
    requires d > 0 && n >= c * d
    ensures RoundHalfEven(n, d) >= c
  {
    var r := RoundHalfEven(n, d);
    assert (c - r) * d == c * d - r * d;
    GapBound(c - r, d);
  }

  /** A share of a whole lies between 0 and 100 percent; none of it is 0 and
      all of it is 100. */
  lemma PercentBounds(part: int, whole: int)
    requires whole > 0 && 0 <= part <= whole
    ensures 0 <= Percent(part, whole) <= 1000
    ensures part == 0 ==> Percent(part, whole) == 0
    ensures part == whole ==> Percent(part, whole) == 1000
  {
    RoundAbove(part * 1000, whole, 0);
    RoundBelow(part * 1000, whole, 1000);
    if part == 0 {
      RoundBelow(part * 1000, whole, 0);
    }
    if part == whole {
      RoundAbove(part * 1000, whole, 1000);
    }
  }

  /** `packed_pct`: undefined for a trip without packing links, otherwise the
      packed share of its links. */
  function PackedPct(links: seq<TripPackingItem>): (r: Option<int>)
    ensures r.None? <==> links == []
    ensures r.Some? ==> 0 <= r.value <= 1000
    ensures r.Some? && CountWhere(links, LinkPacked) == |links| ==> r.value == 1000
    ensures r.Some? && CountWhere(links, LinkPacked) == 0 ==> r.value == 0
    ensures r.Some? ==> r.value == Percent(CountWhere(links, LinkPacked), |links|)
  {
    if |links| > 0 then
      PercentBounds(CountWhere(links, LinkPacked), |links|);
      Some(Percent(CountWhere(links, LinkPacked), |links|))
    else None
  }

  /** `budget_pct`: defined only for a positive budget, as the spent share. */
  function BudgetPct(budget: Cents, total: Cents): (r: Option<int>)
    ensures r.Some? <==> budget > 0
    ensures r.Some? && 0 <= total <= budget ==> 0 <= r.value <= 1000
    ensures r.Some? ==> r.value == Percent(total, budget)
  {
    if budget > 0 then
      if 0 <= total <= budget then
        PercentBounds(total, budget);
        Some(Percent(total, budget))
      else Some(Percent(total, budget))
    else None
  }

  // ---------------------------------------------------------------------
  // The figures of a trip page

  /** The labels of the tag chart, one per bucket. */
  function TagLabels(byTag: seq<Bucket<Option<string>>>): (labels: seq<string>)
    ensures |labels| == |byTag|
    ensures forall i :: 0 <= i < |byTag| ==> labels[i] == TagLabel(byTag[i].key)
  {
    if byTag == [] then [] else [TagLabel(byTag[0].key)] + TagLabels(byTag[1..])
  }

  /** The spending figures of a trip page; `byDay` and `byTag` also feed
      its charts, whose tag names are `tagLabels`. */
  datatype Spending = Spending(
    totalCost: Cents, remaining: Cents, budgetPct: Option<int>,
    byDay: seq<Bucket<Day>>, byTag: seq<Bucket<Option<string>>>, tagLabels: seq<string>,
    mostExpensiveActivity: Option<Activity>, mostExpensiveDay: Option<Bucket<Day>>)

  /** The spending figures of a trip with the given budget and activities:
      the day and tag breakdowns account for what was spent, and the leaders
      are drawn from them. */
  function SpendingOf(budget: Cents, acts: seq<Activity>): (s: Spending)
    ensures s.totalCost == TotalCost(acts) && s.remaining + s.totalCost == budget
    ensures s.budgetPct == BudgetPct(budget, s.totalCost)
    ensures s.byDay == ByDay(acts) && SumTotals(s.byDay) == s.totalCost
    ensures s.byTag == ByTag(acts) && s.tagLabels == TagLabels(s.byTag)
    ensures s.mostExpensiveActivity == MostExpensiveActivity(acts)
    ensures s.mostExpensiveDay == MostExpensiveDay(s.byDay)
    ensures s.mostExpensiveDay.None? <==> acts == []
  {
    var total := TotalCost(acts);
    var byDay := ByDay(acts);
    var byTag := ByTag(acts);
    MostExpensiveDayIsEarliest(acts);
    Spending(total, Remaining(budget, acts), BudgetPct(budget, total),
             byDay, byTag, TagLabels(byTag),
             MostExpensiveActivity(acts), MostExpensiveDay(byDay))
  }

  /** The packing progress of a trip page. */
  datatype Packing = Packing(packedCount: nat, totalPacking: nat, packedPct: Option<int>)

  function PackingOf(links: seq<TripPackingItem>): (p: Packing)
    ensures p.totalPacking == |links| && p.packedCount <= p.totalPacking
    ensures p.packedCount == CountWhere(links, LinkPacked)
    ensures p.packedPct == PackedPct(links)
  {
    Packing(CountWhere(links, LinkPacked), |links|, PackedPct(links))
  }
}
