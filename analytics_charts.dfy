/** The web fallback charts (components/analytics/AnalyticsCharts.web.tsx): the category list
    sorted by amount with its percentage labels, and the daily bars scaled to the largest day.
    Amounts are finite reals; `toFixed(2)` is a parameter. */
module AnalyticsCharts {
  import opened Js

  datatype CategoryDatum = CategoryDatum(name: string, value: real, color: string)

  /** `[label, value]` */
  datatype DailyDatum = DailyDatum(day: string, value: real)

  /** `formatCurrency`: a non-finite amount is shown as zero. */
  function FormatCurrency(amount: Number, toFixed2: real -> string): (r: string)
    ensures |r| >= 1 && r[0] == '$'
    ensures amount.Finite? ==> r == "$" + toFixed2(amount.value)
  {
    var safeAmount := if amount.Finite? then amount.value else 0.0;
    "$" + toFixed2(safeAmount)
  }

  lemma NonFiniteFormatsAsZero(amount: Number, toFixed2: real -> string)
    requires !amount.Finite?
    ensures FormatCurrency(amount, toFixed2) == FormatCurrency(Finite(0.0), toFixed2)
  {
  }

  // ---------------------------------------------------------------------------------------
  // CategoryChart

  predicate NonIncreasing(s: seq<CategoryDatum>) {
    forall i, j :: 0 <= i < j < |s| ==> s[i].value >= s[j].value
  }

  /** `x` placed before the first entry whose value is at most its own. */
  function Insert(x: CategoryDatum, s: seq<CategoryDatum>): (r: seq<CategoryDatum>)
    ensures |r| == |s| + 1
    ensures r[0] == x || (s != [] && r[0] == s[0])
  {
    if s == [] then [x]
    else if s[0].value <= x.value then [x] + s
    else [s[0]] + Insert(x, s[1..])
  }

  lemma {:induction false} InsertPermutes(x: CategoryDatum, s: seq<CategoryDatum>)
    ensures multiset(Insert(x, s)) == multiset(s) + multiset{x}
  {
    if s != [] && s[0].value > x.value {
      InsertPermutes(x, s[1..]);
      assert s == [s[0]] + s[1..];
    }
  }

  lemma {:induction false} InsertKeepsOrder(x: CategoryDatum, s: seq<CategoryDatum>)
    requires NonIncreasing(s)
    ensures NonIncreasing(Insert(x, s))
  {
    if s != [] && s[0].value > x.value {
      var rest := Insert(x, s[1..]);
      InsertKeepsOrder(x, s[1..]);
      var r := [s[0]] + rest;
      assert rest[0].value <= s[0].value by {
        if rest[0] != x {
          assert rest[0] == s[1];
        }
      }
      forall i, j | 0 <= i < j < |r|
        ensures r[i].value >= r[j].value
      {
        if i == 0 && j > 1 {
          assert rest[0].value >= rest[j - 1].value;
        }
      }
    }
  }

  /** `data.slice().sort((a, b) => b.value - a.value)`: a stable sort into non-increasing
      value order, returning a new sequence. */
  function SortedByValue(s: seq<CategoryDatum>): (r: seq<CategoryDatum>)
    ensures |r| == |s|
    ensures multiset(r) == multiset(s)
    ensures NonIncreasing(r)
  {
    if s == [] then []
    else
      var rest := SortedByValue(s[1..]);
      InsertPermutes(s[0], rest);
      InsertKeepsOrder(s[0], rest);
      assert s == [s[0]] + s[1..];
      Insert(s[0], rest)
  }

  /** The entries carrying value `v`, in order. */
  function WithValue(s: seq<CategoryDatum>, v: real): seq<CategoryDatum> {
    if s == [] then []
    else (if s[0].value == v then [s[0]] else []) + WithValue(s[1..], v)
  }

  lemma {:induction false} WithValueInsert(x: CategoryDatum, s: seq<CategoryDatum>, v: real)
    ensures WithValue(Insert(x, s), v) == (if x.value == v then [x] else []) + WithValue(s, v)
  {
    if s != [] && s[0].value > x.value {
      WithValueInsert(x, s[1..], v);
      var rest := Insert(x, s[1..]);
      assert ([s[0]] + rest)[1..] == rest;
    } else if s != [] {
      assert ([x] + s)[1..] == s;
    }
  }

  /** The sort is stable: entries of equal value keep their input order. */
  lemma {:induction false} SortIsStable(s: seq<CategoryDatum>, v: real)
    ensures WithValue(SortedByValue(s), v) == WithValue(s, v)
  {
    if s != [] {
      SortIsStable(s[1..], v);
      WithValueInsert(s[0], SortedByValue(s[1..]), v);
    }
  }

  /** `reduce((sum, item) => sum + item.value, 0)` */
  function Total(s: seq<CategoryDatum>): real {
    if s == [] then 0.0 else s[0].value + Total(s[1..])
  }

  lemma {:induction false} TotalInsert(x: CategoryDatum, s: seq<CategoryDatum>)
    ensures Total(Insert(x, s)) == x.value + Total(s)
  {
    if s != [] && s[0].value > x.value {
      TotalInsert(x, s[1..]);
      assert ([s[0]] + Insert(x, s[1..]))[1..] == Insert(x, s[1..]);
    } else if s != [] {
      assert ([x] + s)[1..] == s;
    }
  }

  /** Sorting first does not change the total. */
  lemma {:induction false} TotalOfSorted(s: seq<CategoryDatum>)
    ensures Total(SortedByValue(s)) == Total(s)
  {
    if s != [] {
      TotalOfSorted(s[1..]);
      TotalInsert(s[0], SortedByValue(s[1..]));
    }
  }

  lemma {:induction false} NonNegativeBelowTotal(s: seq<CategoryDatum>, i: nat)
    requires forall k :: 0 <= k < |s| ==> s[k].value >= 0.0
    requires i < |s|
    ensures 0.0 <= s[i].value <= Total(s)
    ensures Total(s) >= 0.0
  {
    if i > 0 {
      NonNegativeBelowTotal(s[1..], i - 1);
    } else if |s| > 1 {
      NonNegativeBelowTotal(s[1..], 0);
    }
  }

  /** `Math.round`: halves go up. */
  function Round(x: real): (n: int)
    ensures x - 0.5 < n as real <= x + 0.5
  {
    (x + 0.5).Floor
  }

  /** The number in the percent column: the rounded share of the total, or 0 when the total
      is not positive. */
  function PercentLabel(value: real, total: real): (r: int)
    ensures total <= 0.0 ==> r == 0
    ensures total > 0.0 ==> value / total * 100.0 - 0.5 < r as real <= value / total * 100.0 + 0.5
  {
    if total > 0.0 then Round(value / total * 100.0) else 0
  }

  /** With non-negative amounts, every row's percentage lies between 0 and 100. */
  lemma PercentLabelsBounded(data: seq<CategoryDatum>, i: nat)
    requires forall k :: 0 <= k < |data| ==> data[k].value >= 0.0
    requires i < |data|
    ensures var sorted := SortedByValue(data);
      0 <= PercentLabel(sorted[i].value, Total(sorted)) <= 100
  {
    var sorted := SortedByValue(data);
    forall k | 0 <= k < |sorted|
      ensures sorted[k].value >= 0.0
    {
      assert sorted[k] in multiset(sorted);
      var j :| 0 <= j < |data| && data[j] == sorted[k];
    }
    NonNegativeBelowTotal(sorted, i);
    ShareBounded(sorted[i].value, Total(sorted));
  }

  lemma ShareBounded(v: real, total: real)
    requires 0.0 <= v <= total
    ensures 0 <= PercentLabel(v, total) <= 100
  {
    if total > 0.0 {
      assert v / total * total == v;
      assert 0.0 <= v / total <= 1.0;
      assert 0.0 <= v / total * 100.0 <= 100.0;
    }
  }

  /** The unrounded shares of a positive total add up to 100. */
  function ShareSum(s: seq<CategoryDatum>, total: real): real
    requires total > 0.0
  {
    if s == [] then 0.0 else s[0].value / total * 100.0 + ShareSum(s[1..], total)
  }

  lemma {:induction false} ShareSumIsScaledTotal(s: seq<CategoryDatum>, total: real)
    requires total > 0.0
    ensures ShareSum(s, total) == Total(s) / total * 100.0
  {
    if s != [] {
      ShareSumIsScaledTotal(s[1..], total);
      assert s[0].value / total * 100.0 + Total(s[1..]) / total * 100.0
          == (s[0].value + Total(s[1..])) / total * 100.0;
    }
  }

  lemma SharesAddToHundred(data: seq<CategoryDatum>)
    requires Total(data) > 0.0
    ensures Total(SortedByValue(data)) == Total(data)
    ensures ShareSum(SortedByValue(data), Total(data)) == 100.0
  {
    TotalOfSorted(data);
    ShareSumIsScaledTotal(SortedByValue(data), Total(data));
    assert Total(data) / Total(data) == 1.0;
  }

  // ---------------------------------------------------------------------------------------
  // DailyChart

  /** `Math.max(0, ...data.map(item => item[1]))` */
  function DailyMax(data: seq<DailyDatum>): (m: real)
    ensures m >= 0.0
    ensures forall i :: 0 <= i < |data| ==> data[i].value <= m
    ensures m == 0.0 || exists i :: 0 <= i < |data| && data[i].value == m
  {
    if data == [] then 0.0
    else
      var rest := DailyMax(data[1..]);
      assert forall i :: 1 <= i < |data| ==> data[i] == data[1..][i - 1];
      MaxReal(data[0].value, rest)
  }

  /** `max > 0 ? Math.max(0, Math.min(100, (amount / max) * 100)) : 0` */
  function BarPct(amount: real, max: real): (pct: real)
    ensures 0.0 <= pct <= 100.0
    ensures max <= 0.0 ==> pct == 0.0
  {
    if max > 0.0 then MaxReal(0.0, MinReal(100.0, amount / max * 100.0)) else 0.0
  }

  /** An amount between zero and the maximum needs no clamping. */
  lemma BarPctIsShare(amount: real, max: real)
    requires max > 0.0 && 0.0 <= amount <= max
    ensures BarPct(amount, max) == amount / max * 100.0
  {
    assert amount / max * max == amount;
    assert amount / max <= 1.0;
  }

  datatype Bar = Bar(day: string, pct: real, amount: real)

  /** The rows of the daily chart, one per input entry, in input order. */
  function DailyBars(data: seq<DailyDatum>): (bars: seq<Bar>)
    ensures |bars| == |data|
    ensures forall i :: 0 <= i < |data| ==>
      bars[i].day == data[i].day && bars[i].amount == data[i].value
      && bars[i].pct == BarPct(data[i].value, DailyMax(data)) && 0.0 <= bars[i].pct <= 100.0
  {
    var max := DailyMax(data);
    seq(|data|, i requires 0 <= i < |data| => Bar(data[i].day, BarPct(data[i].value, max), data[i].value))
  }

  /** A largest day with positive spending fills its bar. */
  lemma LargestDayFillsBar(data: seq<DailyDatum>, i: nat)
    requires i < |data| && DailyMax(data) > 0.0 && data[i].value == DailyMax(data)
    ensures DailyBars(data)[i].pct == 100.0
  {
    FullShare(DailyMax(data));
  }

  lemma FullShare(max: real)
    requires max > 0.0
    ensures BarPct(max, max) == 100.0
  {
    assert max / max == 1.0;
  }
}
