/** The 12-month spending trend: one bucket per calendar month from eleven months before
    the current month up to the current month, each holding the estimated monthly spend. */
module SpendingChart {
  import opened Types
  import opened Costs

  type Month = m: int | 0 <= m < 12

  /** A calendar month; `month` is 0 for January, as `getMonth` counts. */
  datatype YearMonth = YearMonth(year: int, month: Month)

  /** Months since year 0, so that consecutive calendar months are consecutive numbers. */
  function MonthNumber(ym: YearMonth): int
  {
    ym.year * 12 + ym.month
  }

  /** The calendar month of `subMonths(date, k)`: the day is clamped to the target month's
      length, so only the month moves. */
  function SubMonths(ym: YearMonth, k: int): (r: YearMonth)
    ensures MonthNumber(r) == MonthNumber(ym) - k
  {
    var n := MonthNumber(ym) - k;
    YearMonth(n / 12, n % 12)
  }

  /** The month bucket `i` is labelled with: `subMonths(now, 11 - i)`. */
  function BucketMonth(now: YearMonth, i: int): (r: YearMonth)
    ensures MonthNumber(r) == MonthNumber(now) - 11 + i
  {
    SubMonths(now, 11 - i)
  }

  /** One bar of the chart: the month it is labelled with and its total. */
  datatype Bucket = Bucket(month: YearMonth, total: real)

  /** Builds the 12 buckets with total 0, then adds each subscription's monthly equivalent
      to every bucket. The renewal month the source reads is never used. */
  method TrendSeries(subs: seq<Subscription>, now: YearMonth) returns (series: seq<Bucket>)
    ensures |series| == 12
    ensures forall i :: 0 <= i < 12 ==> series[i].month == BucketMonth(now, i)
    ensures forall i :: 0 <= i < 12 ==> series[i].total == MonthlySum(subs)
  {
    var buckets := new Bucket[12](i => Bucket(BucketMonth(now, i), 0.0));
    var k := 0;
    while k < |subs|
      invariant 0 <= k <= |subs|
      invariant forall j :: 0 <= j < 12 ==> buckets[j].month == BucketMonth(now, j)
      invariant forall j :: 0 <= j < 12 ==> buckets[j].total == MonthlySum(subs[..k])
    {
      var sub := subs[k];
      var monthlyPrice := if sub.billingCycle == Yearly then sub.price / 12.0 else sub.price;
      assert subs[..k + 1][..k] == subs[..k];
      for i := 0 to 12
        invariant forall j :: 0 <= j < 12 ==> buckets[j].month == BucketMonth(now, j)
        invariant forall j :: 0 <= j < i ==> buckets[j].total == MonthlySum(subs[..k + 1])
        invariant forall j :: i <= j < 12 ==> buckets[j].total == MonthlySum(subs[..k])
      {
        buckets[i] := buckets[i].(total := buckets[i].total + monthlyPrice);
      }
      k := k + 1;
    }
    assert subs[..k] == subs;
    series := buckets[..];
  }

  /** The last bucket is the current month and each bucket is the month after the one
      before it, so the twelve labels are twelve distinct consecutive months. */
  lemma WindowMonths(now: YearMonth)
    ensures BucketMonth(now, 11) == now
    ensures forall i :: 0 <= i < 11 ==> MonthNumber(BucketMonth(now, i + 1)) == MonthNumber(BucketMonth(now, i)) + 1
    ensures forall i, j :: 0 <= i < j < 12 ==> BucketMonth(now, i) != BucketMonth(now, j)
  {
    forall i, j | 0 <= i < j < 12 ensures BucketMonth(now, i) != BucketMonth(now, j) {
      assert MonthNumber(BucketMonth(now, i)) < MonthNumber(BucketMonth(now, j));
    }
  }
}
