/** Worked cases of the derived metrics: the totals of a monthly and a yearly plan, the
    trend of a single plan, the breakdown of two plans on one platform, and the empty
    dashboard. */
module Scenarios {
  import opened Lists
  import opened Types
  import opened Costs
  import opened SpendingChart
  import opened PlatformBreakdown
  import opened SubscriptionStore
  import opened HomePage
  import opened AddSubscriptionDialog

  const A := Subscription("a", "netflix", "Standard", 15.99, Monthly, 0, 0)
  const B := Subscription("b", "spotify", "Family", 120.00, Yearly, 0, 0)

  /** 15.99 + 120/12 a month, 15.99 * 12 + 120 a year. */
  lemma TotalsOfMonthlyAndYearly()
    ensures MonthlySum([A, B]) == 25.99
    ensures YearlySum([A, B]) == 311.88
  {
    assert [A, B][..1] == [A];
    assert [A][..0] == [];
    assert MonthlySum([A]) == 15.99;
    assert YearlySum([A]) == 15.99 * 12.0;
  }

  /** A single 10-a-month plan puts 10 into each of the twelve buckets. */
  method TrendOfOneMonthlyPlan(now: YearMonth) returns (series: seq<Bucket>)
    ensures |series| == 12
    ensures forall i :: 0 <= i < 12 ==> series[i].total == 10.0
    ensures series[11].month == now
  {
    var plan := Subscription("c", "netflix", "Basic", 10.0, Monthly, 0, 0);
    series := TrendSeries([plan], now);
    assert MonthlySum([plan]) == 10.0;
  }

  /** Two plans on one platform, 10 a month and 24 a year, make a single slice worth 12. */
  lemma BreakdownOfOnePlatform()
    ensures
      var platforms := [Platform("netflix", "Netflix", "netflix.svg")];
      var subs := [Subscription("c", "netflix", "Basic", 10.0, Monthly, 0, 0),
                   Subscription("d", "netflix", "Premium", 24.0, Yearly, 0, 0)];
      Breakdown(platforms, subs) == [Slice("Netflix", 12.0)]
  {
    var platforms := [Platform("netflix", "Netflix", "netflix.svg")];
    var c := Subscription("c", "netflix", "Basic", 10.0, Monthly, 0, 0);
    var d := Subscription("d", "netflix", "Premium", 24.0, Yearly, 0, 0);
    var subs := [c, d];
    PlatformTitleSpec(platforms, "netflix");
    assert Title(platforms, c) == "Netflix" && Title(platforms, d) == "Netflix";
    assert subs[..1] == [c];
    assert Titles(platforms, subs) == ["Netflix", "Netflix"];
    assert ["Netflix", "Netflix"][..1] == ["Netflix"];
    assert FirstEncounter(["Netflix", "Netflix"]) == ["Netflix"];
    assert !IsArrayIndex("Netflix");
    KeyOrderNoIndexes(["Netflix"]);
    assert [c][..0] == [];
    assert CostFor(platforms, [c], "Netflix") == 10.0;
    assert CostFor(platforms, subs, "Netflix") == 12.0;
  }

  /** No subscriptions: zero totals, an empty breakdown, twelve empty buckets. */
  method EmptyDashboard(platforms: seq<Platform>, now: YearMonth)
    returns (monthly: real, yearly: real, series: seq<Bucket>, chart: seq<Slice>)
    ensures monthly == 0.0 && yearly == 0.0
    ensures chart == []
    ensures |series| == 12 && forall i :: 0 <= i < 12 ==> series[i].total == 0.0
  {
    monthly, yearly := Totals([]);
    series := TrendSeries([], now);
    chart := PlatformCosts(platforms, []);
    BreakdownEmpty(platforms);
  }

  /** Editing a plan, saving, and reopening the same card's dialog: the re-render hands the
      dialog the updated record, so saving the reopened form untouched keeps the edit. */
  method ReopenAfterEdit(store: Store, s: Subscription, loadTime: int, now: int)
    requires store.subscriptions == [s]
    requires |s.platformName| >= 1 && s.price >= 0.0
    modifies store
    ensures store.subscriptions == [s.(planName := "Premium")]
  {
    var dialog := new Dialog(store, Some(s), loadTime);
    dialog.Open();
    dialog.SetFields(s.platformName, "Premium", CycleName(s.billingCycle), s.renewalDate);
    var saved := dialog.HandleSubmit("unused", now);
    assert saved;
    dialog.Rerender(Some(store.subscriptions[0]));
    dialog.Open();
    saved := dialog.HandleSubmit("unused", now);
    assert saved;
  }
}
