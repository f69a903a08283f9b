/** The price normalisation shared by the home page, the spending trend and the platform
    breakdown: a yearly price counts as one twelfth per month, a monthly price as twelve
    payments per year. */
module Costs {
  import opened Types

  /** `billingCycle === 'yearly' ? price / 12 : price` */
  function MonthlyEquivalent(s: Subscription): (r: real)
    ensures 0.0 <= s.price ==> 0.0 <= r <= s.price
  {
    if s.billingCycle == Yearly then s.price / 12.0 else s.price
  }

  /** What one subscription contributes to the annual total. */
  function AnnualEquivalent(s: Subscription): (r: real)
    ensures 0.0 <= s.price ==> s.price <= r
  {
    if s.billingCycle == Monthly then s.price * 12.0 else s.price
  }

  /** Sum of the monthly equivalents, accumulated front to back. */
  function MonthlySum(subs: seq<Subscription>): real
  {
    if subs == [] then 0.0 else MonthlySum(subs[..|subs| - 1]) + MonthlyEquivalent(subs[|subs| - 1])
  }

  /** Sum of the annual contributions, accumulated front to back. */
  function YearlySum(subs: seq<Subscription>): real
  {
    if subs == [] then 0.0 else YearlySum(subs[..|subs| - 1]) + AnnualEquivalent(subs[|subs| - 1])
  }

  /** Per subscription, the annual figure is twelve monthly ones. */
  lemma AnnualIsTwelveMonthly(s: Subscription)
    ensures AnnualEquivalent(s) == 12.0 * MonthlyEquivalent(s)
  {
  }

  predicate PricesNonNegative(subs: seq<Subscription>)
  {
    forall i :: 0 <= i < |subs| ==> subs[i].price >= 0.0
  }

  /** Both per-item branches agree in exact arithmetic: the annual total is twelve times the
      monthly total. */
  lemma {:induction false} YearlyIsTwelveMonthly(subs: seq<Subscription>)
    ensures YearlySum(subs) == 12.0 * MonthlySum(subs)
  {
    if subs != [] {
      YearlyIsTwelveMonthly(subs[..|subs| - 1]);
    }
  }

  lemma {:induction false} SumsNonNegative(subs: seq<Subscription>)
    requires PricesNonNegative(subs)
    ensures MonthlySum(subs) >= 0.0 && YearlySum(subs) >= 0.0
  {
    if subs != [] {
      SumsNonNegative(subs[..|subs| - 1]);
    }
  }

  lemma EmptySums()
    ensures MonthlySum([]) == 0.0 && YearlySum([]) == 0.0
  {
  }

  lemma {:induction false} MonthlySumConcat(a: seq<Subscription>, b: seq<Subscription>)
    ensures MonthlySum(a + b) == MonthlySum(a) + MonthlySum(b)
  {
    if b != [] {
      assert (a + b)[..|a + b| - 1] == a + b[..|b| - 1];
      MonthlySumConcat(a, b[..|b| - 1]);
    } else {
      assert a + b == a;
    }
  }

  /** Two lists that agree on every price and billing cycle have the same monthly total,
      whatever their renewal dates (or any other field) are. */
  lemma {:induction false} MonthlySumIgnoresOtherFields(a: seq<Subscription>, b: seq<Subscription>)
    requires |a| == |b|
    requires forall i :: 0 <= i < |a| ==> a[i].price == b[i].price && a[i].billingCycle == b[i].billingCycle
    ensures MonthlySum(a) == MonthlySum(b)
  {
    if a != [] {
      MonthlySumIgnoresOtherFields(a[..|a| - 1], b[..|b| - 1]);
    }
  }
}
