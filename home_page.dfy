/** The figures the home page derives from the store: the monthly and annual cost totals,
    the list ordered by renewal date, the number of subscriptions and the currency whose
    symbol labels the totals. */
module HomePage {
  import opened Lists
  import opened Types
  import opened Costs
  import opened Sorting
  import opened SubscriptionStore

  /** The `forEach` over the subscriptions that accumulates both totals with a per-item
      branch on the billing cycle. */
  method Totals(subs: seq<Subscription>) returns (monthly: real, yearly: real)
    ensures monthly == MonthlySum(subs)
    ensures yearly == YearlySum(subs)
  {
    monthly, yearly := 0.0, 0.0;
    var i := 0;
    while i < |subs|
      invariant 0 <= i <= |subs|
      invariant monthly == MonthlySum(subs[..i])
      invariant yearly == YearlySum(subs[..i])
    {
      var sub := subs[i];
      if sub.billingCycle == Monthly {
        monthly := monthly + sub.price;
        yearly := yearly + sub.price * 12.0;
      } else {
        yearly := yearly + sub.price;
        monthly := monthly + sub.price / 12.0;
      }
      assert subs[..i + 1][..i] == subs[..i];
      i := i + 1;
    }
    assert subs[..i] == subs;
  }

  /** `renewalDate.getTime()`, the sort key. */
  function RenewalKey(s: Subscription): int
  {
    s.renewalDate
  }

  /** `[...subs].sort((a, b) => a.renewalDate.getTime() - b.renewalDate.getTime())`: a stable
      ascending sort of a copy; the store's list itself is a value and is left as it was. */
  function SortedByRenewal(subs: seq<Subscription>): (r: seq<Subscription>)
    ensures |r| == |subs|
  {
    SortBy(subs, RenewalKey)
  }

  /** The ordered list is ascending by renewal date. */
  lemma SortedByRenewalAscending(subs: seq<Subscription>)
    ensures forall i, j :: 0 <= i < j < |subs| ==>
      SortedByRenewal(subs)[i].renewalDate <= SortedByRenewal(subs)[j].renewalDate
  {
    var r := SortedByRenewal(subs);
    SortBySorted(subs, RenewalKey);
    forall i, j | 0 <= i < j < |subs| ensures r[i].renewalDate <= r[j].renewalDate {
      assert RenewalKey(r[i]) <= RenewalKey(r[j]);
    }
  }

  /** The ordered list holds exactly the stored subscriptions. */
  lemma SortedByRenewalPermutation(subs: seq<Subscription>)
    ensures multiset(SortedByRenewal(subs)) == multiset(subs)
  {
    SortByPermutation(subs, RenewalKey);
  }

  /** Subscriptions renewing at the same time keep their stored order. */
  lemma SortedByRenewalStable(subs: seq<Subscription>, t: int)
    ensures KeyFilter(SortedByRenewal(subs), RenewalKey, t) == KeyFilter(subs, RenewalKey, t)
  {
    SortByStable(subs, RenewalKey, t);
  }

  /** Any list that is ascending by renewal date and keeps ties in stored order is the
      ordered list: whatever stable algorithm the engine uses gives this result. */
  lemma SortedByRenewalUnique(subs: seq<Subscription>, r: seq<Subscription>)
    requires SortedBy(r, RenewalKey)
    requires forall t :: KeyFilter(r, RenewalKey, t) == KeyFilter(subs, RenewalKey, t)
    ensures r == SortedByRenewal(subs)
  {
    SortByCharacterized(subs, r, RenewalKey);
  }

  /** The "Active Subscriptions" figure: `subscriptions.length`. */
  function ActiveCount(subs: seq<Subscription>): nat
  {
    |subs|
  }

  /** The count follows the store: one more per add, unchanged by an update, one fewer per
      delete of a present id when ids are distinct. */
  lemma ActiveCountFollowsStore(subs: seq<Subscription>, calls: seq<AddCall>, sub: Subscription, id: string)
    ensures ActiveCount(AddAll(subs, calls)) == ActiveCount(subs) + |calls|
    ensures ActiveCount(Replaced(subs, sub)) == ActiveCount(subs)
    ensures IdsDistinct(subs) && HasId(subs, id) ==> ActiveCount(Removed(subs, id)) == ActiveCount(subs) - 1
  {
    AddAllLength(subs, calls);
    if IdsDistinct(subs) && HasId(subs, id) {
      RemovedOne(subs, id);
    }
  }

  /** `CURRENCIES.find(c => c.code === code) || CURRENCIES[0]`. With an empty table the
      fallback is `undefined`, here None. */
  function ResolveCurrency(table: seq<Currency>, code: string): (r: Option<Currency>)
    ensures r.Some? <==> |table| > 0
    ensures r.Some? ==> r.value in table
    ensures (exists i :: 0 <= i < |table| && table[i].code == code) ==>
      r.Some? && r.value.code == code &&
      exists i :: 0 <= i < |table| && table[i] == r.value && forall j :: 0 <= j < i ==> table[j].code != code
    ensures r.Some? && (forall i :: 0 <= i < |table| ==> table[i].code != code) ==> r.value == table[0]
  {
    match FindIndex(table, (c: Currency) => c.code == code)
    case Some(i) => Some(table[i])
    case None => if |table| > 0 then Some(table[0]) else None
  }
}
