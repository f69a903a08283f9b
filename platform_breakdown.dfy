/** The per-platform breakdown: subscriptions grouped by their platform's display title
    (`'Other'` when the platform is unknown or has no title), each group's monthly
    equivalents summed into a plain object, which `Object.entries` then lists. */
module PlatformBreakdown {
  import opened Lists
  import opened Types
  import opened Costs
  import opened Sorting

  const OtherTitle: string := "Other"

  /** `PLATFORMS.find(p => p.name === name)?.title || 'Other'` */
  function PlatformTitle(platforms: seq<Platform>, name: string): (t: string)
    ensures t != ""
  {
    match FindIndex(platforms, (p: Platform) => p.name == name)
    case Some(i) => if platforms[i].title != "" then platforms[i].title else OtherTitle
    case None => OtherTitle
  }

  /** An unknown platform is credited to 'Other'; a known one to the title of its first
      entry, or to 'Other' when that title is empty. */
  lemma PlatformTitleSpec(platforms: seq<Platform>, name: string)
    ensures (forall i :: 0 <= i < |platforms| ==> platforms[i].name != name) ==> PlatformTitle(platforms, name) == OtherTitle
    ensures forall i ::
      (0 <= i < |platforms| && platforms[i].name == name && forall j :: 0 <= j < i ==> platforms[j].name != name)
      ==> PlatformTitle(platforms, name) == if platforms[i].title == "" then OtherTitle else platforms[i].title
  {
    var found := FindIndex(platforms, (p: Platform) => p.name == name);
    if found.Some? {
      forall i | 0 <= i < |platforms| && platforms[i].name == name && forall j :: 0 <= j < i ==> platforms[j].name != name
        ensures i == found.value
      {
        if i < found.value {
          assert false;
        } else if i > found.value {
          assert false;
        }
      }
    }
  }

  function Title(platforms: seq<Platform>, s: Subscription): string
  {
    PlatformTitle(platforms, s.platformName)
  }

  /** The resolved titles, in list order. */
  function Titles(platforms: seq<Platform>, subs: seq<Subscription>): (ts: seq<string>)
    ensures |ts| == |subs|
  {
    if subs == [] then []
    else Titles(platforms, subs[..|subs| - 1]) + [Title(platforms, subs[|subs| - 1])]
  }

  /** The sum of the monthly equivalents of the subscriptions credited to `title`. */
  function CostFor(platforms: seq<Platform>, subs: seq<Subscription>, title: string): real
  {
    if subs == [] then 0.0
    else
      var last := subs[|subs| - 1];
      CostFor(platforms, subs[..|subs| - 1], title) + if Title(platforms, last) == title then MonthlyEquivalent(last) else 0.0
  }

  // Property keys of a plain object. An "array index" (the canonical decimal form of an
  // integer from 0 to 2^32 - 2) is listed before every other key, in ascending numeric
  // order; the other keys follow in insertion order.

  function DigitValue(c: char): nat
  {
    if '0' <= c <= '9' then c as int - '0' as int else 0
  }

  function DigitsValue(s: string): nat
  {
    if s == [] then 0 else DigitsValue(s[..|s| - 1]) * 10 + DigitValue(s[|s| - 1])
  }

  predicate IsArrayIndex(k: string)
  {
    && |k| > 0
    && (forall i :: 0 <= i < |k| ==> '0' <= k[i] <= '9')
    && (k[0] != '0' || |k| == 1)
    && DigitsValue(k) <= 4294967294
  }

  function IndexValue(k: string): int
  {
    DigitsValue(k)
  }

  predicate IsOtherKey(k: string)
  {
    !IsArrayIndex(k)
  }

  /** The order in which `Object.entries` lists the keys inserted in order `ks`. */
  function KeyOrder(ks: seq<string>): (r: seq<string>)
    ensures multiset(r) == multiset(ks)
    ensures forall k :: k in r <==> k in ks
  {
    SortByPermutation(Filter(ks, IsArrayIndex), IndexValue);
    FilterPartition(ks, IsArrayIndex, IsOtherKey);
    SameMembers(SortBy(Filter(ks, IsArrayIndex), IndexValue) + Filter(ks, IsOtherKey), ks);
    SortBy(Filter(ks, IsArrayIndex), IndexValue) + Filter(ks, IsOtherKey)
  }

  datatype Slice = Slice(name: string, value: real)

  function SlicesFor(platforms: seq<Platform>, subs: seq<Subscription>, names: seq<string>): seq<Slice>
  {
    seq(|names|, i requires 0 <= i < |names| => Slice(names[i], CostFor(platforms, subs, names[i])))
  }

  /** The reference result: one slice per resolved title, listed in object-key order of
      first encounter, holding that title's summed monthly cost. */
  function Breakdown(platforms: seq<Platform>, subs: seq<Subscription>): seq<Slice>
  {
    SlicesFor(platforms, subs, KeyOrder(FirstEncounter(Titles(platforms, subs))))
  }

  /** The plain object `platformCosts`: its keys in insertion order and its values. */
  datatype Dict = Dict(keys: seq<string>, values: map<string, real>)

  /** `dict[k] = v`: a new key goes to the end, an existing one keeps its place, and every
      other key keeps its value. */
  function Put(d: Dict, k: string, v: real): (r: Dict)
    ensures k in r.values && r.values[k] == v
    ensures forall j :: j != k ==> (j in r.values <==> j in d.values)
    ensures forall j :: j != k && j in d.values ==> r.values[j] == d.values[j]
    ensures |d.keys| <= |r.keys| <= |d.keys| + 1 && r.keys[..|d.keys|] == d.keys
    ensures |r.keys| == |d.keys| + 1 <==> k !in d.values
    ensures |r.keys| > |d.keys| ==> r.keys[|d.keys|] == k
  {
    Dict(if k in d.values then d.keys else d.keys + [k], d.values[k := v])
  }

  /** `Object.entries(dict).map(([name, value]) => ({ name, value }))`: one entry per key,
      in object-key order, each with that key's value. */
  function Entries(d: Dict): (r: seq<Slice>)
    requires forall k :: k in d.keys ==> k in d.values
    ensures |r| == |d.keys|
    ensures Names(r) == KeyOrder(d.keys)
    ensures multiset(Names(r)) == multiset(d.keys)
    ensures forall i :: 0 <= i < |r| ==> r[i].name in d.keys && r[i].value == d.values[r[i].name]
  {
    var ks := KeyOrder(d.keys);
    assert |ks| == |multiset(ks)| == |multiset(d.keys)| == |d.keys|;
    seq(|ks|, i requires 0 <= i < |ks| => Slice(ks[i], d.values[ks[i]]))
  }

  /** A title nobody is credited to has cost 0. */
  lemma {:induction false} CostForAbsent(platforms: seq<Platform>, subs: seq<Subscription>, title: string)
    requires title !in Titles(platforms, subs)
    ensures CostFor(platforms, subs, title) == 0.0
  {
    if subs != [] {
      var n := |subs| - 1;
      assert Titles(platforms, subs) == Titles(platforms, subs[..n]) + [Title(platforms, subs[n])];
      CostForAbsent(platforms, subs[..n], title);
    }
  }

  /** The loop invariant: `d` is `platformCosts` after crediting the subscriptions `prefix`. */
  ghost predicate Tracks(d: Dict, platforms: seq<Platform>, prefix: seq<Subscription>)
  {
    && d.keys == FirstEncounter(Titles(platforms, prefix))
    && (forall k :: k in d.values <==> k in d.keys)
    && (forall k :: k in d.values ==> d.values[k] == CostFor(platforms, prefix, k))
  }

  lemma {:induction false} TitlesAt(platforms: seq<Platform>, subs: seq<Subscription>)
    ensures forall i :: 0 <= i < |subs| ==> Titles(platforms, subs)[i] == Title(platforms, subs[i])
  {
    if subs != [] {
      TitlesAt(platforms, subs[..|subs| - 1]);
    }
  }

  lemma TitlesSnoc(platforms: seq<Platform>, prefix: seq<Subscription>, x: Subscription)
    ensures Titles(platforms, prefix + [x]) == Titles(platforms, prefix) + [Title(platforms, x)]
  {
    assert (prefix + [x])[..|prefix|] == prefix;
  }

  lemma CostForSnoc(platforms: seq<Platform>, prefix: seq<Subscription>, x: Subscription, k: string)
    ensures CostFor(platforms, prefix + [x], k)
      == CostFor(platforms, prefix, k) + if Title(platforms, x) == k then MonthlyEquivalent(x) else 0.0
  {
    assert (prefix + [x])[..|prefix|] == prefix;
  }

  /** Adding to a truthy value keeps the invariant. */
  lemma CreditExisting(d: Dict, platforms: seq<Platform>, prefix: seq<Subscription>, x: Subscription)
    requires Tracks(d, platforms, prefix)
    requires Title(platforms, x) in d.values
    ensures Tracks(Put(d, Title(platforms, x), d.values[Title(platforms, x)] + MonthlyEquivalent(x)), platforms, prefix + [x])
  {
    var t := Title(platforms, x);
    var nd := Put(d, t, d.values[t] + MonthlyEquivalent(x));
    TitlesSnoc(platforms, prefix, x);
    FirstEncounterSnoc(Titles(platforms, prefix), t);
    assert nd.keys == FirstEncounter(Titles(platforms, prefix + [x]));
    forall k | k in nd.values ensures nd.values[k] == CostFor(platforms, prefix + [x], k) {
      CostForSnoc(platforms, prefix, x, k);
    }
  }

  /** Assigning to an absent or falsy (zero) key keeps the invariant. */
  lemma CreditFresh(d: Dict, platforms: seq<Platform>, prefix: seq<Subscription>, x: Subscription)
    requires Tracks(d, platforms, prefix)
    requires Title(platforms, x) in d.values ==> d.values[Title(platforms, x)] == 0.0
    ensures Tracks(Put(d, Title(platforms, x), MonthlyEquivalent(x)), platforms, prefix + [x])
  {
    var t := Title(platforms, x);
    var nd := Put(d, t, MonthlyEquivalent(x));
    TitlesSnoc(platforms, prefix, x);
    FirstEncounterSnoc(Titles(platforms, prefix), t);
    if t !in d.values {
      FirstEncounterMembers(Titles(platforms, prefix));
      CostForAbsent(platforms, prefix, t);
    }
    assert CostFor(platforms, prefix, t) == 0.0;
    assert nd.keys == FirstEncounter(Titles(platforms, prefix + [x]));
    forall k | k in nd.values ensures nd.values[k] == CostFor(platforms, prefix + [x], k) {
      CostForSnoc(platforms, prefix, x, k);
    }
  }

  /** Fills `platformCosts` one subscription at a time, then lists its entries. A key whose
      value is 0 is falsy, so it is overwritten rather than added to; the sum is the same. */
  method PlatformCosts(platforms: seq<Platform>, subs: seq<Subscription>) returns (chart: seq<Slice>)
    ensures chart == Breakdown(platforms, subs)
  {
    var d := Dict([], map[]);
    for i := 0 to |subs|
      invariant Tracks(d, platforms, subs[..i])
    {
      var sub := subs[i];
      var monthlyPrice := MonthlyEquivalent(sub);
      var title := PlatformTitle(platforms, sub.platformName);
      assert subs[..i] + [sub] == subs[..i + 1];
      if title in d.values && d.values[title] != 0.0 {
        CreditExisting(d, platforms, subs[..i], sub);
        d := Put(d, title, d.values[title] + monthlyPrice);
      } else {
        CreditFresh(d, platforms, subs[..i], sub);
        d := Put(d, title, monthlyPrice);
      }
    }
    assert subs[..|subs|] == subs;
    chart := Entries(d);
  }

  // Properties of the breakdown.

  function Names(chart: seq<Slice>): seq<string>
  {
    seq(|chart|, i requires 0 <= i < |chart| => chart[i].name)
  }

  function SliceTotal(chart: seq<Slice>): real
  {
    if chart == [] then 0.0 else SliceTotal(chart[..|chart| - 1]) + chart[|chart| - 1].value
  }

  function SumCosts(platforms: seq<Platform>, subs: seq<Subscription>, ks: seq<string>): real
  {
    if ks == [] then 0.0 else SumCosts(platforms, subs, ks[..|ks| - 1]) + CostFor(platforms, subs, ks[|ks| - 1])
  }

  lemma BreakdownNamesAre(platforms: seq<Platform>, subs: seq<Subscription>)
    ensures Names(Breakdown(platforms, subs)) == KeyOrder(FirstEncounter(Titles(platforms, subs)))
  {
  }

  /** An empty list gives an empty chart. */
  lemma BreakdownEmpty(platforms: seq<Platform>)
    ensures Breakdown(platforms, []) == []
  {
  }

  /** The names are pairwise distinct and there is at most one slice per subscription. */
  lemma BreakdownNamesDistinct(platforms: seq<Platform>, subs: seq<Subscription>)
    ensures Distinct(Names(Breakdown(platforms, subs)))
    ensures |Breakdown(platforms, subs)| <= |subs|
  {
    var fe := FirstEncounter(Titles(platforms, subs));
    FirstEncounterDistinct(Titles(platforms, subs));
    DistinctPermutation(fe, KeyOrder(fe));
    assert |KeyOrder(fe)| == |multiset(KeyOrder(fe))| == |multiset(fe)| == |fe|;
  }

  /** A name appears exactly when some subscription is credited to it, and each slice holds
      the summed monthly equivalents of the subscriptions credited to its name. */
  lemma BreakdownCovers(platforms: seq<Platform>, subs: seq<Subscription>)
    ensures forall name :: name in Names(Breakdown(platforms, subs)) <==>
      exists i :: 0 <= i < |subs| && Title(platforms, subs[i]) == name
    ensures forall i :: 0 <= i < |Breakdown(platforms, subs)| ==>
      Breakdown(platforms, subs)[i].value == CostFor(platforms, subs, Breakdown(platforms, subs)[i].name)
  {
    var ts := Titles(platforms, subs);
    FirstEncounterMembers(ts);
    BreakdownNamesAre(platforms, subs);
    TitlesAt(platforms, subs);
    forall name ensures name in ts <==> exists i :: 0 <= i < |subs| && Title(platforms, subs[i]) == name {
      if name in ts {
        var i :| 0 <= i < |ts| && ts[i] == name;
        assert Title(platforms, subs[i]) == name;
      }
    }
  }

  lemma {:induction false} SliceTotalFor(platforms: seq<Platform>, subs: seq<Subscription>, ks: seq<string>)
    ensures SliceTotal(SlicesFor(platforms, subs, ks)) == SumCosts(platforms, subs, ks)
  {
    if ks != [] {
      var n := |ks| - 1;
      assert SlicesFor(platforms, subs, ks)[..n] == SlicesFor(platforms, subs, ks[..n]);
      SliceTotalFor(platforms, subs, ks[..n]);
    }
  }

  lemma {:induction false} SumCostsConcat(platforms: seq<Platform>, subs: seq<Subscription>, a: seq<string>, b: seq<string>)
    ensures SumCosts(platforms, subs, a + b) == SumCosts(platforms, subs, a) + SumCosts(platforms, subs, b)
  {
    if b == [] {
      assert a + b == a;
    } else {
      assert (a + b)[..|a + b| - 1] == a + b[..|b| - 1];
      SumCostsConcat(platforms, subs, a, b[..|b| - 1]);
    }
  }

  /** The order in which the titles are summed does not matter. */
  lemma {:induction false} SumCostsPermutation(platforms: seq<Platform>, subs: seq<Subscription>, a: seq<string>, b: seq<string>)
    requires multiset(a) == multiset(b)
    ensures SumCosts(platforms, subs, a) == SumCosts(platforms, subs, b)
    decreases |a|
  {
    if a == [] {
      assert |b| == |multiset(b)| == 0;
    } else {
      var n := |a| - 1;
      var x := a[n];
      assert a == a[..n] + [x];
      assert x in multiset(b);
      var j :| 0 <= j < |b| && b[j] == x;
      var rest := b[..j] + b[j + 1..];
      assert b == b[..j] + [x] + b[j + 1..];
      assert multiset(a) == multiset(a[..n]) + multiset{x};
      assert multiset(b) == multiset(b[..j]) + multiset{x} + multiset(b[j + 1..]);
      assert multiset(rest) == multiset(b[..j]) + multiset(b[j + 1..]);
      assert multiset(a[..n]) == multiset(a) - multiset{x};
      assert multiset(rest) == multiset(b) - multiset{x};
      SumCostsPermutation(platforms, subs, a[..n], rest);
      SumCostsConcat(platforms, subs, b[..j] + [x], b[j + 1..]);
      SumCostsConcat(platforms, subs, b[..j], [x]);
      SumCostsConcat(platforms, subs, b[..j], b[j + 1..]);
      assert [x][..0] == [];
    }
  }

  /** Crediting one more subscription raises the sum over distinct titles by its monthly
      equivalent exactly when its title is among them. */
  lemma {:induction false} SumCostsSnoc(platforms: seq<Platform>, prefix: seq<Subscription>, x: Subscription, ks: seq<string>)
    requires Distinct(ks)
    ensures SumCosts(platforms, prefix + [x], ks)
      == SumCosts(platforms, prefix, ks) + if Title(platforms, x) in ks then MonthlyEquivalent(x) else 0.0
  {
    if ks != [] {
      var n := |ks| - 1;
      var front := ks[..n];
      assert Distinct(front) by {
        forall i, j | 0 <= i < j < |front| ensures front[i] != front[j] {
          assert front[i] == ks[i] && front[j] == ks[j];
        }
      }
      assert ks[n] !in front by {
        forall i | 0 <= i < |front| ensures front[i] != ks[n] {
          assert front[i] == ks[i];
        }
      }
      assert ks == front + [ks[n]];
      SumCostsSnoc(platforms, prefix, x, front);
      CostForSnoc(platforms, prefix, x, ks[n]);
    }
  }

  /** Summing each title's cost once over the titles met gives the total monthly cost. */
  lemma {:induction false} FirstEncounterTotal(platforms: seq<Platform>, subs: seq<Subscription>)
    ensures SumCosts(platforms, subs, FirstEncounter(Titles(platforms, subs))) == MonthlySum(subs)
  {
    if subs != [] {
      var n := |subs| - 1;
      var prefix, x := subs[..n], subs[n];
      assert subs == prefix + [x];
      var t := Title(platforms, x);
      var seen := FirstEncounter(Titles(platforms, prefix));
      FirstEncounterTotal(platforms, prefix);
      TitlesSnoc(platforms, prefix, x);
      FirstEncounterSnoc(Titles(platforms, prefix), t);
      FirstEncounterDistinct(Titles(platforms, prefix));
      SumCostsSnoc(platforms, prefix, x, seen);
      if t !in seen {
        FirstEncounterMembers(Titles(platforms, prefix));
        CostForAbsent(platforms, prefix, t);
        CostForSnoc(platforms, prefix, x, t);
        assert (seen + [t])[..|seen|] == seen;
      }
    }
  }

  /** The slices add up to the total monthly cost shown on the home page. */
  lemma BreakdownTotal(platforms: seq<Platform>, subs: seq<Subscription>)
    ensures SliceTotal(Breakdown(platforms, subs)) == MonthlySum(subs)
  {
    var fe := FirstEncounter(Titles(platforms, subs));
    SliceTotalFor(platforms, subs, KeyOrder(fe));
    SumCostsPermutation(platforms, subs, KeyOrder(fe), fe);
    FirstEncounterTotal(platforms, subs);
  }

  /** The shape of the key order: array indexes first, ascending, then the others as given. */
  /** Ascending array indexes followed by any other keys keep that shape. */
  lemma IndexesThenOthers(sorted: seq<string>, others: seq<string>)
    requires forall i :: 0 <= i < |sorted| ==> IsArrayIndex(sorted[i])
    requires SortedBy(sorted, IndexValue)
    ensures var r := sorted + others;
      && |others| <= |r|
      && r[|r| - |others|..] == others
      && (forall i :: 0 <= i < |r| - |others| ==> IsArrayIndex(r[i]))
      && (forall i, j :: 0 <= i < j < |r| - |others| ==> IndexValue(r[i]) <= IndexValue(r[j]))
  {
    var r := sorted + others;
    assert r[|sorted|..] == others;
    assert forall i :: 0 <= i < |sorted| ==> r[i] == sorted[i];
  }

  lemma KeyOrderShape(ks: seq<string>)
    ensures var others := Filter(ks, IsOtherKey);
      && |others| <= |KeyOrder(ks)|
      && KeyOrder(ks)[|KeyOrder(ks)| - |others|..] == others
      && (forall i :: 0 <= i < |KeyOrder(ks)| - |others| ==> IsArrayIndex(KeyOrder(ks)[i]))
      && (forall i, j :: 0 <= i < j < |KeyOrder(ks)| - |others| ==> IndexValue(KeyOrder(ks)[i]) <= IndexValue(KeyOrder(ks)[j]))
  {
    var indexes := Filter(ks, IsArrayIndex);
    var sorted := SortBy(indexes, IndexValue);
    SortBySorted(indexes, IndexValue);
    SortByPermutation(indexes, IndexValue);
    SameMembers(sorted, indexes);
    FilterMembers(ks, IsArrayIndex);
    forall i | 0 <= i < |sorted| ensures IsArrayIndex(sorted[i]) {
      assert sorted[i] in indexes;
    }
    IndexesThenOthers(sorted, Filter(ks, IsOtherKey));
    assert KeyOrder(ks) == sorted + Filter(ks, IsOtherKey);
  }

  /** `Object.entries` order: the names that are array indexes come first, ascending by
      numeric value; after them come the other names, in order of first encounter. */
  lemma BreakdownOrder(platforms: seq<Platform>, subs: seq<Subscription>)
    ensures var names := Names(Breakdown(platforms, subs));
      var others := FirstEncounter(Filter(Titles(platforms, subs), IsOtherKey));
      && |others| <= |names|
      && names[|names| - |others|..] == others
      && (forall i :: 0 <= i < |names| - |others| ==> IsArrayIndex(names[i]))
      && (forall i, j :: 0 <= i < j < |names| - |others| ==> IndexValue(names[i]) <= IndexValue(names[j]))
  {
    var ts := Titles(platforms, subs);
    BreakdownNamesAre(platforms, subs);
    FilterFirstEncounter(ts, IsOtherKey);
    KeyOrderShape(FirstEncounter(ts));
  }

  /** Keys none of which is an array index keep their insertion order. */
  lemma KeyOrderNoIndexes(ks: seq<string>)
    requires forall i :: 0 <= i < |ks| ==> !IsArrayIndex(ks[i])
    ensures KeyOrder(ks) == ks
  {
    FilterNone(ks, IsArrayIndex);
    assert SortBy(Filter(ks, IsArrayIndex), IndexValue) == [];
    FilterAll(ks, IsOtherKey);
  }

  /** With no title that is an array index, the slices come in order of first encounter. */
  lemma BreakdownFirstEncounterOrder(platforms: seq<Platform>, subs: seq<Subscription>)
    requires forall i :: 0 <= i < |subs| ==> !IsArrayIndex(Title(platforms, subs[i]))
    ensures Names(Breakdown(platforms, subs)) == FirstEncounter(Titles(platforms, subs))
  {
    var ts := Titles(platforms, subs);
    TitlesAt(platforms, subs);
    var seen := FirstEncounter(ts);
    FirstEncounterMembers(ts);
    forall i | 0 <= i < |seen| ensures !IsArrayIndex(seen[i]) {
      assert seen[i] in ts;
    }
    KeyOrderNoIndexes(seen);
    BreakdownNamesAre(platforms, subs);
  }
}
