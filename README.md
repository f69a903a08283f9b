# Subscription tracker core, in Dafny

This project models the core of a client-side tracker for streaming ("OTT")
subscriptions and proves properties of that model.

- **The store.** It holds the list of subscriptions, the chosen currency code
  and a hydration flag. Its actions add, update, delete and set the currency.
- **The home page.** It computes monthly and yearly totals, lists the
  subscriptions by renewal date, counts them, and looks up the currency.
- **The spending trend.** It always has twelve monthly buckets.
- **The platform breakdown.** It groups monthly cost by resolved platform
  title. The groups come out in the order in which JavaScript's
  `Object.entries` lists the keys of a plain object.
- **The add/edit dialog.** It has a form schema, default values and a price
  coercion. Its submit step routes a valid form to the store's add or
  update action.

Modules, one per file:

| module | file | models |
|---|---|---|
| `Lists` | `lists.dfy` | generic helpers: `find`, `filter`, first-encounter order |
| `Types` | `types.dfy` | `src/lib/types.ts` |
| `Sorting` | `sorting.dfy` | JavaScript's stable `Array.prototype.sort` by a numeric key, as a reference function |
| `Costs` | `costs.dfy` | the monthly/yearly normalisation the pages share |
| `SubscriptionStore` | `subscription_store.dfy` | `src/store/subscriptionStore.ts`: a `Store` class and the list functions its actions are specified by |
| `HomePage` | `home_page.dfy` | the derived values of `src/pages/HomePage.tsx` |
| `SpendingChart` | `spending_chart.dfy` | the `chartData` of `src/components/SpendingChart.tsx` |
| `PlatformBreakdown` | `platform_breakdown.dfy` | the `chartData` of `src/components/PlatformBreakdownChart.tsx` |
| `AddSubscriptionDialog` | `add_subscription_dialog.dfy` | the schema, defaults and submit routing of `src/components/AddSubscriptionDialog.tsx` |
| `Scenarios` | `scenarios.dfy` | worked cases of the metrics |

Modelling choices:

- Prices are `real`. The arithmetic is exact, not IEEE double.
- Dates are integer millisecond timestamps.
- The month the trend chart is drawn in is a `YearMonth` parameter.
- For code that mutates, the Dafny code is imperative:
  - Zustand's `set` calls become `Store` methods over a `seq` field.
  - The `forEach` accumulations become loops with invariants: `Totals`, `TrendSeries` over a 12-element `array`, and `PlatformCosts` over an explicit object model `Dict`.
- Each loop is proved equal to a recursive reference function. The properties are proved about those functions.
- Three values come from outside the store, so they are parameters:
  - the fresh id (`crypto.randomUUID()`);
  - the creation time (`new Date()`);
  - the module-load time of the default form.
- The platform and currency tables (`PLATFORMS`, `CURRENCIES`) are also parameters. `src/lib/platforms` and `src/lib/currencies` are not part of this model.
- The currency lookup `CURRENCIES.find(...) || CURRENCIES[0]` occurs five times in the source: `HomePage.tsx:34-36`, `SpendingChart.tsx:10-12`, `PlatformBreakdownChart.tsx:11-13`, `AddSubscriptionDialog.tsx:62-64` and `SubscriptionCard.tsx:37-39`. `HomePage.ResolveCurrency` models all five. The last copy sits in the card component, which is otherwise not part of this model.

Behaviours the model keeps:

- **Breakdown key order.** In the breakdown, a title that is an array index is listed first. A canonical decimal between 0 and 2^32 - 2 is an array index. Those titles are listed in ascending numeric order, and the other titles follow in first-encounter order. `PlatformBreakdown.KeyOrder` models this.
- **Zero-valued entry.** `if (platformCosts[t])` treats a stored `0` as absent. The next credit then overwrites that entry rather than adding to it. `PlatformCosts` models the branch as written. Because the overwritten value is 0, the result still equals the per-title sum.
- **Zero price.** The price schema accepts exactly 0, though its message says "positive".
- **Empty price field.** An empty price field becomes 0 and passes the price check; the form still needs both names.

## Model

| member | source | states |
|---|---|---|
| `Lists.FindIndex` | src/pages/HomePage.tsx:35 | `find` returns the first index whose element satisfies the predicate, and nothing when no element does |
| `SubscriptionStore.Created` | src/store/subscriptionStore.ts:25-29 | the new record has the given id and creation time, and its five editable fields are the draft's |
| `SubscriptionStore.Replaced` | src/store/subscriptionStore.ts:34-36 | `map` keeps the length; each position holds the new record if its id matches, otherwise the old one |
| `SubscriptionStore.Removed` | src/store/subscriptionStore.ts:40 | `filter` never grows the list; a record survives exactly when it was present and its id differs |
| `SubscriptionStore.ReplacedKeepsIds` | src/store/subscriptionStore.ts:34-36 | an update changes no id at any position |
| `SubscriptionStore.ReplacedAbsent` | src/store/subscriptionStore.ts:34-36 | updating an id that is not present leaves the list unchanged |
| `SubscriptionStore.ReplacedIdempotent` | src/store/subscriptionStore.ts:34-36 | updating twice with the same record is the same as updating once |
| `SubscriptionStore.ReplacedPreservesDistinct` | src/store/subscriptionStore.ts:34-36 | an update keeps ids pairwise distinct |
| `SubscriptionStore.RemovedIsFilter` | src/store/subscriptionStore.ts:40 | the store's deletion is exactly the generic `Filter` with the callback `s => s.id !== id` |
| `SubscriptionStore.RemovedConcat` | src/store/subscriptionStore.ts:40 | removal distributes over concatenation, so order is kept |
| `SubscriptionStore.RemovedAbsent` | src/store/subscriptionStore.ts:40 | deleting an id that is not present leaves the list unchanged |
| `SubscriptionStore.RemovedLeavesNoMatch` | src/store/subscriptionStore.ts:40 | after deletion no record has that id |
| `SubscriptionStore.RemovedIdempotent` | src/store/subscriptionStore.ts:40 | deleting twice is the same as deleting once |
| `SubscriptionStore.RemovedPreservesDistinct` | src/store/subscriptionStore.ts:40 | deletion keeps ids pairwise distinct |
| `SubscriptionStore.RemovedOne` | src/store/subscriptionStore.ts:40 | with distinct ids, deleting a present id removes exactly one record |
| `SubscriptionStore.AppendPreservesDistinct` | src/store/subscriptionStore.ts:21-31 | adding under an id not yet used keeps ids pairwise distinct |
| `SubscriptionStore.AddAllLength` | src/store/subscriptionStore.ts:21-31 | a sequence of adds grows the list by one per call |
| `SubscriptionStore.AddAllDistinct` | src/store/subscriptionStore.ts:21-31 | adds with pairwise distinct fresh ids, none already used, keep ids distinct |
| `SubscriptionStore.Store.constructor` | src/store/subscriptionStore.ts:17-19 | the initial state: no subscriptions, currency `"USD"`, not hydrated |
| `SubscriptionStore.Store.SetHasHydrated` | src/store/subscriptionStore.ts:20 | sets the flag and changes nothing else |
| `SubscriptionStore.Store.AddSubscription` | src/store/subscriptionStore.ts:21-31 | appends the created record at the end and keeps the other fields; ids stay distinct under a fresh id |
| `SubscriptionStore.Store.UpdateSubscription` | src/store/subscriptionStore.ts:32-37 | the list becomes `Replaced` of the old list; an absent id changes nothing; ids stay distinct |
| `SubscriptionStore.Store.DeleteSubscription` | src/store/subscriptionStore.ts:38-41 | the list becomes `Removed` of the old list; an absent id changes nothing; ids stay distinct |
| `SubscriptionStore.Store.SetCurrency` | src/store/subscriptionStore.ts:42 | sets the code and changes nothing else |
| `SubscriptionStore.Store.OnRehydrate` | src/store/subscriptionStore.ts:54-58 | rehydration sets the flag exactly when a state was delivered, and otherwise leaves it |
| `SubscriptionStore.SetCurrencyTwice` | src/store/subscriptionStore.ts:42 | two calls with the same code leave that code as the currency and the list and flag unchanged |
| `Costs.MonthlyEquivalent` | src/components/SpendingChart.tsx:23 | a non-negative price gives a monthly figure between 0 and the price (the same expression is at `PlatformBreakdownChart.tsx:17`) |
| `Costs.AnnualEquivalent` | src/pages/HomePage.tsx:41-46 | a non-negative price gives an annual figure of at least the price |
| `Costs.AnnualIsTwelveMonthly` | src/pages/HomePage.tsx:41-46 | per subscription, the annual figure is twelve times the monthly one |
| `Costs.YearlyIsTwelveMonthly` | src/pages/HomePage.tsx:40-48 | the yearly total is twelve times the monthly total |
| `Costs.SumsNonNegative` | src/pages/HomePage.tsx:40-48 | with non-negative prices both totals are non-negative |
| `Costs.EmptySums` | src/pages/HomePage.tsx:38-39 | no subscriptions give zero totals |
| `Costs.MonthlySumConcat` | src/pages/HomePage.tsx:40-48 | the monthly total is additive over concatenation |
| `Costs.MonthlySumIgnoresOtherFields` | src/pages/HomePage.tsx:40-48 | the monthly total depends only on each record's price and cycle |
| `HomePage.Totals` | src/pages/HomePage.tsx:37-50 | the loop's two accumulators end as the reference monthly and yearly sums |
| `HomePage.RenewalKey` | src/pages/HomePage.tsx:52 | the comparator's key `renewalDate.getTime()`; the order it induces is stated by `SortedByRenewalAscending` |
| `HomePage.SortedByRenewal` | src/pages/HomePage.tsx:51-53 | the sorted copy has as many entries as the list |
| `HomePage.SortedByRenewalAscending` | src/pages/HomePage.tsx:52 | the copy is ordered by renewal date |
| `HomePage.SortedByRenewalPermutation` | src/pages/HomePage.tsx:52 | the copy is a permutation of the list |
| `HomePage.SortedByRenewalStable` | src/pages/HomePage.tsx:52 | records with the same renewal date keep their relative order |
| `HomePage.SortedByRenewalUnique` | src/pages/HomePage.tsx:52 | any ordered list with the same per-date subsequences equals the sorted copy, so a stable engine sort agrees with it |
| `HomePage.ActiveCount` | src/pages/HomePage.tsx:84 | `subscriptions.length`; how it follows the store's actions is stated by `ActiveCountFollowsStore` |
| `HomePage.ActiveCountFollowsStore` | src/pages/HomePage.tsx:84 | the count rises by one per add, stays the same on update, and falls by one on deleting a present id |
| `HomePage.ResolveCurrency` | src/pages/HomePage.tsx:34-36 | the first currency with the code; otherwise the first table entry; nothing only for an empty table |
| `Sorting.SortBySorted` | src/pages/HomePage.tsx:52 | the reference sort orders by the key |
| `Sorting.SortByPermutation` | src/pages/HomePage.tsx:52 | the reference sort permutes its input |
| `Sorting.SortByStable` | src/pages/HomePage.tsx:52 | the reference sort keeps the order of records with equal keys |
| `Sorting.SortByCharacterized` | src/pages/HomePage.tsx:52 | sorted plus stable determines the result uniquely |
| `SpendingChart.SubMonths` | src/components/SpendingChart.tsx:16 | stepping back k months lowers the absolute month number by exactly k |
| `SpendingChart.BucketMonth` | src/components/SpendingChart.tsx:16 | bucket i's month lies 11 - i months before now, so bucket 11 is now |
| `SpendingChart.TrendSeries` | src/components/SpendingChart.tsx:13-32 | twelve buckets; bucket i is labelled with the month 11 - i before now; every bucket's total is the monthly sum |
| `SpendingChart.WindowMonths` | src/components/SpendingChart.tsx:15-21 | the last bucket is the current month; the months are consecutive and pairwise distinct |
| `PlatformBreakdown.PlatformTitle` | src/components/PlatformBreakdownChart.tsx:18 | the resolved title is never empty, because of the `\|\| 'Other'` fallback |
| `PlatformBreakdown.PlatformTitleSpec` | src/components/PlatformBreakdownChart.tsx:18 | an unknown platform is "Other"; a known one takes its first entry's title, or "Other" when that title is empty |
| `PlatformBreakdown.Titles` | src/components/PlatformBreakdownChart.tsx:18 | one resolved title per subscription |
| `PlatformBreakdown.TitlesAt` | src/components/PlatformBreakdownChart.tsx:18 | position i holds subscription i's resolved title |
| `PlatformBreakdown.KeyOrder` | src/components/PlatformBreakdownChart.tsx:25 | `Object.entries` lists exactly the inserted keys, each as often as inserted |
| `PlatformBreakdown.KeyOrderShape` | src/components/PlatformBreakdownChart.tsx:25 | array-index keys come first, by ascending value; the other keys follow in insertion order |
| `PlatformBreakdown.KeyOrderNoIndexes` | src/components/PlatformBreakdownChart.tsx:25 | without array-index keys the listing is the insertion order |
| `PlatformBreakdown.Put` | src/components/PlatformBreakdownChart.tsx:20-22 | after `platformCosts[t] = v` the key holds v and every other key keeps its value and presence; the existing keys keep their insertion order, and exactly when t was absent it is appended at the end |
| `PlatformBreakdown.Entries` | src/components/PlatformBreakdownChart.tsx:25 | one entry per key (the names are a permutation of the keys), listed in `Object.entries` key order `KeyOrder`, each carrying that key's value |
| `PlatformBreakdown.CostForAbsent` | src/components/PlatformBreakdownChart.tsx:16-24 | a title no subscription resolves to accumulates nothing |
| `PlatformBreakdown.CreditExisting` | src/components/PlatformBreakdownChart.tsx:19-20 | adding to a truthy entry keeps the loop invariant |
| `PlatformBreakdown.CreditFresh` | src/components/PlatformBreakdownChart.tsx:21-22 | assigning to an absent or zero entry keeps the loop invariant |
| `PlatformBreakdown.PlatformCosts` | src/components/PlatformBreakdownChart.tsx:14-26 | the loop with its truthiness branch yields exactly the reference breakdown |
| `PlatformBreakdown.BreakdownEmpty` | src/components/PlatformBreakdownChart.tsx:15 | no subscriptions give no slices |
| `PlatformBreakdown.BreakdownNamesDistinct` | src/components/PlatformBreakdownChart.tsx:19-25 | each title appears once, and there are no more slices than subscriptions |
| `PlatformBreakdown.BreakdownCovers` | src/components/PlatformBreakdownChart.tsx:16-25 | a name appears exactly when some subscription resolves to it, and its value is that title's summed monthly cost |
| `PlatformBreakdown.BreakdownTotal` | src/components/PlatformBreakdownChart.tsx:16-25 | the slices add up to the total monthly cost |
| `PlatformBreakdown.SumCostsPermutation` | src/components/PlatformBreakdownChart.tsx:25 | the total over the slices does not depend on their order |
| `PlatformBreakdown.FirstEncounterTotal` | src/components/PlatformBreakdownChart.tsx:16-24 | summing each distinct title's cost once gives the monthly total |
| `PlatformBreakdown.BreakdownOrder` | src/components/PlatformBreakdownChart.tsx:25 | slices with array-index names come first, ascending; the others follow in order of first encounter |
| `PlatformBreakdown.BreakdownFirstEncounterOrder` | src/components/PlatformBreakdownChart.tsx:25 | with no array-index title the slices are in order of first encounter |
| `AddSubscriptionDialog.CycleName` | src/components/AddSubscriptionDialog.tsx:44 | a cycle is shown as one of the two enum strings, a different one for each cycle |
| `AddSubscriptionDialog.ParseCycle` | src/components/AddSubscriptionDialog.tsx:44 | the enum accepts exactly "monthly" and "yearly", and a parsed cycle names the string it came from |
| `AddSubscriptionDialog.Accepts` | src/components/AddSubscriptionDialog.tsx:40-46 | the schema as a predicate on the form's values; `Validate` states what passing it yields |
| `AddSubscriptionDialog.Validate` | src/components/AddSubscriptionDialog.tsx:40-46 | a draft exactly when both names are non-empty, the price is at least 0 and the cycle is one of the two; the draft shows as the same values |
| `AddSubscriptionDialog.ValidateFormOf` | src/components/AddSubscriptionDialog.tsx:40-46 | a draft shown in the form parses back to itself exactly when its names and price pass |
| `AddSubscriptionDialog.ZeroPriceAccepted` | src/components/AddSubscriptionDialog.tsx:41-44 | with a price of 0 the form passes exactly when its names and cycle do; every negative price fails |
| `AddSubscriptionDialog.DefaultForm` | src/components/AddSubscriptionDialog.tsx:51-57 | the default values fail the schema, and their date is the load time |
| `AddSubscriptionDialog.DefaultFormRejected` | src/components/AddSubscriptionDialog.tsx:51-57 | the default values fail, and filling in both names is exactly what makes them pass |
| `AddSubscriptionDialog.InitialForm` | src/components/AddSubscriptionDialog.tsx:67-72 | a fresh form fails the schema; an edit form passes exactly when the record's names and price do, and then parses to the record's own five fields |
| `AddSubscriptionDialog.Merge` | src/components/AddSubscriptionDialog.tsx:85 | the updated record keeps the original's id and creation time and takes the form's five fields |
| `AddSubscriptionDialog.MergeOwnFields` | src/components/AddSubscriptionDialog.tsx:85 | merging a record with its own fields gives the record back |
| `AddSubscriptionDialog.EditUnchangedIsNoOp` | src/components/AddSubscriptionDialog.tsx:67-90 | editing a valid stored subscription and saving it untouched validates and leaves the list as it was |
| `AddSubscriptionDialog.CoercePrice` | src/components/AddSubscriptionDialog.tsx:164 | the fallback to 0: NaN from an empty or unparsable field gives 0, a reported number comes through unchanged, and a negative price can only come from a negative number typed in |
| `AddSubscriptionDialog.CoercedPriceCheck` | src/components/AddSubscriptionDialog.tsx:164 | after `valueAsNumber \|\| 0` only a typed negative number fails the price check; NaN counts as 0 |
| `AddSubscriptionDialog.Dialog.constructor` | src/components/AddSubscriptionDialog.tsx:59-73 | closed, with the form at its initial values |
| `AddSubscriptionDialog.Dialog.Open` | src/components/AddSubscriptionDialog.tsx:74-82 | opening a closed dialog resets the form to the initial values for the record it was last rendered with; opening an open one leaves the form, as the effect runs only when `isOpen` changes |
| `AddSubscriptionDialog.Dialog.Rerender` | src/components/AddSubscriptionDialog.tsx:74-82 | a re-render takes the parent's current record; an open dialog whose record changed resets its form to it, otherwise the form is kept |
| `AddSubscriptionDialog.Dialog.Close` | src/components/AddSubscriptionDialog.tsx:92 | closing keeps the form |
| `AddSubscriptionDialog.Dialog.SetPrice` | src/components/AddSubscriptionDialog.tsx:164 | the price field receives the coerced number |
| `AddSubscriptionDialog.Dialog.SetFields` | src/components/AddSubscriptionDialog.tsx:109-227 | the other fields receive what their inputs report |
| `AddSubscriptionDialog.Dialog.OnSubmit` | src/components/AddSubscriptionDialog.tsx:83-90 | an edit updates with the merged record, an addition appends a created one; ids stay distinct; the dialog closes |
| `AddSubscriptionDialog.Dialog.HandleSubmit` | src/components/AddSubscriptionDialog.tsx:108 | submits exactly when the form passes the schema, and then routes the parsed draft; otherwise nothing changes |
| `Scenarios.TotalsOfMonthlyAndYearly` | src/pages/HomePage.tsx:37-50 | 15.99 a month plus 120 a year cost 25.99 a month and 311.88 a year |
| `Scenarios.TrendOfOneMonthlyPlan` | src/components/SpendingChart.tsx:13-32 | one 10-a-month plan gives twelve buckets of 10, the last for the current month |
| `Scenarios.BreakdownOfOnePlatform` | src/components/PlatformBreakdownChart.tsx:14-26 | two plans on one platform, 10 a month and 24 a year, give one slice of 12 |
| `Scenarios.EmptyDashboard` | src/pages/HomePage.tsx:37-50 | no subscriptions: the totals loop returns zero twice, there are no slices, and the twelve buckets hold zero |
| `Scenarios.ReopenAfterEdit` | src/components/AddSubscriptionDialog.tsx:74-90 | editing a plan, saving, re-rendering with the stored record and saving the reopened form untouched keeps the edit |

## Left out

- Persistence: the `persist` middleware, `localStorage`, JSON storage and the date reviver (`subscriptionStore.ts:44-53`). Rehydration is reduced to whether a state was delivered.
- Sources of time and identity: `crypto.randomUUID()` and `new Date()` are parameters. Fresh ids are assumed distinct only where a lemma says so.
- IEEE double arithmetic: prices are exact `real`s, so rounding and `toFixed(2)` are not modelled.
- `date-fns`: the bucket labels are `YearMonth` values, not `format(date, 'MMM')` strings. The unused `renewalMonth` in `SpendingChart.tsx:24` has no effect and is not modelled.
- Date validity: the schema's `z.date()` check is not modelled, since dates are integers and always valid. Prices are `real`s, which have no infinities.
- Inherited keys: reading `platformCosts[t]` for a title such as `"constructor"` reaches `Object.prototype`. The object model `Dict` has no prototype chain.
- The engine's sort: `Array.prototype.sort` is modelled by a value-level reference function (`Sorting.SortBy`), not by the engine's in-place algorithm. `SortedByRenewalUnique` shows that any stable sort yields the same result.
- Presentation: JSX, recharts, framer-motion, skeleton loaders and the other components (`AnalyticsDashboard`, `CurrencySelector`, `SubscriptionCard`).
- react-hook-form and zod mechanics: error messages, touched state and resolver plumbing. The schema is modelled as the predicate `Accepts`, and the form state as one `FormValues` record.
- Field change handlers: the platform select, the plan input, the cycle select and the date picker (`AddSubscriptionDialog.tsx:109-145, 172-227`) are folded into `AddSubscriptionDialog.Dialog.SetFields`.
- AddSubscriptionDialog.Dialog.Rerender: React compares the `subscription` prop by object identity, and the model compares it by value. A re-render with a new object holding equal fields resets an open form in the source but not in the model.
