/** The application state: the subscription list, the selected currency code and the
    hydration flag, with the actions that replace them. The new lists are built the way the
    actions build them: an append (spread), a `map` that swaps in the record with a matching
    id, and a `filter` that drops the records with a given id. */
module SubscriptionStore {
  import opened Lists
  import opened Types

  /** `{ ...draft, id, createdAt }`: the record `addSubscription` appends. */
  function Created(d: Draft, id: string, now: int): (s: Subscription)
    ensures s.id == id && s.createdAt == now
    ensures DraftOf(s) == d
  {
    Subscription(id, d.platformName, d.planName, d.price, d.billingCycle, d.renewalDate, now)
  }

  predicate HasId(subs: seq<Subscription>, id: string)
  {
    exists i :: 0 <= i < |subs| && subs[i].id == id
  }

  predicate IdsDistinct(subs: seq<Subscription>)
  {
    forall i, j :: 0 <= i < j < |subs| ==> subs[i].id != subs[j].id
  }

  /** `subs.map(s => s.id === sub.id ? sub : s)` */
  function Replaced(subs: seq<Subscription>, sub: Subscription): (r: seq<Subscription>)
    ensures |r| == |subs|
    ensures forall i :: 0 <= i < |subs| ==> r[i] == (if subs[i].id == sub.id then sub else subs[i])
  {
    if subs == [] then []
    else [if subs[0].id == sub.id then sub else subs[0]] + Replaced(subs[1..], sub)
  }

  /** `subs.filter(s => s.id !== id)` */
  function Removed(subs: seq<Subscription>, id: string): (r: seq<Subscription>)
    ensures |r| <= |subs|
    ensures forall x :: x in r <==> x in subs && x.id != id
  {
    if subs == [] then []
    else (if subs[0].id != id then [subs[0]] else []) + Removed(subs[1..], id)
  }

  /** `Removed` is the generic `Filter` with the predicate of the source's callback; it is
      written head first so that the proofs about the store can peel off the first record. */
  lemma {:induction false} RemovedIsFilter(subs: seq<Subscription>, id: string)
    ensures Removed(subs, id) == Filter(subs, (s: Subscription) => s.id != id)
  {
    if subs != [] {
      var n := |subs| - 1;
      var front, last := subs[..n], subs[n];
      var keep := (s: Subscription) => s.id != id;
      RemovedIsFilter(front, id);
      assert subs == front + [last];
      RemovedConcat(front, [last], id);
      assert [last][1..] == [];
      FilterSnoc(front, last, keep);
      if last.id != id {
        assert Removed([last], id) == [last];
        assert Filter(subs, keep) == Filter(front, keep) + [last];
      } else {
        assert Removed([last], id) == [];
        assert Filter(subs, keep) == Filter(front, keep);
      }
    }
  }

  /** Replacing keeps every id where it was. */
  lemma ReplacedKeepsIds(subs: seq<Subscription>, sub: Subscription)
    ensures forall i :: 0 <= i < |subs| ==> Replaced(subs, sub)[i].id == subs[i].id
  {
  }

  lemma {:induction false} ReplacedAbsent(subs: seq<Subscription>, sub: Subscription)
    requires !HasId(subs, sub.id)
    ensures Replaced(subs, sub) == subs
  {
    var r := Replaced(subs, sub);
    assert forall i :: 0 <= i < |subs| ==> r[i] == subs[i];
  }

  lemma ReplacedIdempotent(subs: seq<Subscription>, sub: Subscription)
    ensures Replaced(Replaced(subs, sub), sub) == Replaced(subs, sub)
  {
  }

  lemma ReplacedPreservesDistinct(subs: seq<Subscription>, sub: Subscription)
    requires IdsDistinct(subs)
    ensures IdsDistinct(Replaced(subs, sub))
  {
    ReplacedKeepsIds(subs, sub);
  }

  /** Filtering distributes over concatenation: the survivors keep their relative order. */
  lemma {:induction false} RemovedConcat(a: seq<Subscription>, b: seq<Subscription>, id: string)
    ensures Removed(a + b, id) == Removed(a, id) + Removed(b, id)
  {
    if a == [] {
      assert a + b == b;
    } else {
      assert (a + b)[1..] == a[1..] + b;
      RemovedConcat(a[1..], b, id);
    }
  }

  lemma {:induction false} RemovedAbsent(subs: seq<Subscription>, id: string)
    requires !HasId(subs, id)
    ensures Removed(subs, id) == subs
  {
    if subs != [] {
      assert !HasId(subs[1..], id) by {
        forall i | 0 <= i < |subs| - 1 ensures subs[1..][i].id != id {
          assert subs[1..][i] == subs[i + 1];
        }
      }
      RemovedAbsent(subs[1..], id);
      assert subs == [subs[0]] + subs[1..];
    }
  }

  lemma RemovedLeavesNoMatch(subs: seq<Subscription>, id: string)
    ensures !HasId(Removed(subs, id), id)
  {
    var r := Removed(subs, id);
    forall i | 0 <= i < |r| ensures r[i].id != id {
      assert r[i] in r;
    }
  }

  /** Deleting twice is deleting once. */
  lemma RemovedIdempotent(subs: seq<Subscription>, id: string)
    ensures Removed(Removed(subs, id), id) == Removed(subs, id)
  {
    RemovedLeavesNoMatch(subs, id);
    RemovedAbsent(Removed(subs, id), id);
  }

  /** The survivors of a filter form a subsequence: their indices in the input increase. */
  lemma {:induction false} RemovedPreservesDistinct(subs: seq<Subscription>, id: string)
    requires IdsDistinct(subs)
    ensures IdsDistinct(Removed(subs, id))
  {
    if subs != [] {
      var tail := subs[1..];
      TailDistinct(subs);
      RemovedPreservesDistinct(tail, id);
      if subs[0].id != id {
        var r := Removed(subs, id);
        var rt := Removed(tail, id);
        assert r == [subs[0]] + rt;
        forall j | 0 < j < |r| ensures r[j].id != subs[0].id {
          assert r[j] == rt[j - 1];
          assert rt[j - 1] in tail;
        }
      }
    }
  }

  lemma TailDistinct(subs: seq<Subscription>)
    requires subs != [] && IdsDistinct(subs)
    ensures IdsDistinct(subs[1..])
    ensures !HasId(subs[1..], subs[0].id)
  {
    var tail := subs[1..];
    forall i, j | 0 <= i < j < |tail| ensures tail[i].id != tail[j].id {
      assert tail[i] == subs[i + 1] && tail[j] == subs[j + 1];
    }
    forall i | 0 <= i < |tail| ensures tail[i].id != subs[0].id {
      assert tail[i] == subs[i + 1];
    }
  }

  /** With distinct ids, deleting a present id removes exactly one entry. */
  lemma {:induction false} RemovedOne(subs: seq<Subscription>, id: string)
    requires IdsDistinct(subs) && HasId(subs, id)
    ensures |Removed(subs, id)| == |subs| - 1
  {
    TailDistinct(subs);
    var tail := subs[1..];
    if subs[0].id == id {
      RemovedAbsent(tail, id);
    } else {
      var k :| 0 <= k < |subs| && subs[k].id == id;
      assert tail[k - 1] == subs[k];
      RemovedOne(tail, id);
    }
  }

  lemma AppendPreservesDistinct(subs: seq<Subscription>, d: Draft, id: string, now: int)
    requires IdsDistinct(subs) && !HasId(subs, id)
    ensures IdsDistinct(subs + [Created(d, id, now)])
  {
    var r := subs + [Created(d, id, now)];
    forall i, j | 0 <= i < j < |r| ensures r[i].id != r[j].id {
      if j == |subs| {
        assert r[i] == subs[i];
      } else {
        assert r[i] == subs[i] && r[j] == subs[j];
      }
    }
  }

  /** One `addSubscription` call: the draft, the fresh id and the creation time. */
  datatype AddCall = AddCall(draft: Draft, id: string, now: int)

  /** The list after a series of `addSubscription` calls, in order. */
  function AddAll(subs: seq<Subscription>, calls: seq<AddCall>): seq<Subscription>
    decreases |calls|
  {
    if calls == [] then subs
    else AddAll(subs + [Created(calls[0].draft, calls[0].id, calls[0].now)], calls[1..])
  }

  lemma {:induction false} AddAllLength(subs: seq<Subscription>, calls: seq<AddCall>)
    ensures |AddAll(subs, calls)| == |subs| + |calls|
    decreases |calls|
  {
    if calls != [] {
      AddAllLength(subs + [Created(calls[0].draft, calls[0].id, calls[0].now)], calls[1..]);
    }
  }

  predicate CallIdsDistinct(calls: seq<AddCall>)
  {
    forall i, j :: 0 <= i < j < |calls| ==> calls[i].id != calls[j].id
  }

  /** A series of adds with pairwise distinct fresh ids leaves all ids pairwise distinct. */
  lemma {:induction false} AddAllDistinct(subs: seq<Subscription>, calls: seq<AddCall>)
    requires IdsDistinct(subs) && CallIdsDistinct(calls)
    requires forall i :: 0 <= i < |calls| ==> !HasId(subs, calls[i].id)
    ensures IdsDistinct(AddAll(subs, calls))
    decreases |calls|
  {
    if calls != [] {
      var c := calls[0];
      var next := subs + [Created(c.draft, c.id, c.now)];
      AppendPreservesDistinct(subs, c.draft, c.id, c.now);
      var rest := calls[1..];
      assert CallIdsDistinct(rest) by {
        forall i, j | 0 <= i < j < |rest| ensures rest[i].id != rest[j].id {
          assert rest[i] == calls[i + 1] && rest[j] == calls[j + 1];
        }
      }
      forall i | 0 <= i < |rest| ensures !HasId(next, rest[i].id) {
        assert rest[i] == calls[i + 1];
        assert !HasId(subs, calls[i + 1].id);
        forall k | 0 <= k < |next| ensures next[k].id != rest[i].id {
          if k < |subs| {
            assert next[k] == subs[k];
          }
        }
      }
      AddAllDistinct(next, rest);
    }
  }

  class Store {
    var subscriptions: seq<Subscription>
    var currency: string
    var hasHydrated: bool

    /** The initial state: no subscriptions, currency "USD", not yet hydrated. */
    constructor ()
      ensures subscriptions == [] && currency == "USD" && !hasHydrated
    {
      subscriptions := [];
      currency := "USD";
      hasHydrated := false;
    }

    method SetHasHydrated(state: bool)
      modifies this
      ensures hasHydrated == state
      ensures subscriptions == old(subscriptions) && currency == old(currency)
    {
      hasHydrated := state;
    }

    /** Appends the draft stamped with the given fresh id and creation time. */
    method AddSubscription(draft: Draft, freshId: string, now: int)
      modifies this
      ensures subscriptions == old(subscriptions) + [Created(draft, freshId, now)]
      ensures currency == old(currency) && hasHydrated == old(hasHydrated)
      ensures IdsDistinct(old(subscriptions)) && !HasId(old(subscriptions), freshId) ==> IdsDistinct(subscriptions)
    {
      if IdsDistinct(subscriptions) && !HasId(subscriptions, freshId) {
        AppendPreservesDistinct(subscriptions, draft, freshId, now);
      }
      subscriptions := subscriptions + [Created(draft, freshId, now)];
    }

    /** Replaces every entry whose id is `sub.id` by `sub`, in place; no match, no change. */
    method UpdateSubscription(sub: Subscription)
      modifies this
      ensures subscriptions == Replaced(old(subscriptions), sub)
      ensures !HasId(old(subscriptions), sub.id) ==> subscriptions == old(subscriptions)
      ensures IdsDistinct(old(subscriptions)) ==> IdsDistinct(subscriptions)
      ensures currency == old(currency) && hasHydrated == old(hasHydrated)
    {
      if !HasId(subscriptions, sub.id) {
        ReplacedAbsent(subscriptions, sub);
      }
      if IdsDistinct(subscriptions) {
        ReplacedPreservesDistinct(subscriptions, sub);
      }
      subscriptions := Replaced(subscriptions, sub);
    }

    /** Drops every entry whose id is `id`, keeping the others in order. */
    method DeleteSubscription(id: string)
      modifies this
      ensures subscriptions == Removed(old(subscriptions), id)
      ensures !HasId(old(subscriptions), id) ==> subscriptions == old(subscriptions)
      ensures IdsDistinct(old(subscriptions)) ==> IdsDistinct(subscriptions)
      ensures currency == old(currency) && hasHydrated == old(hasHydrated)
    {
      if !HasId(subscriptions, id) {
        RemovedAbsent(subscriptions, id);
      }
      if IdsDistinct(subscriptions) {
        RemovedPreservesDistinct(subscriptions, id);
      }
      subscriptions := Removed(subscriptions, id);
    }

    /** Sets the currency code; it is not checked against the known currencies. */
    method SetCurrency(code: string)
      modifies this
      ensures currency == code
      ensures subscriptions == old(subscriptions) && hasHydrated == old(hasHydrated)
    {
      currency := code;
    }

    /** The callback run once loading the persisted snapshot has finished: `delivered` is
        whether a state was handed to it (the load did not fail). */
    method OnRehydrate(delivered: bool)
      modifies this
      ensures hasHydrated == (old(hasHydrated) || delivered)
      ensures subscriptions == old(subscriptions) && currency == old(currency)
    {
      if delivered {
        SetHasHydrated(true);
      }
    }
  }

  /** Setting the same currency twice leaves the state of setting it once. */
  method SetCurrencyTwice(store: Store, code: string)
    modifies store
    ensures store.currency == code
    ensures store.subscriptions == old(store.subscriptions) && store.hasHydrated == old(store.hasHydrated)
  {
    store.SetCurrency(code);
    store.SetCurrency(code);
  }
}
