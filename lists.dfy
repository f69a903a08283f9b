/** Small list helpers shared by the model: an Option type and the first-match search
    that JavaScript's `Array.prototype.find` performs. */
module Lists {

  datatype Option<+T> = None | Some(value: T)

  /** Index of the first element satisfying `p`, or None when no element does
      (`find` returns that element, or `undefined`). */
  function FindIndex<T>(s: seq<T>, p: T -> bool): (r: Option<nat>)
    ensures r.Some? ==> r.value < |s| && p(s[r.value])
    ensures r.Some? ==> forall j :: 0 <= j < r.value ==> !p(s[j])
    ensures r.None? <==> forall j :: 0 <= j < |s| ==> !p(s[j])
  {
    if s == [] then None
    else if p(s[0]) then Some(0)
    else match FindIndex(s[1..], p)
      case None => None
      case Some(i) => Some(i + 1)
  }

  /** Sequences with the same multiset have the same members. */
  lemma SameMembers<T>(a: seq<T>, b: seq<T>)
    requires multiset(a) == multiset(b)
    ensures forall x :: x in a <==> x in b
  {
    forall x ensures x in a <==> x in b {
      assert x in a <==> x in multiset(a);
      assert x in b <==> x in multiset(b);
    }
  }

  predicate Distinct<T(==)>(s: seq<T>)
  {
    forall i, j :: 0 <= i < j < |s| ==> s[i] != s[j]
  }

  lemma {:induction false} DistinctCount<T>(a: seq<T>)
    requires Distinct(a)
    ensures forall v :: multiset(a)[v] <= 1
  {
    if a != [] {
      var tail := a[1..];
      assert Distinct(tail) by {
        forall i, j | 0 <= i < j < |tail| ensures tail[i] != tail[j] {
          assert tail[i] == a[i + 1] && tail[j] == a[j + 1];
        }
      }
      DistinctCount(tail);
      assert a == [a[0]] + tail;
      assert a[0] !in tail by {
        forall i | 0 <= i < |tail| ensures tail[i] != a[0] {
          assert tail[i] == a[i + 1];
        }
      }
    }
  }

  lemma DuplicateCount<T>(b: seq<T>, i: nat, j: nat)
    requires i < j < |b| && b[i] == b[j]
    ensures multiset(b)[b[i]] >= 2
  {
    assert b == b[..i] + [b[i]] + b[i + 1..j] + [b[j]] + b[j + 1..];
  }

  /** A permutation of a sequence without repetitions has none either. */
  lemma DistinctPermutation<T>(a: seq<T>, b: seq<T>)
    requires multiset(a) == multiset(b) && Distinct(a)
    ensures Distinct(b)
  {
    DistinctCount(a);
    forall i, j | 0 <= i < j < |b| ensures b[i] != b[j] {
      if b[i] == b[j] {
        DuplicateCount(b, i, j);
        assert false;
      }
    }
  }

  /** `s.filter(p)`, accumulated front to back. */
  function Filter<T>(s: seq<T>, p: T -> bool): seq<T>
  {
    if s == [] then [] else Filter(s[..|s| - 1], p) + if p(s[|s| - 1]) then [s[|s| - 1]] else []
  }

  lemma FilterSnoc<T>(s: seq<T>, t: T, p: T -> bool)
    ensures Filter(s + [t], p) == Filter(s, p) + if p(t) then [t] else []
  {
    assert (s + [t])[..|s|] == s;
  }

  lemma {:induction false} FilterMembers<T>(s: seq<T>, p: T -> bool)
    ensures forall x :: x in Filter(s, p) <==> x in s && p(x)
  {
    if s != [] {
      var n := |s| - 1;
      FilterMembers(s[..n], p);
      assert s == s[..n] + [s[n]];
    }
  }

  lemma {:induction false} FilterAll<T>(s: seq<T>, p: T -> bool)
    requires forall i :: 0 <= i < |s| ==> p(s[i])
    ensures Filter(s, p) == s
  {
    if s != [] {
      var n := |s| - 1;
      FilterAll(s[..n], p);
      assert s == s[..n] + [s[n]];
    }
  }

  lemma {:induction false} FilterNone<T>(s: seq<T>, p: T -> bool)
    requires forall i :: 0 <= i < |s| ==> !p(s[i])
    ensures Filter(s, p) == []
  {
    if s != [] {
      FilterNone(s[..|s| - 1], p);
    }
  }

  /** Filtering by a predicate and by its negation splits the elements between the two. */
  lemma {:induction false} FilterPartition<T>(s: seq<T>, p: T -> bool, q: T -> bool)
    requires forall x :: q(x) == !p(x)
    ensures multiset(Filter(s, p)) + multiset(Filter(s, q)) == multiset(s)
  {
    if s != [] {
      var n := |s| - 1;
      var front, t := s[..n], s[n];
      assert s == front + [t];
      FilterPartition(front, p, q);
      FilterSnoc(front, t, p);
      FilterSnoc(front, t, q);
      var fp, fq := Filter(front, p), Filter(front, q);
      if p(t) {
        assert Filter(s, p) == fp + [t] && Filter(s, q) == fq;
        assert multiset(fp + [t]) == multiset(fp) + multiset{t};
      } else {
        assert Filter(s, p) == fp && Filter(s, q) == fq + [t];
        assert multiset(fq + [t]) == multiset(fq) + multiset{t};
      }
      assert multiset(front + [t]) == multiset(front) + multiset{t};
    }
  }

  /** Each element once, in order of its first occurrence. */
  function FirstEncounter<T(==)>(s: seq<T>): seq<T>
  {
    if s == [] then []
    else
      var seen := FirstEncounter(s[..|s| - 1]);
      if s[|s| - 1] in seen then seen else seen + [s[|s| - 1]]
  }

  lemma FirstEncounterSnoc<T>(s: seq<T>, t: T)
    ensures FirstEncounter(s + [t]) == if t in FirstEncounter(s) then FirstEncounter(s) else FirstEncounter(s) + [t]
  {
    assert (s + [t])[..|s|] == s;
  }

  lemma {:induction false} FirstEncounterMembers<T>(s: seq<T>)
    ensures forall x :: x in FirstEncounter(s) <==> x in s
  {
    if s != [] {
      var n := |s| - 1;
      FirstEncounterMembers(s[..n]);
      assert s == s[..n] + [s[n]];
    }
  }

  lemma {:induction false} FirstEncounterDistinct<T>(s: seq<T>)
    ensures Distinct(FirstEncounter(s))
    ensures |FirstEncounter(s)| <= |s|
  {
    if s != [] {
      FirstEncounterDistinct(s[..|s| - 1]);
    }
  }

  /** Filtering commutes with keeping first occurrences. */
  lemma {:induction false} FilterFirstEncounter<T>(s: seq<T>, p: T -> bool)
    ensures Filter(FirstEncounter(s), p) == FirstEncounter(Filter(s, p))
  {
    if s != [] {
      var n := |s| - 1;
      var front, t := s[..n], s[n];
      assert s == front + [t];
      var seen := FirstEncounter(front);
      FilterFirstEncounter(front, p);
      FirstEncounterSnoc(front, t);
      FilterSnoc(front, t, p);
      if t in seen {
        assert FirstEncounter(s) == seen;
        if p(t) {
          FirstEncounterMembers(front);
          FilterMembers(front, p);
          FirstEncounterMembers(Filter(front, p));
          FirstEncounterSnoc(Filter(front, p), t);
          assert t in front;
          assert t in Filter(front, p);
          assert t in FirstEncounter(Filter(front, p));
          assert Filter(s, p) == Filter(front, p) + [t];
        } else {
          assert Filter(s, p) == Filter(front, p);
        }
      } else {
        assert FirstEncounter(s) == seen + [t];
        FilterSnoc(seen, t, p);
        if p(t) {
          FirstEncounterMembers(front);
          FilterMembers(front, p);
          FirstEncounterMembers(Filter(front, p));
          FirstEncounterSnoc(Filter(front, p), t);
          assert t !in front;
          assert t !in FirstEncounter(Filter(front, p));
          calc {
            Filter(FirstEncounter(s), p);
            Filter(seen + [t], p);
            Filter(seen, p) + [t];
            FirstEncounter(Filter(front, p)) + [t];
            FirstEncounter(Filter(front, p) + [t]);
            FirstEncounter(Filter(s, p));
          }
        } else {
          assert Filter(seen + [t], p) == Filter(seen, p);
          assert Filter(s, p) == Filter(front, p);
        }
      }
    }
  }
}
