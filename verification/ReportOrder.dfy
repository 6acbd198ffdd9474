/** The sorts of a usage report (llmsvc/activity.py): more requests first, then by name. */
module ReportOrder {
  import opened Collation
  import opened Options

  /** The sort key `(-requests, name)`. */
  datatype SortKey = SortKey(requests: int, name: Option<string>)

  /** Comparing the keys raises when the requests tie and only one of the names is text. */
  predicate Comparable(a: SortKey, b: SortKey) {
    a == b || a.requests != b.requests || (a.name.Some? && b.name.Some?)
  }

  predicate Precedes(a: SortKey, b: SortKey) {
    || a.requests > b.requests
    || (a.requests == b.requests && a.name.Some? && b.name.Some? && Less(a.name.value, b.name.value))
  }

  lemma PrecedesTransitive(a: SortKey, b: SortKey, c: SortKey)
    requires Precedes(a, b) && Precedes(b, c)
    ensures Precedes(a, c)
  {
    if a.requests == b.requests == c.requests {
      LessTransitive(a.name.value, b.name.value, c.name.value);
    }
  }

  lemma NeverBoth(a: SortKey, b: SortKey)
    ensures !(Precedes(a, b) && Precedes(b, a)) && !Precedes(a, a)
  {
    if Precedes(a, b) && Precedes(b, a) {
      PrecedesTransitive(a, b, a);
    }
    if a.name.Some? {
      LessIrreflexive(a.name.value);
    }
  }

  lemma PrecedesTotal(a: SortKey, b: SortKey)
    requires Comparable(a, b)
    ensures a == b || Precedes(a, b) || Precedes(b, a)
    ensures !(Precedes(a, b) && Precedes(b, a)) && !Precedes(a, a)
  {
    if a.requests == b.requests && a != b {
      LessTotal(a.name.value, b.name.value);
    }
    NeverBoth(a, b);
  }

  predicate Ascending<T(!new)>(items: seq<T>, key: T -> SortKey) {
    forall i, j | 0 <= i < j < |items| :: Precedes(key(items[i]), key(items[j]))
  }

  predicate AllComparable<T(!new)>(items: seq<T>, key: T -> SortKey) {
    forall i, j | 0 <= i < j < |items| :: Comparable(key(items[i]), key(items[j]))
  }

  predicate DistinctNames<T(!new)>(items: seq<T>, key: T -> SortKey) {
    forall i, j | 0 <= i < j < |items| :: key(items[i]).name != key(items[j]).name
  }

  /** Where the walk along a sorted list stops for x; None where a comparison raises. */
  function Place<T>(x: T, sorted: seq<T>, key: T -> SortKey): (place: Option<nat>)
    ensures place.Some? ==> place.value <= |sorted|
  {
    if sorted == [] then Some(0)
    else if !Comparable(key(x), key(sorted[0])) then None
    else if Precedes(key(x), key(sorted[0])) then Some(0)
    else
      var rest := Place(x, sorted[1..], key);
      if rest.None? then None else Some(rest.value + 1)
  }

  /** `list.sort`; None where it raises. */
  function Sorted<T>(items: seq<T>, key: T -> SortKey): Option<seq<T>> {
    if items == [] then Some([])
    else
      var front, x := Sorted(items[..|items| - 1], key), items[|items| - 1];
      if front.None? then None
      else
        var place := Place(x, front.value, key);
        if place.None? then None else Some(front.value[..place.value] + [x] + front.value[place.value..])
  }

  lemma {:induction false} PlaceMeans<T(!new)>(x: T, sorted: seq<T>, key: T -> SortKey)
    requires Ascending(sorted, key)
    requires forall i | 0 <= i < |sorted| :: key(sorted[i]).name != key(x).name
    ensures var place := Place(x, sorted, key);
            && (place.None? <==> exists i :: 0 <= i < |sorted| && !Comparable(key(x), key(sorted[i])))
            && (place.Some? ==>
                  && (forall i | 0 <= i < place.value :: Precedes(key(sorted[i]), key(x)))
                  && (forall i | place.value <= i < |sorted| :: Precedes(key(x), key(sorted[i]))))
  {
    if sorted != [] {
      var head, rest := sorted[0], sorted[1..];
      if Comparable(key(x), key(head)) {
        PrecedesTotal(key(x), key(head));
        if Precedes(key(x), key(head)) {
          forall i | 0 < i < |sorted| ensures Precedes(key(x), key(sorted[i])) && Comparable(key(x), key(sorted[i])) {
            PrecedesTransitive(key(x), key(head), key(sorted[i]));
          }
        } else {
          PlaceMeans(x, rest, key);
          var place := Place(x, rest, key);
          if i :| 0 <= i < |rest| && !Comparable(key(x), key(rest[i])) {
            assert sorted[i + 1] == rest[i];
          }
        }
      }
    }
  }

  lemma Inserted<T(!new)>(x: T, sorted: seq<T>, place: nat, key: T -> SortKey, grown: seq<T>)
    requires Ascending(sorted, key) && DistinctNames(sorted, key)
    requires place <= |sorted| && grown == sorted[..place] + [x] + sorted[place..]
    requires forall i | 0 <= i < |sorted| :: key(sorted[i]).name != key(x).name
    requires forall i | 0 <= i < place :: Precedes(key(sorted[i]), key(x))
    requires forall i | place <= i < |sorted| :: Precedes(key(x), key(sorted[i]))
    ensures Ascending(grown, key) && DistinctNames(grown, key)
    ensures multiset(grown) == multiset(sorted) + multiset{x}
  {
    hide Precedes;
    assert sorted == sorted[..place] + sorted[place..];
    forall i, j | 0 <= i < j < |grown|
      ensures Precedes(key(grown[i]), key(grown[j])) && key(grown[i]).name != key(grown[j]).name
    {
      assert grown[i] == if i < place then sorted[i] else if i == place then x else sorted[i - 1];
      assert grown[j] == if j < place then sorted[j] else if j == place then x else sorted[j - 1];
    }
  }

  /** What is asked of the members of a sorted list may be asked of the members of the list it came from. */
  lemma SameMembers<T(!new)>(x: T, items: seq<T>, sorted: seq<T>, key: T -> SortKey)
    requires multiset(items) == multiset(sorted)
    requires forall i | 0 <= i < |items| :: key(items[i]).name != key(x).name
    ensures forall i | 0 <= i < |sorted| :: key(sorted[i]).name != key(x).name
    ensures (exists i :: 0 <= i < |sorted| && !Comparable(key(x), key(sorted[i])))
            <==> (exists i :: 0 <= i < |items| && !Comparable(key(items[i]), key(x)))
  {
    forall i | 0 <= i < |sorted| ensures exists j :: 0 <= j < |items| && items[j] == sorted[i] {
      assert sorted[i] in multiset(sorted) && sorted[i] in multiset(items);
    }
    forall j | 0 <= j < |items| ensures exists i :: 0 <= i < |sorted| && sorted[i] == items[j] {
      assert items[j] in multiset(items) && items[j] in multiset(sorted);
    }
    if j :| 0 <= j < |items| && !Comparable(key(items[j]), key(x)) {
      var i :| 0 <= i < |sorted| && sorted[i] == items[j];
      assert !Comparable(key(x), key(sorted[i]));
    }
  }

  lemma ComparableSplits<T(!new)>(front: seq<T>, x: T, key: T -> SortKey)
    ensures AllComparable(front + [x], key)
            <==> AllComparable(front, key) && !exists i :: 0 <= i < |front| && !Comparable(key(front[i]), key(x))
  {
    hide Comparable;
    var items := front + [x];
    if AllComparable(items, key) {
      forall i | 0 <= i < |front| ensures Comparable(key(front[i]), key(x)) {
        assert items[i] == front[i] && items[|front|] == x;
      }
      forall i, j | 0 <= i < j < |front| ensures Comparable(key(front[i]), key(front[j])) {
        assert items[i] == front[i] && items[j] == front[j];
      }
    }
  }

  /** The sort of distinct names is a permutation in order, and raises exactly when some pair cannot be compared. */
  lemma {:induction false} SortedMeans<T(!new)>(items: seq<T>, key: T -> SortKey)
    requires DistinctNames(items, key)
    ensures Sorted(items, key).None? <==> !AllComparable(items, key)
    ensures Sorted(items, key).Some? ==>
              var sorted := Sorted(items, key).value;
              Ascending(sorted, key) && DistinctNames(sorted, key) && multiset(sorted) == multiset(items)
  {
    hide Precedes, Comparable, Place, Ascending, AllComparable;
    if items == [] {
      NothingToSort(items, key);
    } else {
      var front, x := items[..|items| - 1], items[|items| - 1];
      assert items == front + [x];
      SortedMeans(front, key);
      ComparableSplits(front, x, key);
      if Sorted(front, key).Some? {
        var sorted := Sorted(front, key).value;
        SameMembers(x, front, sorted, key);
        PlaceMeans(x, sorted, key);
        var place := Place(x, sorted, key);
        if place.Some? {
          Inserted(x, sorted, place.value, key, Sorted(items, key).value);
        }
      }
    }
  }

  lemma NothingToSort<T(!new)>(items: seq<T>, key: T -> SortKey)
    requires items == []
    ensures AllComparable(items, key) && Ascending(items, key)
  {
  }

  /** There is only one way to sort the same keys. */
  lemma {:induction false} OrderIsUnique<T(!new), U(!new)>(a: seq<T>, keyA: T -> SortKey, b: seq<U>, keyB: U -> SortKey)
    requires Ascending(a, keyA) && Ascending(b, keyB) && SameKeys(a, keyA, b, keyB) && SameKeys(b, keyB, a, keyA)
    ensures |a| == |b| && forall i | 0 <= i < |a| :: keyA(a[i]) == keyB(b[i])
  {
    if a == [] {
      NoKeys(a, keyA, b, keyB);
    } else if b == [] {
      NoKeys(b, keyB, a, keyA);
    } else {
      HeadsAgree(a, keyA, b, keyB);
      RestSame(a, keyA, b, keyB);
      RestSame(b, keyB, a, keyA);
      hide Precedes, SameKeys;
      OrderIsUnique(a[1..], keyA, b[1..], keyB);
      assert forall k | 0 < k < |a| :: a[k] == a[1..][k - 1] && b[k] == b[1..][k - 1];
    }
  }

  predicate HasKey<T(!new)>(items: seq<T>, key: T -> SortKey, k: SortKey) {
    exists i :: 0 <= i < |items| && key(items[i]) == k
  }

  /** Every key of a occurs in b. */
  predicate SameKeys<T(!new), U(!new)>(a: seq<T>, keyA: T -> SortKey, b: seq<U>, keyB: U -> SortKey) {
    forall i | 0 <= i < |a| :: HasKey(b, keyB, keyA(a[i]))
  }

  lemma NoKeys<T(!new), U(!new)>(a: seq<T>, keyA: T -> SortKey, b: seq<U>, keyB: U -> SortKey)
    requires a == [] && SameKeys(b, keyB, a, keyA)
    ensures b == []
  {
    assert b == [] || HasKey(a, keyA, keyB(b[0]));
  }

  lemma HeadsAgree<T(!new), U(!new)>(a: seq<T>, keyA: T -> SortKey, b: seq<U>, keyB: U -> SortKey)
    requires a != [] && b != [] && Ascending(a, keyA) && Ascending(b, keyB)
    requires SameKeys(a, keyA, b, keyB) && SameKeys(b, keyB, a, keyA)
    ensures keyA(a[0]) == keyB(b[0])
  {
    hide Precedes;
    assert HasKey(b, keyB, keyA(a[0])) && HasKey(a, keyA, keyB(b[0]));
    var j :| 0 <= j < |b| && keyB(b[j]) == keyA(a[0]);
    var i :| 0 <= i < |a| && keyA(a[i]) == keyB(b[0]);
    NeverBoth(keyA(a[0]), keyB(b[0]));
  }

  lemma RestSame<T(!new), U(!new)>(a: seq<T>, keyA: T -> SortKey, b: seq<U>, keyB: U -> SortKey)
    requires a != [] && b != [] && Ascending(a, keyA) && keyA(a[0]) == keyB(b[0])
    requires SameKeys(a, keyA, b, keyB)
    ensures Ascending(a[1..], keyA) && SameKeys(a[1..], keyA, b[1..], keyB)
  {
    hide Precedes;
    forall k | 0 <= k < |a| - 1 ensures HasKey(b[1..], keyB, keyA(a[1..][k])) {
      assert HasKey(b, keyB, keyA(a[k + 1]));
      var j :| 0 <= j < |b| && keyB(b[j]) == keyA(a[k + 1]);
      NeverBoth(keyA(a[0]), keyA(a[k + 1]));
      assert b[1..][j - 1] == b[j];
    }
  }
}
