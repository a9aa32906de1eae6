/** The order-independent equality of two sensor lists used as the test
    oracle: both lists are sorted in place by uuid, then compared position by
    position through their canonical text. */
module ListEqual {
  import opened SensorTypes
  import opened Render

  /** Lexicographic "less than" on uuids by character code point, the
      ordering of the sensor slice; on valid UTF-8 it is the same as Go's
      byte-wise string order. A proper prefix is smaller than the longer
      string. */
  predicate UuidLess(a: string, b: string)
  {
    if a == [] then b != []
    else if b == [] then false
    else if a[0] != b[0] then a[0] < b[0]
    else UuidLess(a[1..], b[1..])
  }

  lemma {:induction false} UuidLessIrreflexive(a: string)
    ensures !UuidLess(a, a)
  {
    if a != [] {
      UuidLessIrreflexive(a[1..]);
    }
  }

  lemma {:induction false} UuidLessTransitive(a: string, b: string, c: string)
    requires UuidLess(a, b) && UuidLess(b, c)
    ensures UuidLess(a, c)
  {
    if a != [] && a[0] == b[0] && b[0] == c[0] {
      UuidLessTransitive(a[1..], b[1..], c[1..]);
    }
  }

  /** Any two different uuids are ordered one way or the other. */
  lemma {:induction false} UuidLessTotal(a: string, b: string)
    requires a != b
    ensures UuidLess(a, b) || UuidLess(b, a)
  {
    if a != [] && b != [] && a[0] == b[0] {
      assert a == [a[0]] + a[1..] && b == [b[0]] + b[1..];
      UuidLessTotal(a[1..], b[1..]);
    }
  }

  /** "Not greater": the order in which a sorted list keeps its neighbours. */
  predicate UuidLe(a: string, b: string)
  {
    !UuidLess(b, a)
  }

  lemma UuidLessAsymmetric(a: string, b: string)
    requires UuidLess(a, b)
    ensures !UuidLess(b, a)
  {
    if UuidLess(b, a) {
      UuidLessTransitive(a, b, a);
      UuidLessIrreflexive(a);
    }
  }

  lemma UuidLeAntisymmetric(a: string, b: string)
    requires UuidLe(a, b) && UuidLe(b, a)
    ensures a == b
  {
    if a != b {
      UuidLessTotal(a, b);
    }
  }

  lemma UuidLeTransitive(a: string, b: string, c: string)
    requires UuidLe(a, b) && UuidLe(b, c)
    ensures UuidLe(a, c)
  {
    if UuidLess(c, a) {
      if a == b {
      } else {
        UuidLessTotal(a, b);
        UuidLessTransitive(c, a, b);
      }
    }
  }

  /** Ascending by uuid: no sensor has a smaller uuid than one before it. */
  ghost predicate SortedByUuid(s: seq<Sensor>)
  {
    forall k, l :: 0 <= k < l < |s| ==> UuidLe(s[k].uuid, s[l].uuid)
  }

  /** No two sensors share a uuid. */
  ghost predicate DistinctUuids(s: seq<Sensor>)
  {
    forall k, l :: 0 <= k < l < |s| ==> s[k].uuid != s[l].uuid
  }

  /** In a list with distinct uuids, a sensor occurs at most once, and two
      members with the same uuid are the same sensor. */
  lemma {:induction false} DistinctOccurrences(x: seq<Sensor>)
    requires DistinctUuids(x)
    ensures forall e :: multiset(x)[e] <= 1
    ensures forall e1, e2 :: e1 in x && e2 in x && e1.uuid == e2.uuid ==> e1 == e2
  {
    if x != [] {
      DistinctOccurrences(x[1..]);
      assert x == [x[0]] + x[1..];
      assert forall e :: e in x[1..] ==> e.uuid != x[0].uuid;
    }
  }

  /** A sensor found at two positions occurs at least twice. */
  lemma OccurrencesOfPair(y: seq<Sensor>, k: nat, l: nat)
    requires k < l < |y|
    ensures multiset(y)[y[k]] >= if y[l] == y[k] then 2 else 1
  {
    assert y == y[..l] + y[l..];
    assert y[k] in y[..l] && y[l] in y[l..];
  }

  /** Rearranging a list keeps its uuids distinct. */
  lemma PermutationKeepsDistinct(x: seq<Sensor>, y: seq<Sensor>)
    requires multiset(x) == multiset(y)
    requires DistinctUuids(x)
    ensures DistinctUuids(y)
  {
    DistinctOccurrences(x);
    forall k, l | 0 <= k < l < |y|
      ensures y[k].uuid != y[l].uuid
    {
      assert y[k] in multiset(x) && y[l] in multiset(x);
      OccurrencesOfPair(y, k, l);
    }
  }

  /** Two non-empty lists sorted by uuid that hold the same sensors, with
      distinct uuids, start with the same sensor. */
  lemma SortedHeadsAgree(a: seq<Sensor>, b: seq<Sensor>)
    requires a != [] && b != []
    requires SortedByUuid(a) && SortedByUuid(b)
    requires multiset(a) == multiset(b)
    requires DistinctUuids(a)
    ensures a[0] == b[0]
  {
    assert a[0] in multiset(b) && b[0] in multiset(a);
    var i :| 0 <= i < |a| && a[i] == b[0];
    var j :| 0 <= j < |b| && b[j] == a[0];
    UuidLessIrreflexive(a[0].uuid);
    assert UuidLe(a[0].uuid, a[i].uuid) && UuidLe(b[0].uuid, b[j].uuid);
    UuidLeAntisymmetric(a[0].uuid, b[0].uuid);
  }

  /** Dropping the first sensor keeps a list sorted and its uuids distinct. */
  lemma TailKeepsOrder(a: seq<Sensor>)
    requires a != []
    ensures SortedByUuid(a) ==> SortedByUuid(a[1..])
    ensures DistinctUuids(a) ==> DistinctUuids(a[1..])
    ensures multiset(a[1..]) == multiset(a) - multiset{a[0]}
    ensures a == [a[0]] + a[1..]
  {
    assert a == [a[0]] + a[1..];
    assert multiset(a) == multiset{a[0]} + multiset(a[1..]);
  }

  /** Two lists sorted by uuid that hold the same sensors, with distinct
      uuids, are the same list: the sorted order is unique. */
  lemma {:induction false} SortedUnique(a: seq<Sensor>, b: seq<Sensor>)
    requires SortedByUuid(a) && SortedByUuid(b)
    requires multiset(a) == multiset(b)
    requires DistinctUuids(a)
    ensures a == b
  {
    assert |a| == |multiset(a)| == |multiset(b)| == |b|;
    if a != [] {
      SortedHeadsAgree(a, b);
      TailKeepsOrder(a);
      TailKeepsOrder(b);
      SortedUnique(a[1..], b[1..]);
    }
  }

  /** Inserts a sensor before the first stored one whose uuid is not
      smaller. */
  function Insert(x: Sensor, s: seq<Sensor>): (r: seq<Sensor>)
    ensures |r| == |s| + 1
    ensures multiset(r) == multiset(s) + multiset{x}
  {
    if s == [] || !UuidLess(s[0].uuid, x.uuid) then [x] + s
    else assert s == [s[0]] + s[1..]; [s[0]] + Insert(x, s[1..])
  }

  lemma {:induction false} InsertSorted(x: Sensor, s: seq<Sensor>)
    requires SortedByUuid(s)
    ensures SortedByUuid(Insert(x, s))
  {
    var r := Insert(x, s);
    if s == [] {
    } else if !UuidLess(s[0].uuid, x.uuid) {
      forall l | 1 <= l < |r|
        ensures UuidLe(x.uuid, r[l].uuid)
      {
        if l > 1 {
          UuidLeTransitive(x.uuid, s[0].uuid, s[l - 1].uuid);
        }
      }
    } else {
      InsertSorted(x, s[1..]);
      var t := Insert(x, s[1..]);
      assert r == [s[0]] + t;
      forall l | 0 <= l < |t|
        ensures UuidLe(s[0].uuid, t[l].uuid)
      {
        assert t[l] in multiset(s[1..]) + multiset{x};
        if t[l] != x {
          assert t[l] in s[1..];
        } else {
          UuidLessIrreflexive(x.uuid);
          if UuidLess(x.uuid, s[0].uuid) {
            UuidLessTransitive(x.uuid, s[0].uuid, x.uuid);
          }
        }
      }
    }
  }

  /** Reference sort by uuid: insertion of each sensor into the sorted rest. */
  function Sort(s: seq<Sensor>): (r: seq<Sensor>)
    ensures |r| == |s|
    ensures multiset(r) == multiset(s)
  {
    if s == [] then [] else assert s == [s[0]] + s[1..]; Insert(s[0], Sort(s[1..]))
  }

  lemma {:induction false} SortSorted(s: seq<Sensor>)
    ensures SortedByUuid(Sort(s))
  {
    if s != [] {
      SortSorted(s[1..]);
      InsertSorted(s[0], Sort(s[1..]));
    }
  }

  /** With distinct uuids, every list sorted by uuid that holds the same
      sensors as s is the reference sort of s. */
  lemma SortedIsSort(a: seq<Sensor>, s: seq<Sensor>)
    requires SortedByUuid(a) && multiset(a) == multiset(s)
    requires DistinctUuids(s)
    ensures a == Sort(s)
  {
    SortSorted(s);
    PermutationKeepsDistinct(s, a);
    SortedUnique(a, Sort(s));
  }

  /** Two lists of the same length whose sensors have the same canonical
      text at every position. */
  predicate TextsAgree(x: seq<Sensor>, y: seq<Sensor>)
  {
    |x| == |y| && forall k :: 0 <= k < |x| ==> SensorString(x[k]) == SensorString(y[k])
  }

  /** The oracle's verdict on two lists with distinct uuids: equal length,
      and equal canonical text at every position once both are sorted. */
  ghost predicate SensorListsEqual(i: seq<Sensor>, j: seq<Sensor>)
  {
    |i| == |j| && TextsAgree(Sort(i), Sort(j))
  }

  /** Lists of different lengths are never equal. */
  lemma LengthsDiffer(i: seq<Sensor>, j: seq<Sensor>)
    requires |i| != |j|
    ensures !SensorListsEqual(i, j)
  {
  }

  /** The verdict does not depend on the order of the first list. */
  lemma OrderIndependent(i: seq<Sensor>, i2: seq<Sensor>, j: seq<Sensor>)
    requires multiset(i) == multiset(i2)
    requires DistinctUuids(i)
    ensures SensorListsEqual(i, j) == SensorListsEqual(i2, j)
  {
    SortSorted(i2);
    SortedIsSort(Sort(i2), i);
  }

  /** The verdict does not depend on the order of the second list. */
  lemma OrderIndependentSecond(i: seq<Sensor>, j: seq<Sensor>, j2: seq<Sensor>)
    requires multiset(j) == multiset(j2)
    requires DistinctUuids(j)
    ensures SensorListsEqual(i, j) == SensorListsEqual(i, j2)
  {
    SortSorted(j2);
    SortedIsSort(Sort(j2), j);
  }

  /** Two rearrangements of the same sensors, with distinct uuids, are
      judged equal. */
  lemma PermutationsEqual(i: seq<Sensor>, j: seq<Sensor>)
    requires multiset(i) == multiset(j)
    requires DistinctUuids(i)
    ensures SensorListsEqual(i, j)
  {
    SortSorted(j);
    SortedIsSort(Sort(j), i);
  }

  /** Midway through inserting the element at i into the sorted prefix: it
      has been moved down to j, the first i + 1 elements other than it are in
      order, and it is not greater than any element after it. */
  ghost predicate Inserting(s: seq<Sensor>, i: nat, j: nat)
  {
    && j <= i < |s|
    && (forall k, l :: 0 <= k < l <= i && k != j && l != j ==> UuidLe(s[k].uuid, s[l].uuid))
    && (forall l :: j < l <= i ==> UuidLe(s[j].uuid, s[l].uuid))
  }

  lemma StartInserting(s: seq<Sensor>, i: nat)
    requires i < |s| && SortedByUuid(s[..i])
    ensures Inserting(s, i, i)
  {
    assert forall k :: 0 <= k < i ==> s[..i][k] == s[k];
  }

  /** Swapping the moving element with a greater left neighbour moves it one
      place down. */
  lemma SwapStep(s: seq<Sensor>, i: nat, j: nat)
    requires Inserting(s, i, j) && 0 < j
    requires UuidLess(s[j].uuid, s[j - 1].uuid)
    ensures Inserting(s[j - 1 := s[j]][j := s[j - 1]], i, j - 1)
  {
    UuidLessAsymmetric(s[j].uuid, s[j - 1].uuid);
  }

  /** Once the moving element is not smaller than its left neighbour, the
      first i + 1 elements are sorted. */
  lemma InsertedPrefixSorted(s: seq<Sensor>, i: nat, j: nat)
    requires Inserting(s, i, j)
    requires j > 0 ==> UuidLe(s[j - 1].uuid, s[j].uuid)
    ensures SortedByUuid(s[..i + 1])
  {
    forall k, l | 0 <= k < l <= i
      ensures UuidLe(s[k].uuid, s[l].uuid)
    {
      if k != j && l == j && k < j - 1 {
        UuidLeTransitive(s[k].uuid, s[j - 1].uuid, s[j].uuid);
      }
    }
  }

  /** Exchanges two sensors of the slice. */
  method Swap(a: array<Sensor>, i: nat, j: nat)
    requires i < a.Length && j < a.Length
    modifies a
    ensures a[..] == old(a[..])[i := old(a[j])][j := old(a[i])]
  {
    a[i], a[j] := a[j], a[i];
  }

  lemma SwapKeepsSensors(s: seq<Sensor>, i: nat, j: nat)
    requires i < |s| && j < |s|
    ensures multiset(s[i := s[j]][j := s[i]]) == multiset(s)
  {
  }

  /** Moves the sensor at i down into the sorted prefix before it. */
  method InsertDown(a: array<Sensor>, i: nat)
    requires i < a.Length && SortedByUuid(a[..i])
    modifies a
    ensures SortedByUuid(a[..i + 1])
    ensures multiset(a[..]) == multiset(old(a[..]))
  {
    StartInserting(a[..], i);
    var j := i;
    while j > 0 && UuidLess(a[j].uuid, a[j - 1].uuid)
      invariant 0 <= j <= i
      invariant Inserting(a[..], i, j)
      invariant multiset(a[..]) == multiset(old(a[..]))
    {
      SwapDown(a, i, j);
      j := j - 1;
    }
    ghost var s := a[..];
    assert j > 0 ==> UuidLe(s[j - 1].uuid, s[j].uuid);
    InsertedPrefixSorted(s, i, j);
    assert s[..i + 1] == a[..i + 1];
  }

  /** One step of the insertion: swaps the moving sensor with its greater
      left neighbour. */
  method SwapDown(a: array<Sensor>, i: nat, j: nat)
    requires Inserting(a[..], i, j) && 0 < j
    requires UuidLess(a[j].uuid, a[j - 1].uuid)
    modifies a
    ensures Inserting(a[..], i, j - 1)
    ensures multiset(a[..]) == multiset(old(a[..]))
  {
    ghost var s := a[..];
    SwapStep(s, i, j);
    SwapKeepsSensors(s, j - 1, j);
    Swap(a, j - 1, j);
  }

  /** Sorts the sensors in place by uuid, by swapping neighbours. */
  method SortByUuid(a: array<Sensor>)
    modifies a
    ensures SortedByUuid(a[..])
    ensures multiset(a[..]) == multiset(old(a[..]))
  {
    var i := 0;
    while i < a.Length
      invariant 0 <= i <= a.Length
      invariant SortedByUuid(a[..i])
      invariant multiset(a[..]) == multiset(old(a[..]))
    {
      InsertDown(a, i);
      i := i + 1;
    }
    assert a[..a.Length] == a[..];
  }

  /** Compares two sensor lists irrespective of order: false on different
      lengths; otherwise sorts both in place by uuid and compares their
      canonical texts position by position. */
  method SensorListEqual(i: array<Sensor>, j: array<Sensor>) returns (eq: bool)
    modifies i, j
    ensures i.Length != j.Length ==> !eq && i[..] == old(i[..]) && j[..] == old(j[..])
    ensures i.Length == j.Length ==>
      SortedByUuid(i[..]) && multiset(i[..]) == multiset(old(i[..]))
      && SortedByUuid(j[..]) && multiset(j[..]) == multiset(old(j[..]))
      && (eq <==> TextsAgree(i[..], j[..]))
    ensures DistinctUuids(old(i[..])) && DistinctUuids(old(j[..])) ==>
      eq == SensorListsEqual(old(i[..]), old(j[..]))
  {
    if i.Length != j.Length {
      return false;
    }
    SortByUuid(i);
    ghost var si := i[..];
    SortByUuid(j);
    assert i != j ==> i[..] == si;
    eq := CompareTexts(i, j);
    if DistinctUuids(old(i[..])) && DistinctUuids(old(j[..])) {
      SortedIsSort(i[..], old(i[..]));
      SortedIsSort(j[..], old(j[..]));
    }
  }

  /** Compares the canonical texts of two equally long lists position by
      position, stopping at the first difference. */
  method CompareTexts(i: array<Sensor>, j: array<Sensor>) returns (eq: bool)
    requires i.Length == j.Length
    ensures eq <==> TextsAgree(i[..], j[..])
  {
    var k := 0;
    while k < i.Length
      invariant 0 <= k <= i.Length
      invariant forall m :: 0 <= m < k ==> SensorString(i[m]) == SensorString(j[m])
    {
      if SensorString(i[k]) != SensorString(j[k]) {
        return false;
      }
      k := k + 1;
    }
    return true;
  }
}
