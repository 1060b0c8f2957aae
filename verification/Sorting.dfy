/** A stable sort by a strict weak order, the contract of sort.SliceStable and
    sort.Strings: the comparator is a parameter, the algorithm plain insertion. */
module Sorting {
  ghost predicate StrictWeakOrder<T(!new)>(less: (T, T) -> bool) {
    && (forall x :: !less(x, x))
    && (forall x, y :: less(x, y) ==> !less(y, x))
    && (forall x, y, z :: !less(x, y) && !less(y, z) ==> !less(x, z))
  }

  /** No later element is strictly below an earlier one. */
  ghost predicate Sorted<T>(less: (T, T) -> bool, s: seq<T>) {
    forall i, j :: 0 <= i < j < |s| ==> !less(s[j], s[i])
  }

  function Insert<T>(less: (T, T) -> bool, x: T, s: seq<T>): seq<T> {
    if s == [] || !less(s[0], x) then [x] + s else [s[0]] + Insert(less, x, s[1..])
  }

  function Sort<T>(less: (T, T) -> bool, s: seq<T>): seq<T> {
    if s == [] then [] else Insert(less, s[0], Sort(less, s[1..]))
  }

  lemma {:induction false} InsertPermutes<T>(less: (T, T) -> bool, x: T, s: seq<T>)
    ensures multiset(Insert(less, x, s)) == multiset(s) + multiset{x}
  {
    if !(s == [] || !less(s[0], x)) {
      InsertPermutes(less, x, s[1..]);
      assert s == [s[0]] + s[1..];
    }
  }

  lemma {:induction false} SortPermutes<T>(less: (T, T) -> bool, s: seq<T>)
    ensures multiset(Sort(less, s)) == multiset(s)
    ensures |Sort(less, s)| == |s|
  {
    if s != [] {
      SortPermutes(less, s[1..]);
      InsertPermutes(less, s[0], Sort(less, s[1..]));
      assert s == [s[0]] + s[1..];
    }
    assert |multiset(Sort(less, s))| == |multiset(s)|;
  }

  lemma {:induction false} InsertSorted<T(!new)>(less: (T, T) -> bool, x: T, s: seq<T>)
    requires StrictWeakOrder(less) && Sorted(less, s)
    ensures Sorted(less, Insert(less, x, s))
  {
    var r := Insert(less, x, s);
    if s == [] || !less(s[0], x) {
      forall j | 0 < j < |r| ensures !less(r[j], x) {
        assert !less(r[j], s[0]) by { if j > 1 { assert !less(s[j - 1], s[0]); } }
      }
    } else {
      InsertSorted(less, x, s[1..]);
      var t := Insert(less, x, s[1..]);
      InsertPermutes(less, x, s[1..]);
      forall j | 0 <= j < |t| ensures !less(t[j], s[0]) {
        assert t[j] in multiset(t);
        if t[j] != x {
          assert t[j] in multiset(s[1..]);
          var k :| 0 <= k < |s[1..]| && s[1..][k] == t[j];
          assert !less(s[k + 1], s[0]);
        }
      }
      assert r == [s[0]] + t;
    }
  }

  lemma {:induction false} SortSorts<T(!new)>(less: (T, T) -> bool, s: seq<T>)
    requires StrictWeakOrder(less)
    ensures Sorted(less, Sort(less, s))
  {
    if s != [] {
      SortSorts(less, s[1..]);
      InsertSorted(less, s[0], Sort(less, s[1..]));
    }
  }

  function Filter<T>(p: T -> bool, s: seq<T>): seq<T> {
    if s == [] then [] else (if p(s[0]) then [s[0]] else []) + Filter(p, s[1..])
  }

  lemma {:induction false} InsertStable<T>(less: (T, T) -> bool, p: T -> bool, x: T, s: seq<T>)
    requires forall y, z :: y in [x] + s && z in [x] + s && p(y) && p(z) ==> !less(y, z)
    ensures Filter(p, Insert(less, x, s)) == Filter(p, [x] + s)
  {
    assert ([x] + s)[1..] == s;
    if !(s == [] || !less(s[0], x)) {
      assert !(p(s[0]) && p(x)) by { assert s[0] in [x] + s && x in [x] + s; }
      InsertStable(less, p, x, s[1..]);
      var t := Insert(less, x, s[1..]);
      assert Insert(less, x, s) == [s[0]] + t && ([s[0]] + t)[1..] == t;
      assert ([x] + s[1..])[1..] == s[1..];
    }
  }

  /** Stability: elements that the order does not tell apart keep their places. */
  lemma {:induction false} SortStable<T>(less: (T, T) -> bool, p: T -> bool, s: seq<T>)
    requires forall y, z :: y in s && z in s && p(y) && p(z) ==> !less(y, z)
    ensures Filter(p, Sort(less, s)) == Filter(p, s)
  {
    if s != [] {
      SortStable(less, p, s[1..]);
      var t := Sort(less, s[1..]);
      SortPermutes(less, s[1..]);
      forall y | y in [s[0]] + t ensures y in s {
        if y != s[0] { assert y in multiset(t); assert y in multiset(s[1..]); }
      }
      InsertStable(less, p, s[0], t);
      assert ([s[0]] + t)[1..] == t;
    }
  }

  lemma LeastHeadFirst<T>(less: (T, T) -> bool, s: seq<T>)
    requires s != [] && forall j :: 0 <= j < |s| ==> !less(s[j], s[0])
    ensures Sort(less, s) == [s[0]] + Sort(less, s[..0] + s[1..])
  {
    var tail := s[1..];
    SortPermutes(less, tail);
    var t := Sort(less, tail);
    if t != [] {
      assert t[0] in multiset(tail);
      assert t[0] in tail;
    }
    assert s[..0] + s[1..] == tail;
  }

  lemma InsertPastHead<T>(less: (T, T) -> bool, x: T, head: T, rest: seq<T>)
    requires less(head, x)
    ensures Insert(less, x, [head] + Sort(less, rest)) == [head] + Sort(less, [x] + rest)
  {
    assert ([x] + rest)[1..] == rest;
    assert ([head] + Sort(less, rest))[1..] == Sort(less, rest);
  }

  /** Sorting is selection: the earliest least element comes first, and what
      follows is the sorted rest. */
  lemma {:induction false} SortSelects<T>(less: (T, T) -> bool, s: seq<T>, k: nat)
    requires k < |s|
    requires forall j :: 0 <= j < |s| ==> !less(s[j], s[k])
    requires forall j :: 0 <= j < k ==> less(s[k], s[j])
    ensures Sort(less, s) == [s[k]] + Sort(less, s[..k] + s[k + 1..])
  {
    if k == 0 {
      LeastHeadFirst(less, s);
    } else {
      var tail := s[1..];
      assert tail[k - 1] == s[k];
      forall j | 0 <= j < |tail| ensures !less(tail[j], s[k]) { assert tail[j] == s[j + 1]; }
      forall j | 0 <= j < k - 1 ensures less(s[k], tail[j]) { assert tail[j] == s[j + 1]; }
      SortSelects(less, tail, k - 1);
      var rest := tail[..k - 1] + tail[k..];
      InsertPastHead(less, s[0], s[k], rest);
      assert s[..k] + s[k + 1..] == [s[0]] + rest;
    }
  }
}
