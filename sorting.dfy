/** Python's stable `sorted(xs, key=key, reverse=True)` and `max(xs, key=key)`. */
module Sorting {

  predicate Descending<T>(s: seq<T>, key: T -> real) {
    forall i, j :: 0 <= i < j < |s| ==> key(s[i]) >= key(s[j])
  }

  /** Places `x` after every element whose key is at least its own, so that
      equal keys keep their original order. */
  function Insert<T>(x: T, s: seq<T>, key: T -> real): (r: seq<T>)
    ensures multiset(r) == multiset(s) + multiset{x}
    ensures |r| == |s| + 1
  {
    if s == [] then [x]
    else if key(s[0]) >= key(x) then
      assert s == [s[0]] + s[1..];
      [s[0]] + Insert(x, s[1..], key)
    else
      [x] + s
  }

  lemma {:induction false} InsertDescending<T>(x: T, s: seq<T>, key: T -> real)
    requires Descending(s, key)
    ensures Descending(Insert(x, s, key), key)
  {
    if s != [] && key(s[0]) >= key(x) {
      InsertDescending(x, s[1..], key);
      var rest := Insert(x, s[1..], key);
      forall j | 0 <= j < |rest| ensures key(s[0]) >= key(rest[j]) {
        assert rest[j] in multiset(rest);
        assert rest[j] == x || rest[j] in multiset(s[1..]);
        if rest[j] != x {
          var i :| 0 <= i < |s[1..]| && s[1..][i] == rest[j];
          assert s[i + 1] == rest[j];
        }
      }
    }
  }

  /** The stable descending sort: each element is inserted, in input order,
      behind the ones already placed with a key at least as large. */
  function SortDesc<T>(xs: seq<T>, key: T -> real): (r: seq<T>)
    ensures |r| == |xs| && multiset(r) == multiset(xs)
    ensures Descending(r, key)
  {
    if xs == [] then []
    else
      assert xs == xs[..|xs| - 1] + [xs[|xs| - 1]];
      InsertDescending(xs[|xs| - 1], SortDesc(xs[..|xs| - 1], key), key);
      Insert(xs[|xs| - 1], SortDesc(xs[..|xs| - 1], key), key)
  }

  /** The elements of `s` whose key is `k`, in their order in `s`. */
  function KeyFilter<T>(s: seq<T>, key: T -> real, k: real): seq<T> {
    if s == [] then []
    else (if key(s[0]) == k then [s[0]] else []) + KeyFilter(s[1..], key, k)
  }

  lemma {:induction false} KeyFilterAppend<T>(a: seq<T>, b: seq<T>, key: T -> real, k: real)
    ensures KeyFilter(a + b, key, k) == KeyFilter(a, key, k) + KeyFilter(b, key, k)
  {
    if a != [] {
      assert (a + b)[1..] == a[1..] + b;
      KeyFilterAppend(a[1..], b, key, k);
    } else {
      assert a + b == b;
    }
  }

  lemma {:induction false} KeyFilterNone<T>(s: seq<T>, key: T -> real, k: real)
    requires forall i :: 0 <= i < |s| ==> key(s[i]) != k
    ensures KeyFilter(s, key, k) == []
  {
    if s != [] {
      KeyFilterNone(s[1..], key, k);
    }
  }

  lemma KeyFilterCons<T>(y: T, t: seq<T>, key: T -> real, k: real)
    ensures KeyFilter([y] + t, key, k) == (if key(y) == k then [y] else []) + KeyFilter(t, key, k)
  {
    assert ([y] + t)[1..] == t;
  }

  /** Inserting into a descending list puts `x` behind every element of the
      same key. */
  lemma {:induction false} InsertKeyFilter<T>(x: T, s: seq<T>, key: T -> real, k: real)
    requires Descending(s, key)
    ensures KeyFilter(Insert(x, s, key), key, k) == KeyFilter(s, key, k) + (if key(x) == k then [x] else [])
  {
    if s == [] {
      KeyFilterCons(x, [], key, k);
      assert Insert(x, s, key) == [x] + [];
    } else if key(s[0]) >= key(x) {
      assert Descending(s[1..], key) by {
        forall i, j | 0 <= i < j < |s[1..]| ensures key(s[1..][i]) >= key(s[1..][j]) {
          assert s[1..][i] == s[i + 1] && s[1..][j] == s[j + 1];
        }
      }
      InsertKeyFilter(x, s[1..], key, k);
      InsertBehind(x, s, key, k);
    } else {
      InsertInFront(x, s, key, k);
    }
  }

  lemma InsertBehind<T>(x: T, s: seq<T>, key: T -> real, k: real)
    requires s != [] && key(s[0]) >= key(x)
    requires KeyFilter(Insert(x, s[1..], key), key, k) == KeyFilter(s[1..], key, k) + (if key(x) == k then [x] else [])
    ensures KeyFilter(Insert(x, s, key), key, k) == KeyFilter(s, key, k) + (if key(x) == k then [x] else [])
  {
    var f0 := if key(s[0]) == k then [s[0]] else [];
    var fx := if key(x) == k then [x] else [];
    var rest := Insert(x, s[1..], key);
    assert Insert(x, s, key) == [s[0]] + rest;
    KeyFilterCons(s[0], rest, key, k);
    ConsSplit(s);
    KeyFilterCons(s[0], s[1..], key, k);
    Assoc(f0, KeyFilter(s[1..], key, k), fx);
  }

  lemma InsertInFront<T>(x: T, s: seq<T>, key: T -> real, k: real)
    requires Descending(s, key)
    requires s != [] && key(s[0]) < key(x)
    ensures KeyFilter(Insert(x, s, key), key, k) == KeyFilter(s, key, k) + (if key(x) == k then [x] else [])
  {
    assert Insert(x, s, key) == [x] + s;
    KeyFilterCons(x, s, key, k);
    if key(x) == k {
      assert forall i :: 0 <= i < |s| ==> key(s[i]) != k by {
        forall i | 0 <= i < |s| ensures key(s[i]) != k {
          assert i == 0 || key(s[0]) >= key(s[i]);
        }
      }
      KeyFilterNone(s, key, k);
      assert KeyFilter(Insert(x, s, key), key, k) == [x];
    }
  }

  lemma Assoc<T>(a: seq<T>, b: seq<T>, c: seq<T>)
    ensures a + (b + c) == (a + b) + c
  {
  }

  lemma ConsSplit<T>(xs: seq<T>)
    requires xs != []
    ensures xs == [xs[0]] + xs[1..]
  {
  }

  lemma SnocSplit<T>(xs: seq<T>)
    requires xs != []
    ensures xs == xs[..|xs| - 1] + [xs[|xs| - 1]]
  {
  }

  lemma KeyFilterSingle<T>(x: T, key: T -> real, k: real)
    ensures KeyFilter([x], key, k) == if key(x) == k then [x] else []
  {
    assert [x][1..] == [];
  }

  lemma SortDescSnoc<T>(xs: seq<T>, key: T -> real)
    requires xs != []
    ensures SortDesc(xs, key) == Insert(xs[|xs| - 1], SortDesc(xs[..|xs| - 1], key), key)
  {
  }

  /** The sort is stable: the elements of each key come out in their input
      order. */
  lemma {:induction false} SortDescStable<T>(xs: seq<T>, key: T -> real, k: real)
    ensures KeyFilter(SortDesc(xs, key), key, k) == KeyFilter(xs, key, k)
  {
    if xs != [] {
      var init := xs[..|xs| - 1];
      var x := xs[|xs| - 1];
      var sorted := SortDesc(init, key);
      SortDescSnoc(xs, key);
      SortDescStable(init, key, k);
      InsertKeyFilter(x, sorted, key, k);
      SnocSplit(xs);
      KeyFilterAppend(init, [x], key, k);
      KeyFilterSingle(x, key, k);
    }
  }

  /** Index of the first element with the largest key: what `max` returns and
      what comes first out of the stable descending sort. */
  function FirstArgMax<T>(xs: seq<T>, key: T -> real): (m: nat)
    requires |xs| > 0
    ensures m < |xs|
    ensures forall j :: 0 <= j < |xs| ==> key(xs[j]) <= key(xs[m])
    ensures forall j :: 0 <= j < m ==> key(xs[j]) < key(xs[m])
  {
    if |xs| == 1 then 0
    else
      var m := FirstArgMax(xs[..|xs| - 1], key);
      if key(xs[m]) >= key(xs[|xs| - 1]) then m else |xs| - 1
  }

  lemma {:induction false} SortHeadIsFirstMax<T>(xs: seq<T>, key: T -> real)
    requires |xs| > 0
    ensures SortDesc(xs, key)[0] == xs[FirstArgMax(xs, key)]
  {
    if |xs| > 1 {
      var init := xs[..|xs| - 1];
      SortHeadIsFirstMax(init, key);
      var s := SortDesc(init, key);
      assert s[0] == init[FirstArgMax(init, key)];
    }
  }

  /** No two elements share the same `f` image. */
  predicate DistinctBy<T, U(==)>(s: seq<T>, f: T -> U) {
    forall i, j :: 0 <= i < j < |s| ==> f(s[i]) != f(s[j])
  }

  lemma {:induction false} InsertDistinct<T, U>(x: T, s: seq<T>, key: T -> real, f: T -> U)
    requires DistinctBy(s, f)
    requires forall y :: y in s ==> f(y) != f(x)
    ensures DistinctBy(Insert(x, s, key), f)
  {
    if s != [] && key(s[0]) >= key(x) {
      var rest := Insert(x, s[1..], key);
      forall y | y in s[1..] ensures f(y) != f(x) {
        assert y in s;
      }
      InsertDistinct(x, s[1..], key, f);
      forall k | 0 <= k < |rest| ensures f(s[0]) != f(rest[k]) {
        assert rest[k] in multiset(rest);
        if rest[k] != x {
          assert rest[k] in multiset(s[1..]);
          var j :| 0 <= j < |s[1..]| && s[1..][j] == rest[k];
          assert s[j + 1] == rest[k];
        }
      }
    } else if s != [] {
      forall k | 0 <= k < |s| ensures f(x) != f(s[k]) {
        assert s[k] in s;
      }
    }
  }

  /** Sorting rearranges the elements, so distinct images stay distinct. */
  lemma {:induction false} SortDescDistinct<T, U>(xs: seq<T>, key: T -> real, f: T -> U)
    requires DistinctBy(xs, f)
    ensures DistinctBy(SortDesc(xs, key), f)
  {
    if xs != [] {
      var init := xs[..|xs| - 1];
      var x := xs[|xs| - 1];
      SortDescDistinct(init, key, f);
      var s := SortDesc(init, key);
      forall y | y in s ensures f(y) != f(x) {
        assert y in multiset(init);
        var j :| 0 <= j < |init| && init[j] == y;
        assert xs[j] == y;
      }
      InsertDistinct(x, s, key, f);
    }
  }
}
