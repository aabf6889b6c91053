/** Generic sequence operations shared by every part of the model: the
    `Array.prototype` methods the application relies on (`filter`, `find`,
    a stable `sort` by an integer key) and the facts proved about them. */
module Seqs {

  datatype Option<+T> = None | Some(value: T) {
    function GetOr(default: T): T {
      match this
      case Some(v) => v
      case None => default
    }
  }

  /** `a` occurs in `b` in the same order, possibly with gaps. */
  predicate IsSubseq<T(==)>(a: seq<T>, b: seq<T>)
    decreases |b|
  {
    a == [] ||
    (b != [] && ((a[0] == b[0] && IsSubseq(a[1..], b[1..])) || IsSubseq(a, b[1..])))
  }

  /** `s.filter(p)`: the elements satisfying `p`, in their original order. */
  function Filter<T(==,!new)>(s: seq<T>, p: T -> bool): (r: seq<T>)
    ensures |r| <= |s|
    ensures forall x :: x in r <==> x in s && p(x)
    decreases |s|
  {
    if s == [] then []
    else
      assert s == [s[0]] + s[1..];
      (if p(s[0]) then [s[0]] else []) + Filter(s[1..], p)
  }

  /** A filter is an order-preserving subsequence of its input. */
  lemma {:induction false} FilterSubseq<T(!new)>(s: seq<T>, p: T -> bool)
    ensures IsSubseq(Filter(s, p), s)
    decreases |s|
  {
    if s != [] {
      FilterSubseq(s[1..], p);
      var r := Filter(s, p);
      if p(s[0]) {
        assert r[0] == s[0] && r[1..] == Filter(s[1..], p);
      } else {
        assert r == Filter(s[1..], p);
      }
    }
  }

  /** A filter keeps everything when every element passes. */
  lemma {:induction false} FilterAll<T(!new)>(s: seq<T>, p: T -> bool)
    requires forall i :: 0 <= i < |s| ==> p(s[i])
    ensures Filter(s, p) == s
    decreases |s|
  {
    if s != [] {
      assert p(s[0]);
      assert forall i :: 0 <= i < |s[1..]| ==> p(s[1..][i]);
      FilterAll(s[1..], p);
      calc {
        Filter(s, p);
        [s[0]] + Filter(s[1..], p);
        [s[0]] + s[1..];
        s;
      }
    }
  }

  /** A filter only drops elements: its multiset is included in the input's. */
  lemma {:induction false} FilterMultiset<T(!new)>(s: seq<T>, p: T -> bool)
    ensures multiset(Filter(s, p)) <= multiset(s)
    decreases |s|
  {
    if s != [] {
      FilterMultiset(s[1..], p);
      assert s == [s[0]] + s[1..];
    }
  }

  lemma FilterCons<T(!new)>(x: T, s: seq<T>, p: T -> bool)
    ensures Filter([x] + s, p) == (if p(x) then [x] else []) + Filter(s, p)
  {
    assert ([x] + s)[0] == x && ([x] + s)[1..] == s;
  }

  /** Filtering distributes over concatenation: the filter keeps order. */
  lemma {:induction false} FilterAppend<T(!new)>(a: seq<T>, b: seq<T>, p: T -> bool)
    ensures Filter(a + b, p) == Filter(a, p) + Filter(b, p)
    decreases |a|
  {
    if a == [] {
      assert a + b == b;
    } else {
      var x, rest := a[0], a[1..];
      var e := if p(x) then [x] else [];
      calc {
        Filter(a + b, p);
        { assert a + b == [x] + (rest + b); }
        Filter([x] + (rest + b), p);
        { FilterCons(x, rest + b, p); }
        e + Filter(rest + b, p);
        { FilterAppend(rest, b, p); }
        e + (Filter(rest, p) + Filter(b, p));
        (e + Filter(rest, p)) + Filter(b, p);
        { FilterCons(x, rest, p); assert a == [x] + rest; }
        Filter(a, p) + Filter(b, p);
      }
    }
  }

  /** `s.filter(p).length`. */
  function Count<T(==,!new)>(s: seq<T>, p: T -> bool): (n: nat)
    ensures n <= |s|
    ensures n == 0 <==> forall x :: x in s ==> !p(x)
  {
    var r := Filter(s, p);
    assert r != [] ==> r[0] in r;
    |r|
  }

  /** Taking one element out of a sequence takes it out of its multiset. */
  lemma MultisetRemoveAt<T>(b: seq<T>, j: nat)
    requires j < |b|
    ensures multiset(b[..j] + b[j + 1..]) == multiset(b) - multiset{b[j]}
  {
    assert b == b[..j] + [b[j]] + b[j + 1..];
  }

  /** Taking one element out of a sequence lowers the filter's length by
      one exactly when the element satisfies `p`. */
  lemma FilterRemoveAt<T(!new)>(b: seq<T>, j: nat, p: T -> bool)
    requires j < |b|
    ensures |Filter(b, p)| == |Filter(b[..j] + b[j + 1..], p)| + (if p(b[j]) then 1 else 0)
  {
    var left, x, right := b[..j], b[j], b[j + 1..];
    assert b == left + ([x] + right);
    FilterAppend(left, [x] + right, p);
    FilterCons(x, right, p);
    FilterAppend(left, right, p);
  }

  /** A count does not depend on the order of the elements: a permutation
      has as many elements satisfying `p`. */
  lemma {:induction false} CountPermutation<T(!new)>(a: seq<T>, b: seq<T>, p: T -> bool)
    requires multiset(a) == multiset(b)
    ensures |Filter(a, p)| == |Filter(b, p)|
    decreases |a|
  {
    if a == [] {
      assert |b| == |multiset(b)| == 0;
    } else {
      var x := a[0];
      assert a == [x] + a[1..];
      assert x in multiset(b);
      var j :| 0 <= j < |b| && b[j] == x;
      MultisetRemoveAt(a, 0);
      MultisetRemoveAt(b, j);
      assert a[..0] + a[1..] == a[1..];
      CountPermutation(a[1..], b[..j] + b[j + 1..], p);
      FilterRemoveAt(a, 0, p);
      FilterRemoveAt(b, j, p);
    }
  }

  /** Index of the first element satisfying `p` (`findIndex`), if any. */
  function FirstIndex<T>(s: seq<T>, p: T -> bool): (r: Option<nat>)
    ensures r.None? <==> forall i :: 0 <= i < |s| ==> !p(s[i])
    ensures r.Some? ==> r.value < |s| && p(s[r.value])
    ensures r.Some? ==> forall j :: 0 <= j < r.value ==> !p(s[j])
    decreases |s|
  {
    if s == [] then None
    else if p(s[0]) then Some(0)
    else
      match FirstIndex(s[1..], p)
      case None => None
      case Some(i) => Some(i + 1)
  }

  /** `s.find(p)`: the first element satisfying `p`, or none. */
  function Find<T>(s: seq<T>, p: T -> bool): (r: Option<T>)
    ensures r.None? <==> forall i :: 0 <= i < |s| ==> !p(s[i])
    ensures r.Some? ==> FirstIndex(s, p).Some? && r.value == s[FirstIndex(s, p).value]
  {
    match FirstIndex(s, p)
    case None => None
    case Some(i) => Some(s[i])
  }

  /** The element a successful `Find` returns lies in the sequence and satisfies `p`. */
  lemma FindSound<T>(s: seq<T>, p: T -> bool)
    ensures Find(s, p).Some? ==> Find(s, p).value in s && p(Find(s, p).value)
  {
  }

  // ---------------------------------------------------------------------
  // Stable sort by an integer key (the engine's `Array.prototype.sort`
  // is stable; the comparators in the source subtract two keys).

  ghost predicate SortedBy<T>(s: seq<T>, key: T -> int) {
    forall i, j :: 0 <= i < j < |s| ==> key(s[i]) <= key(s[j])
  }

  /** The last element of a sorted sequence has the largest key. */
  lemma SortedLastIsMax<T>(s: seq<T>, key: T -> int)
    requires SortedBy(s, key) && s != []
    ensures forall x :: x in s ==> key(x) <= key(s[|s| - 1])
  {
    forall x | x in s ensures key(x) <= key(s[|s| - 1]) {
      var i :| 0 <= i < |s| && s[i] == x;
      if i < |s| - 1 {
        assert key(s[i]) <= key(s[|s| - 1]);
      }
    }
  }

  /** The elements whose key is `k`, in order. Stability means a sort keeps
      every such class unchanged. */
  function KeyClass<T(==,!new)>(s: seq<T>, key: T -> int, k: int): seq<T> {
    Filter(s, x => key(x) == k)
  }

  function Insert<T>(x: T, t: seq<T>, key: T -> int): (r: seq<T>)
    ensures |r| == |t| + 1
    ensures multiset(r) == multiset(t) + multiset{x}
    decreases |t|
  {
    if t == [] then [x]
    else if key(x) <= key(t[0]) then [x] + t
    else
      assert t == [t[0]] + t[1..];
      [t[0]] + Insert(x, t[1..], key)
  }

  lemma {:induction false} InsertSorted<T>(x: T, t: seq<T>, key: T -> int)
    requires SortedBy(t, key)
    ensures SortedBy(Insert(x, t, key), key)
    ensures t != [] ==> Insert(x, t, key)[0] == (if key(x) <= key(t[0]) then x else t[0])
    decreases |t|
  {
    if t != [] && key(t[0]) < key(x) {
      InsertSorted(x, t[1..], key);
    }
  }

  /** `s.sort((a, b) => key(a) - key(b))`: ascending by key, stable. */
  function SortBy<T>(s: seq<T>, key: T -> int): (r: seq<T>)
    ensures |r| == |s|
    ensures multiset(r) == multiset(s)
    decreases |s|
  {
    if s == [] then []
    else
      assert s == [s[0]] + s[1..];
      Insert(s[0], SortBy(s[1..], key), key)
  }

  lemma {:induction false} SortBySorted<T>(s: seq<T>, key: T -> int)
    ensures SortedBy(SortBy(s, key), key)
    decreases |s|
  {
    if s != [] {
      SortBySorted(s[1..], key);
      InsertSorted(s[0], SortBy(s[1..], key), key);
    }
  }

  lemma KeyClassCons<T(!new)>(x: T, s: seq<T>, key: T -> int, k: int)
    ensures KeyClass([x] + s, key, k) == (if key(x) == k then [x] else []) + KeyClass(s, key, k)
  {
    assert ([x] + s)[0] == x && ([x] + s)[1..] == s;
  }

  lemma {:induction false} KeyClassAppend<T(!new)>(a: seq<T>, b: seq<T>, key: T -> int, k: int)
    ensures KeyClass(a + b, key, k) == KeyClass(a, key, k) + KeyClass(b, key, k)
    decreases |a|
  {
    if a == [] {
      assert a + b == b;
    } else {
      var x, rest := a[0], a[1..];
      var e := if key(x) == k then [x] else [];
      calc {
        KeyClass(a + b, key, k);
        { assert a + b == [x] + (rest + b); }
        KeyClass([x] + (rest + b), key, k);
        { KeyClassCons(x, rest + b, key, k); }
        e + KeyClass(rest + b, key, k);
        { KeyClassAppend(rest, b, key, k); }
        e + (KeyClass(rest, key, k) + KeyClass(b, key, k));
        (e + KeyClass(rest, key, k)) + KeyClass(b, key, k);
        { KeyClassCons(x, rest, key, k); assert a == [x] + rest; }
        KeyClass(a, key, k) + KeyClass(b, key, k);
      }
    }
  }

  /** In a sorted sequence whose keys are all at most `key(m)`, the element
      that ends the class of `key(m)` ends the whole sequence. */
  lemma LastOfTopClass<T(!new)>(r: seq<T>, key: T -> int, m: T)
    requires SortedBy(r, key)
    requires m in r
    requires forall x :: x in r ==> key(x) <= key(m)
    requires var c := KeyClass(r, key, key(m)); c != [] && c[|c| - 1] == m
    ensures r[|r| - 1] == m
  {
    var n := |r|;
    var last := r[n - 1];
    assert key(last) == key(m) by {
      var i :| 0 <= i < n && r[i] == m;
      assert key(r[i]) <= key(r[n - 1]);
      assert last in r;
    }
    assert r == r[..n - 1] + [last];
    KeyClassAppend(r[..n - 1], [last], key, key(m));
    KeyClassCons(last, [], key, key(m));
    assert [last] + [] == [last];
  }

  lemma {:induction false} InsertClass<T(!new)>(x: T, t: seq<T>, key: T -> int, k: int)
    requires SortedBy(t, key)
    ensures KeyClass(Insert(x, t, key), key, k)
         == (if key(x) == k then [x] else []) + KeyClass(t, key, k)
    decreases |t|
  {
    if t == [] {
      KeyClassCons(x, [], key, k);
      assert [x] + [] == [x];
    } else if key(x) <= key(t[0]) {
      KeyClassCons(x, t, key, k);
    } else {
      assert t == [t[0]] + t[1..];
      InsertClass(x, t[1..], key, k);
      KeyClassCons(t[0], Insert(x, t[1..], key), key, k);
      KeyClassCons(t[0], t[1..], key, k);
    }
  }

  /** Stability: elements with equal keys keep their relative order. */
  lemma {:induction false} SortByStable<T(!new)>(s: seq<T>, key: T -> int, k: int)
    ensures KeyClass(SortBy(s, key), key, k) == KeyClass(s, key, k)
    decreases |s|
  {
    if s != [] {
      SortBySorted(s[1..], key);
      InsertClass(s[0], SortBy(s[1..], key), key, k);
      SortByStable(s[1..], key, k);
    }
  }

  /** Everything a stable ascending sort promises, in one place. */
  lemma SortByCorrect<T(!new)>(s: seq<T>, key: T -> int)
    ensures SortedBy(SortBy(s, key), key)
    ensures multiset(SortBy(s, key)) == multiset(s)
    ensures forall k :: KeyClass(SortBy(s, key), key, k) == KeyClass(s, key, k)
  {
    SortBySorted(s, key);
    forall k ensures KeyClass(SortBy(s, key), key, k) == KeyClass(s, key, k) {
      SortByStable(s, key, k);
    }
  }

  /** Sorting a sequence extended with an element whose key is at least
      every other key puts that element last. */
  lemma SortByNewestLast<T(!new)>(s: seq<T>, x: T, key: T -> int)
    requires forall y :: y in s ==> key(y) <= key(x)
    ensures var r := SortBy(s + [x], key); r != [] && r[|r| - 1] == x
  {
    var t := s + [x];
    var r := SortBy(t, key);
    SortByCorrect(t, key);
    assert x in multiset(t);
    assert x in r;
    assert forall y :: y in r ==> key(y) <= key(x) by {
      forall y | y in r ensures key(y) <= key(x) {
        assert y in multiset(r);
        assert y in t;
      }
    }
    KeyClassAppend(s, [x], key, key(x));
    KeyClassCons(x, [], key, key(x));
    assert [x] + [] == [x];
    assert KeyClass(r, key, key(x)) == KeyClass(s, key, key(x)) + [x];
    LastOfTopClass(r, key, x);
  }

  /** `s.reduce((acc, x) => acc + f(x), 0)`. */
  function SumOf<T>(s: seq<T>, f: T -> int): (total: int)
    ensures s == [] ==> total == 0
    ensures (forall i :: 0 <= i < |s| ==> f(s[i]) >= 0) ==> total >= 0
    decreases |s|
  {
    if s == [] then 0 else f(s[0]) + SumOf(s[1..], f)
  }

  lemma {:induction false} SumOfAppend<T>(a: seq<T>, b: seq<T>, f: T -> int)
    ensures SumOf(a + b, f) == SumOf(a, f) + SumOf(b, f)
    decreases |a|
  {
    if a == [] {
      assert a + b == b;
    } else {
      assert (a + b)[0] == a[0] && (a + b)[1..] == a[1..] + b;
      SumOfAppend(a[1..], b, f);
    }
  }
}
