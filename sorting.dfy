/** The sort orders the handlers ask of the document store (`.sort({..})`)
    and of `Array.prototype.sort`. Every order used is lexicographic on a
    Key: a rank (how the store orders a missing value), a number and a
    string. Descending orders negate the number. */
module Sorting {
  import opened Text
  import opened Collections

  datatype Key = Key(rank: int, value: int, text: string)

  predicate KeyLe(a: Key, b: Key) {
    a.rank < b.rank
    || (a.rank == b.rank && (a.value < b.value || (a.value == b.value && StrLe(a.text, b.text))))
  }

  lemma KeyLeTotal(a: Key, b: Key)
    ensures KeyLe(a, b) || KeyLe(b, a)
  {
    StrLeTotal(a.text, b.text);
  }

  lemma KeyLeTransitive(a: Key, b: Key, c: Key)
    requires KeyLe(a, b) && KeyLe(b, c)
    ensures KeyLe(a, c)
  {
    if a.rank == b.rank == c.rank && a.value == b.value == c.value {
      StrLeTransitive(a.text, b.text, c.text);
    }
  }

  lemma KeyLeReflexive(a: Key)
    ensures KeyLe(a, a)
  {
    StrLeReflexive(a.text);
  }

  predicate SortedBy<T>(s: seq<T>, key: T -> Key) {
    forall i, j :: 0 <= i < j < |s| ==> KeyLe(key(s[i]), key(s[j]))
  }

  /** Places x before the first element whose key is not smaller, so that
      earlier elements stay ahead of equal later ones (a stable sort). */
  function Insert<T>(x: T, s: seq<T>, key: T -> Key): (r: seq<T>)
    ensures |r| == |s| + 1
    ensures multiset(r) == multiset(s) + multiset{x}
    ensures SortedBy(s, key) ==> SortedBy(r, key)
  {
    if s == [] then [x]
    else if KeyLe(key(x), key(s[0])) then
      InsertFrontSorted(x, s, key);
      [x] + s
    else
      var rest := Insert(x, s[1..], key);
      KeyLeTotal(key(x), key(s[0]));
      assert s == [s[0]] + s[1..];
      InsertTailSorted(x, s, rest, key);
      [s[0]] + rest
  }

  lemma InsertFrontSorted<T>(x: T, s: seq<T>, key: T -> Key)
    requires s != [] && KeyLe(key(x), key(s[0]))
    ensures SortedBy(s, key) ==> SortedBy([x] + s, key)
  {
    if SortedBy(s, key) {
      forall j | 0 < j < |s| + 1
        ensures KeyLe(key(([x] + s)[0]), key(([x] + s)[j]))
      {
        if j > 1 {
          KeyLeTransitive(key(x), key(s[0]), key(s[j - 1]));
        }
      }
    }
  }

  lemma InsertTailSorted<T>(x: T, s: seq<T>, rest: seq<T>, key: T -> Key)
    requires s != [] && KeyLe(key(s[0]), key(x))
    requires multiset(rest) == multiset(s[1..]) + multiset{x}
    requires SortedBy(s[1..], key) ==> SortedBy(rest, key)
    ensures SortedBy(s, key) ==> SortedBy([s[0]] + rest, key)
  {
    if SortedBy(s, key) {
      var r := [s[0]] + rest;
      forall j | 0 < j < |r|
        ensures KeyLe(key(r[0]), key(r[j]))
      {
        var y := rest[j - 1];
        assert y in multiset(rest);
        assert y in multiset(s[1..]) || y == x;
        if y != x {
          var k :| 0 <= k < |s[1..]| && s[1..][k] == y;
          assert s[k + 1] == y;
        }
      }
      assert SortedBy(s[1..], key) by {
        forall i, j | 0 <= i < j < |s[1..]|
          ensures KeyLe(key(s[1..][i]), key(s[1..][j]))
        {
          assert s[1..][i] == s[i + 1] && s[1..][j] == s[j + 1];
        }
      }
    }
  }

  /** A stable sort of s by key. */
  function SortBy<T>(s: seq<T>, key: T -> Key): (r: seq<T>)
    ensures |r| == |s|
    ensures multiset(r) == multiset(s)
    ensures SortedBy(r, key)
  {
    if s == [] then []
    else
      assert s == [s[0]] + s[1..];
      Insert(s[0], SortBy(s[1..], key), key)
  }

  lemma SortedMembers<T>(s: seq<T>, key: T -> Key, x: T)
    ensures x in SortBy(s, key) <==> x in s
  {
    var r := SortBy(s, key);
    assert x in r <==> x in multiset(r);
    assert x in s <==> x in multiset(s);
  }

  /** Sorting the elements that pass a filter keeps exactly those of them:
      as many as are counted, each one from s and passing p. */
  lemma SortedFilter<T>(s: seq<T>, p: T -> bool, key: T -> Key)
    ensures |SortBy(Filter(s, p), key)| == Count(s, p)
    ensures forall i :: 0 <= i < |SortBy(Filter(s, p), key)| ==> SortBy(Filter(s, p), key)[i] in s && p(SortBy(Filter(s, p), key)[i])
    ensures forall i :: 0 <= i < |s| && p(s[i]) ==> s[i] in SortBy(Filter(s, p), key)
  {
    var f := Filter(s, p);
    var r := SortBy(f, key);
    FilterCount(s, p);
    forall i | 0 <= i < |r| ensures r[i] in s && p(r[i]) {
      SortedMembers(f, key, r[i]);
      var k :| 0 <= k < |f| && f[k] == r[i];
    }
    forall i | 0 <= i < |s| && p(s[i]) ensures s[i] in r {
      SortedMembers(f, key, s[i]);
    }
  }

  /** The first n after sorting: in key order, each from s, and none left
      out orders before one kept. */
  lemma SortedPrefix<T>(s: seq<T>, key: T -> Key, n: nat)
    ensures SortedBy(Take(SortBy(s, key), n), key)
    ensures forall i :: 0 <= i < |Take(SortBy(s, key), n)| ==> Take(SortBy(s, key), n)[i] in s
    ensures forall k :: 0 <= k < |s| && s[k] !in Take(SortBy(s, key), n) ==>
      forall j :: 0 <= j < |Take(SortBy(s, key), n)| ==> KeyLe(key(Take(SortBy(s, key), n)[j]), key(s[k]))
  {
    var sorted := SortBy(s, key);
    var r := Take(sorted, n);
    forall i | 0 <= i < |r| ensures r[i] in s {
      SortedMembers(s, key, r[i]);
    }
    forall k | 0 <= k < |s| && s[k] !in r ensures forall j :: 0 <= j < |r| ==> KeyLe(key(r[j]), key(s[k])) {
      SortedMembers(s, key, s[k]);
      var m :| 0 <= m < |sorted| && sorted[m] == s[k];
      assert forall i :: 0 <= i < |r| ==> r[i] != s[k];
    }
  }

  /** `find(p).sort(key).limit(n)`: in key order, each one from s and passing
      p, min(n, count) of them, and no passing element left out orders
      before one kept. */
  lemma SortedFilterPrefix<T>(s: seq<T>, p: T -> bool, key: T -> Key, n: nat)
    ensures var r := Take(SortBy(Filter(s, p), key), n);
      SortedBy(r, key)
      && (forall i :: 0 <= i < |r| ==> r[i] in s && p(r[i]))
      && |r| == (if Count(s, p) < n then Count(s, p) else n)
      && forall k :: 0 <= k < |s| && p(s[k]) && s[k] !in r ==>
           forall j :: 0 <= j < |r| ==> KeyLe(key(r[j]), key(s[k]))
  {
    var f := Filter(s, p);
    var sorted := SortBy(f, key);
    var r := Take(sorted, n);
    SortedFilter(s, p, key);
    SortedPrefix(f, key, n);
    forall i | 0 <= i < |r| ensures r[i] in s && p(r[i]) {
      assert r[i] == sorted[i];
    }
    forall k | 0 <= k < |s| && p(s[k]) && s[k] !in r
      ensures forall j :: 0 <= j < |r| ==> KeyLe(key(r[j]), key(s[k]))
    {
      var m :| 0 <= m < |f| && f[m] == s[k];
    }
  }
}
