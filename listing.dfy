/** The query operations the route handlers apply to the order collection:
    filtering by a predicate, counting matches, ordering by a key with the
    largest first (`.sort({ key: -1 })`), and skip/limit slicing. */
module Listing {

  /** The elements satisfying `p`, in their original order (`find(query)`). */
  function Filter<T>(s: seq<T>, p: T -> bool): (r: seq<T>)
    ensures |r| <= |s|
    ensures forall i :: 0 <= i < |r| ==> p(r[i])
    ensures forall i :: 0 <= i < |s| && p(s[i]) ==> s[i] in r
    ensures multiset(r) <= multiset(s)
  {
    if s == [] then []
    else
      assert s == [s[0]] + s[1..];
      (if p(s[0]) then [s[0]] else []) + Filter(s[1..], p)
  }

  /** The number of elements satisfying `p` (`countDocuments(query)`). */
  function Count<T>(s: seq<T>, p: T -> bool): nat {
    if s == [] then 0 else (if p(s[0]) then 1 else 0) + Count(s[1..], p)
  }

  /** Counting is the length of the filtered listing. */
  lemma {:induction false} CountIsFilterLength<T>(s: seq<T>, p: T -> bool)
    ensures Count(s, p) == |Filter(s, p)|
  {
    if s != [] {
      CountIsFilterLength(s[1..], p);
    }
  }

  /** Counts of two predicates that never hold together add up to at most
      the size of the collection. */
  lemma {:induction false} CountDisjoint2<T>(s: seq<T>, p: T -> bool, q: T -> bool)
    requires forall i :: 0 <= i < |s| ==> !(p(s[i]) && q(s[i]))
    ensures Count(s, p) + Count(s, q) <= |s|
  {
    if s != [] {
      CountDisjoint2(s[1..], p, q);
    }
  }

  /** The same for three pairwise disjoint predicates. */
  lemma {:induction false} CountDisjoint3<T>(s: seq<T>, p: T -> bool, q: T -> bool, r: T -> bool)
    requires forall i :: 0 <= i < |s| ==> !(p(s[i]) && q(s[i])) && !(p(s[i]) && r(s[i])) && !(q(s[i]) && r(s[i]))
    ensures Count(s, p) + Count(s, q) + Count(s, r) <= |s|
  {
    if s != [] {
      CountDisjoint3(s[1..], p, q, r);
    }
  }

  /** A predicate that implies another is counted at most as often. */
  lemma {:induction false} CountMonotone<T>(s: seq<T>, p: T -> bool, q: T -> bool)
    requires forall i :: 0 <= i < |s| ==> p(s[i]) ==> q(s[i])
    ensures Count(s, p) <= Count(s, q)
  {
    if s != [] {
      CountMonotone(s[1..], p, q);
    }
  }

  /** Two disjoint predicates that each imply a third are counted, together,
      at most as often as the third. */
  lemma {:induction false} CountDisjointWithin<T>(s: seq<T>, p: T -> bool, q: T -> bool, r: T -> bool)
    requires forall i :: 0 <= i < |s| ==> !(q(s[i]) && r(s[i])) && (q(s[i]) ==> p(s[i])) && (r(s[i]) ==> p(s[i]))
    ensures Count(s, q) + Count(s, r) <= Count(s, p)
  {
    if s != [] {
      CountDisjointWithin(s[1..], p, q, r);
    }
  }

  ghost predicate SortedDesc<T>(s: seq<T>, key: T -> int) {
    forall i, j :: 0 <= i < j < |s| ==> key(s[i]) >= key(s[j])
  }

  /** Filtering keeps a listing ordered. */
  lemma {:induction false} FilterSorted<T>(s: seq<T>, p: T -> bool, key: T -> int)
    requires SortedDesc(s, key)
    ensures SortedDesc(Filter(s, p), key)
  {
    if s != [] {
      var rest := Filter(s[1..], p);
      FilterSorted(s[1..], p, key);
      if p(s[0]) {
        var r := [s[0]] + rest;
        forall i, j | 0 <= i < j < |r| ensures key(r[i]) >= key(r[j]) {
          if i == 0 {
            assert r[j] == rest[j - 1];
            assert rest[j - 1] in multiset(s[1..]);
          }
        }
      }
    }
  }

  /** The filtered listing holds exactly the elements satisfying `p`. */
  lemma FilterMembers<T>(s: seq<T>, p: T -> bool, x: T)
    ensures x in Filter(s, p) <==> x in s && p(x)
  {
    var f := Filter(s, p);
    if x in f {
      var i :| 0 <= i < |f| && f[i] == x;
      assert x in multiset(s);
    }
    if x in s && p(x) {
      var i :| 0 <= i < |s| && s[i] == x;
    }
  }

  /** A predicate that holds nowhere is counted zero times. */
  lemma {:induction false} CountNone<T>(s: seq<T>, p: T -> bool)
    requires forall i :: 0 <= i < |s| ==> !p(s[i])
    ensures Count(s, p) == 0
  {
    if s != [] {
      CountNone(s[1..], p);
    }
  }

  /** `x` placed before the first element whose key is not larger. */
  function InsertDesc<T>(x: T, s: seq<T>, key: T -> int): (r: seq<T>)
    ensures multiset(r) == multiset(s) + multiset{x}
    ensures |r| == |s| + 1
    ensures r[0] == x || (s != [] && r[0] == s[0])
  {
    if s == [] || key(x) >= key(s[0]) then [x] + s
    else
      assert s == [s[0]] + s[1..];
      [s[0]] + InsertDesc(x, s[1..], key)
  }

  lemma {:induction false} InsertDescSorted<T>(x: T, s: seq<T>, key: T -> int)
    requires SortedDesc(s, key)
    ensures SortedDesc(InsertDesc(x, s, key), key)
  {
    if s != [] && key(x) < key(s[0]) {
      var rest := InsertDesc(x, s[1..], key);
      InsertDescSorted(x, s[1..], key);
      assert rest[0] == x || rest[0] == s[1];
      var r := [s[0]] + rest;
      forall i, j | 0 <= i < j < |r| ensures key(r[i]) >= key(r[j]) {
        if i == 0 {
          assert key(rest[0]) <= key(s[0]);
          assert key(rest[j - 1]) <= key(rest[0]) || j - 1 == 0;
        }
      }
    }
  }

  /** The elements ordered by `key`, largest first (an insertion sort; the
      order among equal keys is not specified by the queries it models). */
  function SortDesc<T>(s: seq<T>, key: T -> int): (r: seq<T>)
    ensures multiset(r) == multiset(s)
    ensures |r| == |s|
  {
    if s == [] then []
    else
      assert s == [s[0]] + s[1..];
      InsertDesc(s[0], SortDesc(s[1..], key), key)
  }

  /** Sorting yields a key-ordered permutation. */
  lemma {:induction false} SortDescSorted<T>(s: seq<T>, key: T -> int)
    ensures SortedDesc(SortDesc(s, key), key)
  {
    if s != [] {
      SortDescSorted(s[1..], key);
      InsertDescSorted(s[0], SortDesc(s[1..], key), key);
    }
  }

  /** The first `n` of the sorted listing: elements of `s`, themselves
      sorted, and none of them smaller than an element left out. */
  lemma SortedTop<T>(s: seq<T>, key: T -> int, n: nat)
    requires n <= |s|
    ensures var t := SortDesc(s, key);
      && SortedDesc(t[..n], key)
      && (forall k :: 0 <= k < n ==> t[k] in s)
      && (forall i, k :: 0 <= i < n <= k < |t| ==> key(t[k]) <= key(t[i]))
  {
    var t := SortDesc(s, key);
    SortDescSorted(s, key);
    forall k | 0 <= k < n
      ensures t[k] in s
    {
      assert t[k] in multiset(t);
    }
  }

  /** A window from the start is a prefix. */
  lemma WindowFromStart<T>(s: seq<T>, limit: nat)
    requires limit > 0
    ensures Window(s, 0, limit) == s[..if |s| < limit then |s| else limit]
  {
  }

  /** A listing sorted by `key`, largest first, holding exactly the elements
      of `s` that satisfy `p`: each of them, and nothing else. */
  lemma SortedFilterMembers<T>(s: seq<T>, p: T -> bool, key: T -> int, x: T)
    ensures x in SortDesc(Filter(s, p), key) <==> x in s && p(x)
    ensures SortedDesc(SortDesc(Filter(s, p), key), key)
  {
    var f := Filter(s, p);
    SortDescSorted(f, key);
    assert x in SortDesc(f, key) <==> x in multiset(SortDesc(f, key));
    assert x in f <==> x in multiset(f);
    if x in f {
      var i :| 0 <= i < |f| && f[i] == x;
      assert x in multiset(s);
    }
    if x in s && p(x) {
      var i :| 0 <= i < |s| && s[i] == x;
    }
  }

  /** `.skip(skip).limit(limit)` for a positive limit. */
  function Window<T>(s: seq<T>, skip: nat, limit: nat): (r: seq<T>)
    requires limit > 0
    ensures |r| <= limit
    ensures skip >= |s| ==> r == []
    ensures forall k :: 0 <= k < |r| ==> skip + k < |s| && r[k] == s[skip + k]
    ensures skip < |s| ==> |r| == if |s| - skip < limit then |s| - skip else limit
  {
    if skip >= |s| then []
    else if |s| - skip < limit then s[skip..]
    else s[skip..skip + limit]
  }
}
