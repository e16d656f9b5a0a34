/** The part of a MongoDB query the job code relies on: filter the documents,
    sort them on a numeric key, newest first, and keep the first `limit`.
    The order among documents with equal keys is left open, as MongoDB leaves it. */
module Query {

  predicate SortedDesc<T>(s: seq<T>, key: T -> int)
  {
    forall i, j :: 0 <= i < j < |s| ==> key(s[i]) >= key(s[j])
  }

  /** The documents that satisfy `keep`, in their stored order. */
  function Filter<T(!new)>(xs: seq<T>, keep: T -> bool): (r: seq<T>)
    ensures forall x :: x in r ==> keep(x) && x in xs
    ensures forall x :: multiset(r)[x] == if keep(x) then multiset(xs)[x] else 0
    ensures |r| <= |xs|
  {
    if xs == [] then []
    else
      var rest := Filter(xs[1..], keep);
      assert xs == [xs[0]] + xs[1..];
      if keep(xs[0]) then [xs[0]] + rest else rest
  }

  function InsertDesc<T>(x: T, s: seq<T>, key: T -> int): (r: seq<T>)
    requires SortedDesc(s, key)
    ensures SortedDesc(r, key)
    ensures multiset(r) == multiset(s) + multiset{x}
    ensures |r| == |s| + 1
    ensures forall i :: 0 <= i < |r| ==> r[i] == x || r[i] in s
  {
    if s == [] || key(x) >= key(s[0]) then [x] + s
    else
      var rest := InsertDesc(x, s[1..], key);
      assert s == [s[0]] + s[1..];
      HeadBounds(x, s, rest, key);
      ConsSorted(s[0], rest, key);
      [s[0]] + rest
  }

  /** Every element drawn from `x` or the tail of `s` has a key no larger than the head's. */
  lemma HeadBounds<T>(x: T, s: seq<T>, rest: seq<T>, key: T -> int)
    requires SortedDesc(s, key) && s != [] && key(x) < key(s[0])
    requires forall i :: 0 <= i < |rest| ==> rest[i] == x || rest[i] in s[1..]
    ensures forall i :: 0 <= i < |rest| ==> key(rest[i]) <= key(s[0])
  {
    forall i | 0 <= i < |rest| ensures key(rest[i]) <= key(s[0]) {
      if rest[i] != x {
        var j :| 0 <= j < |s[1..]| && s[1..][j] == rest[i];
        assert s[j + 1] == rest[i];
      }
    }
  }

  lemma ConsSorted<T>(h: T, rest: seq<T>, key: T -> int)
    requires SortedDesc(rest, key)
    requires forall i :: 0 <= i < |rest| ==> key(rest[i]) <= key(h)
    ensures SortedDesc([h] + rest, key)
  {
    var r := [h] + rest;
    forall i, j | 0 <= i < j < |r| ensures key(r[i]) >= key(r[j]) {
      assert r[j] == rest[j - 1];
      if i > 0 { assert r[i] == rest[i - 1]; }
    }
  }

  /** The documents in descending key order. */
  function SortDesc<T>(xs: seq<T>, key: T -> int): (r: seq<T>)
    ensures SortedDesc(r, key)
    ensures multiset(r) == multiset(xs)
    ensures |r| == |xs|
  {
    if xs == [] then []
    else
      assert xs == [xs[0]] + xs[1..];
      InsertDesc(xs[0], SortDesc(xs[1..], key), key)
  }

  function Min(a: nat, b: nat): nat { if a < b then a else b }

  /** In a sorted sequence, whatever lies past position `k` is no larger than what lies before. */
  lemma SortedSplit<T>(s: seq<T>, key: T -> int, k: nat)
    requires SortedDesc(s, key) && k <= |s|
    ensures forall x, i :: x in multiset(s) - multiset(s[..k]) && 0 <= i < k ==> key(x) <= key(s[i])
  {
    assert s == s[..k] + s[k..];
    assert multiset(s) - multiset(s[..k]) == multiset(s[k..]);
    forall x, i | x in multiset(s[k..]) && 0 <= i < k ensures key(x) <= key(s[i]) {
      assert x in s[k..];
      var j :| 0 <= j < |s[k..]| && s[k..][j] == x;
      assert s[k + j] == x;
    }
  }

  lemma PrefixFacts<T>(s: seq<T>, key: T -> int, k: nat)
    requires SortedDesc(s, key) && k <= |s|
    ensures SortedDesc(s[..k], key)
    ensures multiset(s[..k]) <= multiset(s)
  {
    assert s == s[..k] + s[k..];
    assert forall i :: 0 <= i < k ==> s[..k][i] == s[i];
  }

  /** `.sort(key, -1).limit(limit)`: the `limit` documents with the largest keys,
      largest first.  Every document left out has a key no larger than any kept one. */
  function Top<T>(xs: seq<T>, key: T -> int, limit: nat): (r: seq<T>)
    ensures |r| == Min(limit, |xs|)
    ensures SortedDesc(r, key)
    ensures multiset(r) <= multiset(xs)
    ensures forall x, i :: x in multiset(xs) - multiset(r) && 0 <= i < |r| ==> key(x) <= key(r[i])
  {
    var s := SortDesc(xs, key);
    var k := Min(limit, |xs|);
    SortedSplit(s, key, k);
    PrefixFacts(s, key, k);
    s[..k]
  }

  /** No limit larger than the collection changes what is kept beyond sorting. */
  lemma TopAll<T>(xs: seq<T>, key: T -> int, limit: nat)
    requires limit >= |xs|
    ensures multiset(Top(xs, key, limit)) == multiset(xs)
  {
    var r := Top(xs, key, limit);
    assert SortDesc(xs, key)[..|xs|] == SortDesc(xs, key);
  }
}
