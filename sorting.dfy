/** A stable sort by a numeric key, largest key first. It stands for
    JavaScript's `[...items].sort((a, b) => key(b) - key(a))`, which since
    ES2019 is required to be stable, so elements with equal keys keep their
    original order. */
module Sorting {

  /** `s` is ordered by non-increasing `key`. */
  ghost predicate SortedDesc<T>(s: seq<T>, key: T -> real) {
    forall i, j :: 0 <= i < j < |s| ==> key(s[i]) >= key(s[j])
  }

  /** Places `x` before the first element whose key is not larger than its
      own, so an element inserted earlier in the input stays ahead of later
      elements with an equal key. */
  function InsertDesc<T>(x: T, s: seq<T>, key: T -> real): (r: seq<T>)
    ensures multiset(r) == multiset(s) + multiset{x}
    ensures forall i :: 0 <= i < |r| ==> r[i] == x || r[i] in s
    ensures |r| == |s| + 1
  {
    if s == [] then [x]
    else if key(s[0]) > key(x) then
      assert s == [s[0]] + s[1..];
      [s[0]] + InsertDesc(x, s[1..], key)
    else [x] + s
  }

  lemma {:induction false} InsertDescSorted<T>(x: T, s: seq<T>, key: T -> real)
    requires SortedDesc(s, key)
    ensures SortedDesc(InsertDesc(x, s, key), key)
  {
    if s != [] && key(s[0]) > key(x) {
      InsertDescSorted(x, s[1..], key);
      InsertedBelowHead(x, s, key);
      ConsSorted(s[0], InsertDesc(x, s[1..], key), key);
    } else if s != [] {
      assert forall m :: 0 <= m < |s| ==> key(s[m]) <= key(x) by {
        forall m | 0 <= m < |s| ensures key(s[m]) <= key(x) {
          if m > 0 {
            assert key(s[0]) >= key(s[m]);
          }
        }
      }
      ConsSorted(x, s, key);
    }
  }

  /** A head whose key bounds every key of a sorted tail keeps it sorted. */
  lemma ConsSorted<T>(h: T, t: seq<T>, key: T -> real)
    requires SortedDesc(t, key)
    requires forall m :: 0 <= m < |t| ==> key(t[m]) <= key(h)
    ensures SortedDesc([h] + t, key)
  {
    var r := [h] + t;
    forall i, j | 0 <= i < j < |r| ensures key(r[i]) >= key(r[j]) {
      assert r[j] == t[j - 1];
      if i > 0 {
        assert r[i] == t[i - 1];
      }
    }
  }

  /** Inserting behind the head keeps every element at most the head's key. */
  lemma InsertedBelowHead<T>(x: T, s: seq<T>, key: T -> real)
    requires SortedDesc(s, key) && s != [] && key(s[0]) > key(x)
    ensures forall m :: 0 <= m < |InsertDesc(x, s[1..], key)| ==> key(InsertDesc(x, s[1..], key)[m]) <= key(s[0])
  {
    var t := InsertDesc(x, s[1..], key);
    forall m | 0 <= m < |t| ensures key(t[m]) <= key(s[0]) {
      if t[m] != x {
        var k :| 0 <= k < |s[1..]| && s[1..][k] == t[m];
        assert s[k + 1] == t[m];
      }
    }
  }

  /** Stable descending sort by `key`. */
  function SortDesc<T>(s: seq<T>, key: T -> real): (r: seq<T>)
    ensures multiset(r) == multiset(s)
    ensures |r| == |s|
  {
    if s == [] then []
    else
      assert s == [s[0]] + s[1..];
      InsertDesc(s[0], SortDesc(s[1..], key), key)
  }

  /** The sort returns a rearrangement of its input ordered by
      non-increasing key. */
  lemma {:induction false} SortDescCorrect<T>(s: seq<T>, key: T -> real)
    ensures SortedDesc(SortDesc(s, key), key)
    ensures multiset(SortDesc(s, key)) == multiset(s)
  {
    if s != [] {
      SortDescCorrect(s[1..], key);
      InsertDescSorted(s[0], SortDesc(s[1..], key), key);
    }
  }

  /** An element occurs at most once in a sequence without repeats. */
  lemma {:induction false} DistinctAtMostOnce<T>(s: seq<T>, x: T)
    requires forall i, j :: 0 <= i < j < |s| ==> s[i] != s[j]
    ensures multiset(s)[x] <= 1
  {
    if s != [] {
      var prefix := s[..|s| - 1];
      DistinctAtMostOnce(prefix, x);
      assert s == prefix + [s[|s| - 1]];
      if x == s[|s| - 1] {
        assert x !in prefix;
      }
    }
  }

  /** An element found at two positions occurs at least twice. */
  lemma TwiceCountsTwice<T>(s: seq<T>, i: nat, j: nat)
    requires i < j < |s| && s[i] == s[j]
    ensures multiset(s)[s[i]] >= 2
  {
    assert s == s[..j] + s[j..];
    assert s[i] in s[..j];
    assert s[j] in s[j..];
  }
}
