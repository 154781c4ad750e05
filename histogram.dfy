/** The iteration histogram of the dashboard (`buildHistogram` in
    ClarityDashboard.tsx): records are counted by their exact iteration
    value in a map, the entries are sorted by ascending value, and the
    first six are kept. */
module Histogram {
  import opened Common
  import opened Sorting
  import opened WeekStats

  /** `record.iterations ?? 0`. */
  function IterationsOf(r: DashRecord): int {
    r.iterations.GetOr(0)
  }

  // ---------------------------------------------------------------------
  // Reference definition
  // ---------------------------------------------------------------------

  /** The number of records with iteration value `k`. */
  function Count(rs: seq<DashRecord>, k: int): nat {
    if rs == [] then 0
    else Count(rs[..|rs| - 1], k) + (if IterationsOf(rs[|rs| - 1]) == k then 1 else 0)
  }

  /** The iteration values that occur. */
  function KeySet(rs: seq<DashRecord>): set<int> {
    if rs == [] then {} else KeySet(rs[..|rs| - 1]) + {IterationsOf(rs[|rs| - 1])}
  }

  // ---------------------------------------------------------------------
  // The map the source fills
  // ---------------------------------------------------------------------

  /** A `Map<number, number>`: keys in insertion order and the counts. */
  datatype BucketMap = BucketMap(order: seq<int>, counts: map<int, nat>)

  /** `bucketMap.set(k, (bucketMap.get(k) ?? 0) + 1)`. */
  function Bump(b: BucketMap, k: int): BucketMap {
    BucketMap(
      if k in b.counts then b.order else b.order + [k],
      b.counts[k := (if k in b.counts then b.counts[k] else 0) + 1])
  }

  /** The map after counting every record in turn. */
  function Tally(rs: seq<DashRecord>): BucketMap {
    if rs == [] then BucketMap([], map[]) else Bump(Tally(rs[..|rs| - 1]), IterationsOf(rs[|rs| - 1]))
  }

  /** The keys in insertion order, each exactly once. */
  predicate OrderListsKeys(b: BucketMap) {
    && |b.order| == |b.counts|
    && (forall i :: 0 <= i < |b.order| ==> b.order[i] in b.counts)
    && (forall k :: k in b.counts ==> k in b.order)
    && (forall i, j :: 0 <= i < j < |b.order| ==> b.order[i] != b.order[j])
  }

  /** The map holds exactly the occurring values, each with its count. */
  lemma {:induction false} TallyCorrect(rs: seq<DashRecord>)
    ensures var b := Tally(rs);
      && b.counts.Keys == KeySet(rs)
      && (forall k :: k in b.counts ==> b.counts[k] == Count(rs, k))
      && OrderListsKeys(b)
  {
    if rs != [] {
      var prefix := rs[..|rs| - 1];
      TallyCorrect(prefix);
      var k := IterationsOf(rs[|rs| - 1]);
      var b0 := Tally(prefix);
      BumpKeepsOrder(b0, k);
      if k !in b0.counts {
        CountAbsent(prefix, k);
      }
    }
  }

  /** Counting one more value keeps every key listed once. */
  lemma BumpKeepsOrder(b: BucketMap, k: int)
    requires OrderListsKeys(b)
    ensures OrderListsKeys(Bump(b, k))
  {
    if k !in b.counts {
      assert |b.counts[k := 1]| == |b.counts| + 1 by {
        assert b.counts[k := 1].Keys == b.counts.Keys + {k};
      }
    }
  }

  lemma {:induction false} CountAbsent(rs: seq<DashRecord>, k: int)
    requires k !in KeySet(rs)
    ensures Count(rs, k) == 0
  {
    if rs != [] {
      CountAbsent(rs[..|rs| - 1], k);
    }
  }

  /** `Array.from(bucketMap.entries())`. */
  function Entries(b: BucketMap): (r: seq<(int, nat)>)
    requires forall i :: 0 <= i < |b.order| ==> b.order[i] in b.counts
    ensures |r| == |b.order|
    ensures forall i :: 0 <= i < |r| ==> r[i] == (b.order[i], b.counts[b.order[i]])
  {
    seq(|b.order|, i requires 0 <= i < |b.order| => (b.order[i], b.counts[b.order[i]]))
  }

  /** Sorting by descending negated key is sorting by ascending key,
      `(a, b) => a[0] - b[0]`. */
  function AscendingKey(e: (int, nat)): real {
    -(e.0 as real)
  }

  /** The map's entries sorted by ascending iteration value. */
  function SortedBuckets(rs: seq<DashRecord>): seq<(int, nat)> {
    TallyCorrect(rs);
    SortDesc(Entries(Tally(rs)), AscendingKey)
  }

  /** What `buildHistogram` returns: the first six sorted entries. */
  function HistogramOf(rs: seq<DashRecord>): (r: seq<(int, nat)>)
    ensures |r| == if |SortedBuckets(rs)| <= 6 then |SortedBuckets(rs)| else 6
    ensures r == SortedBuckets(rs)[..|r|]
  {
    var sorted := SortedBuckets(rs);
    if |sorted| <= 6 then sorted else sorted[..6]
  }

  /** `buildHistogram`: a `forEach` that updates the map in place, then the
      sort and the slice. */
  method BuildHistogram(rs: seq<DashRecord>) returns (buckets: seq<(int, nat)>)
    ensures buckets == HistogramOf(rs)
  {
    var order: seq<int> := [];
    var counts: map<int, nat> := map[];
    for i := 0 to |rs|
      invariant BucketMap(order, counts) == Tally(rs[..i])
    {
      assert rs[..i + 1][..i] == rs[..i];
      var iter := IterationsOf(rs[i]);
      var current := if iter in counts then counts[iter] else 0;
      if iter !in counts {
        order := order + [iter];
      }
      counts := counts[iter := current + 1];
    }
    assert rs[..|rs|] == rs;
    TallyCorrect(rs);
    var sorted := SortDesc(Entries(BucketMap(order, counts)), AscendingKey);
    buckets := if |sorted| <= 6 then sorted else sorted[..6];
  }

  // ---------------------------------------------------------------------
  // Properties
  // ---------------------------------------------------------------------

  /** Entries with pairwise different keys. */
  predicate DistinctKeys(e: seq<(int, nat)>) {
    forall i, j :: 0 <= i < j < |e| ==> e[i].0 != e[j].0
  }

  /** Sorting entries with distinct keys by ascending key gives strictly
      ascending keys. */
  lemma SortStrictlyAscending(entries: seq<(int, nat)>)
    requires DistinctKeys(entries)
    ensures var sorted := SortDesc(entries, AscendingKey);
      forall i, j :: 0 <= i < j < |sorted| ==> sorted[i].0 < sorted[j].0
  {
    var sorted := SortDesc(entries, AscendingKey);
    SortDescCorrect(entries, AscendingKey);
    forall i, j | 0 <= i < j < |sorted| ensures sorted[i].0 < sorted[j].0 {
      assert AscendingKey(sorted[i]) >= AscendingKey(sorted[j]);
      if sorted[i].0 == sorted[j].0 {
        assert sorted[i] in multiset(entries) && sorted[j] in multiset(entries);
        var m :| 0 <= m < |entries| && entries[m] == sorted[i];
        var n :| 0 <= n < |entries| && entries[n] == sorted[j];
        assert m == n;
        TwiceCountsTwice(sorted, i, j);
        DistinctAtMostOnce(entries, sorted[i]);
        assert false;
      }
    }
  }

  /** The sorted entries are the map's entries, each an occurring value
      paired with its count, and every occurring value appears. */
  lemma SortedBucketsAreEntries(rs: seq<DashRecord>)
    ensures var sorted := SortedBuckets(rs);
      && |sorted| == |KeySet(rs)|
      && (forall i :: 0 <= i < |sorted| ==> sorted[i].0 in KeySet(rs) && sorted[i].1 == Count(rs, sorted[i].0))
      && (forall k :: k in KeySet(rs) ==> exists i :: 0 <= i < |sorted| && sorted[i].0 == k)
  {
    var b := Tally(rs);
    TallyCorrect(rs);
    var entries := Entries(b);
    SortDescCorrect(entries, AscendingKey);
    forall i | 0 <= i < |SortedBuckets(rs)|
      ensures SortedBuckets(rs)[i].0 in KeySet(rs) && SortedBuckets(rs)[i].1 == Count(rs, SortedBuckets(rs)[i].0)
    {
      SortedEntryTallied(rs, i);
    }
    forall k | k in KeySet(rs) ensures exists i :: 0 <= i < |SortedBuckets(rs)| && SortedBuckets(rs)[i].0 == k {
      TalliedKeySorted(rs, k);
    }
  }

  lemma SortedEntryTallied(rs: seq<DashRecord>, i: nat)
    requires i < |SortedBuckets(rs)|
    ensures SortedBuckets(rs)[i].0 in KeySet(rs) && SortedBuckets(rs)[i].1 == Count(rs, SortedBuckets(rs)[i].0)
  {
    TallyCorrect(rs);
    var entries := Entries(Tally(rs));
    var sorted := SortedBuckets(rs);
    SortDescCorrect(entries, AscendingKey);
    assert sorted[i] in multiset(entries);
    var m :| 0 <= m < |entries| && entries[m] == sorted[i];
  }

  lemma TalliedKeySorted(rs: seq<DashRecord>, k: int)
    requires k in KeySet(rs)
    ensures exists i :: 0 <= i < |SortedBuckets(rs)| && SortedBuckets(rs)[i].0 == k
  {
    TallyCorrect(rs);
    var b := Tally(rs);
    var entries := Entries(b);
    var sorted := SortedBuckets(rs);
    SortDescCorrect(entries, AscendingKey);
    var m :| 0 <= m < |b.order| && b.order[m] == k;
    assert entries[m] in multiset(sorted);
    var i :| 0 <= i < |sorted| && sorted[i] == entries[m];
  }

  /** A map's entries have pairwise different keys. */
  lemma EntriesDistinct(b: BucketMap)
    requires OrderListsKeys(b)
    ensures DistinctKeys(Entries(b))
  {
    var e := Entries(b);
    forall i, j | 0 <= i < j < |e| ensures e[i].0 != e[j].0 {
      assert e[i].0 == b.order[i] && e[j].0 == b.order[j];
    }
  }

  /** The sorted entries have strictly ascending keys. */
  lemma SortedBucketsAscending(rs: seq<DashRecord>)
    ensures var sorted := SortedBuckets(rs);
      forall i, j :: 0 <= i < j < |sorted| ==> sorted[i].0 < sorted[j].0
  {
    var b := Tally(rs);
    TallyCorrect(rs);
    EntriesDistinct(b);
    SortStrictlyAscending(Entries(b));
    assert SortedBuckets(rs) == SortDesc(Entries(b), AscendingKey);
  }

  /** Keys strictly ascending. */
  predicate Ascending(e: seq<(int, nat)>) {
    forall i, j :: 0 <= i < j < |e| ==> e[i].0 < e[j].0
  }

  /** Key `k` is shown in `h`, or `h` is full and every shown key is
      smaller. */
  predicate ShownOrLarger(h: seq<(int, nat)>, k: int) {
    (exists i :: 0 <= i < |h| && h[i].0 == k) || (|h| == 6 && h[5].0 < k)
  }

  /** Keeping the first six of strictly ascending entries keeps the six
      smallest keys. */
  lemma FirstSix(sorted: seq<(int, nat)>, keys: set<int>)
    requires Ascending(sorted)
    requires forall k :: k in keys ==> exists i :: 0 <= i < |sorted| && sorted[i].0 == k
    ensures var h := if |sorted| <= 6 then sorted else sorted[..6];
      && |h| == (if |sorted| < 6 then |sorted| else 6)
      && (forall i :: 0 <= i < |h| ==> h[i] == sorted[i])
      && Ascending(h)
      && (forall k :: k in keys ==> ShownOrLarger(h, k))
  {
    var h := if |sorted| <= 6 then sorted else sorted[..6];
    forall k | k in keys
      ensures ShownOrLarger(h, k)
    {
      var i :| 0 <= i < |sorted| && sorted[i].0 == k;
      if i >= 6 {
        assert sorted[5].0 < sorted[i].0;
      } else {
        assert h[i].0 == k;
      }
    }
  }

  /** `buildHistogram` yields at most six buckets with strictly ascending
      iteration values; each bucket counts exactly the records with its
      value (a missing value counting as 0); a value that occurs but is not
      shown is larger than every shown one, which happens only when six are
      shown. */
  lemma HistogramCorrect(rs: seq<DashRecord>)
    ensures var h := HistogramOf(rs);
      && |h| == (if |KeySet(rs)| < 6 then |KeySet(rs)| else 6)
      && (forall i, j :: 0 <= i < j < |h| ==> h[i].0 < h[j].0)
      && (forall i :: 0 <= i < |h| ==> h[i].0 in KeySet(rs) && h[i].1 == Count(rs, h[i].0))
      && (forall k :: k in KeySet(rs) ==> ShownOrLarger(h, k))
  {
    var sorted := SortedBuckets(rs);
    SortedBucketsAreEntries(rs);
    SortedBucketsAscending(rs);
    assert Ascending(sorted);
    FirstSix(sorted, KeySet(rs));
    var h := HistogramOf(rs);
    assert h == if |sorted| <= 6 then sorted else sorted[..6];
    forall i | 0 <= i < |h| ensures h[i].0 in KeySet(rs) && h[i].1 == Count(rs, h[i].0) {
      assert h[i] == sorted[i];
    }
  }

  function WithIterations(n: int): DashRecord {
    DashRecord(None, None, [], Some(n), None, None)
  }

  function ExampleRecords(): seq<DashRecord> {
    [WithIterations(2), WithIterations(2), WithIterations(5),
     WithIterations(1), WithIterations(1), WithIterations(1)]
  }

  lemma ExampleTallyFirstThree()
    ensures Tally(ExampleRecords()[..3]) == BucketMap([2, 5], map[2 := 2, 5 := 1])
  {
    var rs := ExampleRecords();
    assert rs[..1][..0] == [] && rs[..2][..1] == rs[..1] && rs[..3][..2] == rs[..2];
    assert Tally(rs[..1]) == BucketMap([2], map[2 := 1]);
    assert Tally(rs[..2]) == BucketMap([2], map[2 := 2]);
  }

  lemma ExampleTally()
    ensures Tally(ExampleRecords()) == BucketMap([2, 5, 1], map[2 := 2, 5 := 1, 1 := 3])
  {
    var rs := ExampleRecords();
    ExampleTallyFirstThree();
    assert rs[..4][..3] == rs[..3] && rs[..5][..4] == rs[..4] && rs[..5] == rs[..|rs| - 1];
    assert Tally(rs[..4]) == BucketMap([2, 5, 1], map[2 := 2, 5 := 1, 1 := 1]);
    assert Tally(rs[..5]) == BucketMap([2, 5, 1], map[2 := 2, 5 := 1, 1 := 2]);
  }

  lemma ExampleSort()
    ensures SortDesc([(2, 2), (5, 1), (1, 3)], AscendingKey) == [(1, 3), (2, 2), (5, 1)]
  {
    var entries: seq<(int, nat)> := [(2, 2), (5, 1), (1, 3)];
    assert entries[1..] == [(5, 1), (1, 3)];
    ExampleSortTail();
    ExampleInsertHead();
  }

  lemma ExampleSortTail()
    ensures SortDesc([(5, 1), (1, 3)], AscendingKey) == [(1, 3), (5, 1)]
  {
    var tail: seq<(int, nat)> := [(5, 1), (1, 3)];
    assert tail[1..] == [(1, 3)];
    assert SortDesc([(1, 3)], AscendingKey) == [(1, 3)];
    assert InsertDesc((5, 1), [(1, 3)], AscendingKey) == [(1, 3), (5, 1)];
  }

  lemma ExampleInsertHead()
    ensures InsertDesc((2, 2), [(1, 3), (5, 1)], AscendingKey) == [(1, 3), (2, 2), (5, 1)]
  {
    var s: seq<(int, nat)> := [(1, 3), (5, 1)];
    assert s[1..] == [(5, 1)];
    assert InsertDesc((2, 2), [(5, 1)], AscendingKey) == [(2, 2), (5, 1)];
  }

  /** Iterations 2, 2, 5, 1, 1, 1 give the buckets (1, 3), (2, 2), (5, 1). */
  lemma HistogramExample()
    ensures HistogramOf(ExampleRecords()) == [(1, 3), (2, 2), (5, 1)]
  {
    ExampleTally();
    assert Entries(Tally(ExampleRecords())) == [(2, 2), (5, 1), (1, 3)];
    ExampleSort();
  }
}
