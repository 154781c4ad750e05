/** Dashboard records and the weekly statistics over them
    (`computeWeekStats` in ClarityDashboard.tsx). The clock is the
    parameter `now` and parsed timestamps are milliseconds, absent when the
    stored text does not parse. */
module WeekStats {
  import opened Common
  import opened Scoring

  /** A stored reflection or baseline result as the dashboard reads it. */
  datatype DashRecord = DashRecord(
    timestamp: Option<int>,
    context: Option<string>,
    answers: Answers,
    iterations: Option<int>,
    duration: Option<int>,
    score: Option<ScoreBreakdown>)

  /** `{ ...record, score: record.score ?? computeScore(...) }`. */
  function Enrich(r: DashRecord, catalog: Catalog): (e: DashRecord)
    ensures e.score.Some?
    ensures e == r.(score := e.score)
    ensures r.score.Some? ==> e.score == r.score
    ensures r.score.None? ==> e.score == Some(Breakdown(Dashboard, r.answers, catalog))
  {
    r.(score := Some(EnsuredScore(r.score, r.answers, catalog)))
  }

  const WeekMs: int := 7 * 24 * 60 * 60 * 1000

  predicate IsReflection(r: DashRecord) {
    r.context != Some("baseline")
  }

  /** Reflection with a parsed time in the last seven days. */
  predicate InCurrentWeek(r: DashRecord, now: int) {
    IsReflection(r) && r.timestamp.Some? && r.timestamp.value >= now - WeekMs
  }

  /** Reflection with a parsed time in the seven days before that. */
  predicate InPreviousWeek(r: DashRecord, now: int) {
    IsReflection(r) && r.timestamp.Some? && now - 2 * WeekMs <= r.timestamp.value < now - WeekMs
  }

  /** `records.filter(p)`: the records satisfying `p`, in order. */
  function Where(rs: seq<DashRecord>, p: DashRecord -> bool): (r: seq<DashRecord>)
    ensures |r| <= |rs|
    ensures forall i :: 0 <= i < |r| ==> p(r[i])
    ensures forall i :: 0 <= i < |rs| && p(rs[i]) ==> rs[i] in r
    ensures forall i :: 0 <= i < |r| ==> r[i] in rs
  {
    if rs == [] then []
    else
      var rest := Where(rs[..|rs| - 1], p);
      assert forall i :: 0 <= i < |rs| - 1 ==> rs[i] == rs[..|rs| - 1][i];
      if p(rs[|rs| - 1]) then rest + [rs[|rs| - 1]] else rest
  }

  function CurrentWeek(rs: seq<DashRecord>, now: int): seq<DashRecord> {
    Where(rs, (r: DashRecord) => InCurrentWeek(r, now))
  }

  function PreviousWeek(rs: seq<DashRecord>, now: int): seq<DashRecord> {
    Where(rs, (r: DashRecord) => InPreviousWeek(r, now))
  }

  /** The records that carry a score. */
  function Scored(rs: seq<DashRecord>): seq<DashRecord> {
    Where(rs, (r: DashRecord) => r.score.Some?)
  }

  function SumOverall(rs: seq<DashRecord>): real {
    if rs == [] then 0.0
    else SumOverall(rs[..|rs| - 1]) + (match rs[|rs| - 1].score case Some(b) => b.overall case None => 0.0)
  }

  /** `averageOverall`: the mean overall score of the scored records, 0
      when none is scored. */
  function AverageOverall(rs: seq<DashRecord>): real {
    var valid := Scored(rs);
    if valid == [] then 0.0 else SumOverall(valid) / |valid| as real
  }

  function SumDuration(rs: seq<DashRecord>): int {
    if rs == [] then 0 else SumDuration(rs[..|rs| - 1]) + rs[|rs| - 1].duration.GetOr(0)
  }

  function SumIterations(rs: seq<DashRecord>): int {
    if rs == [] then 0 else SumIterations(rs[..|rs| - 1]) + rs[|rs| - 1].iterations.GetOr(0)
  }

  datatype Stats = Stats(
    currentAvg: real,
    previousAvg: real,
    delta: real,
    durationSeconds: int,
    iterationsAvg: real,
    sampleCount: nat)

  /** `computeWeekStats` at time `now`. */
  function ComputeWeekStats(rs: seq<DashRecord>, now: int): (r: Stats)
    ensures r.sampleCount == |CurrentWeek(rs, now)| <= |rs|
    ensures r.delta == r.currentAvg - r.previousAvg
    ensures r.sampleCount == 0 ==> r.currentAvg == 0.0 && r.durationSeconds == 0 && r.iterationsAvg == 0.0
  {
    var current := CurrentWeek(rs, now);
    var previous := PreviousWeek(rs, now);
    Stats(
      AverageOverall(current),
      AverageOverall(previous),
      AverageOverall(current) - AverageOverall(previous),
      SumDuration(current),
      if current == [] then 0.0 else SumIterations(current) as real / |current| as real,
      |current|)
  }

  // ---------------------------------------------------------------------
  // Properties
  // ---------------------------------------------------------------------

  /** No record falls in both windows, and baselines fall in neither. */
  lemma WindowsDisjoint(r: DashRecord, now: int)
    ensures !(InCurrentWeek(r, now) && InPreviousWeek(r, now))
    ensures r.context == Some("baseline") ==> !InCurrentWeek(r, now) && !InPreviousWeek(r, now)
  {
  }

  /** With nothing in the current window, every current-window field is 0;
      with no records at all, every field is 0. */
  lemma EmptyWindowGivesZero(rs: seq<DashRecord>, now: int)
    ensures CurrentWeek(rs, now) == [] ==>
      var s := ComputeWeekStats(rs, now);
      s.currentAvg == 0.0 && s.durationSeconds == 0 && s.iterationsAvg == 0.0 && s.sampleCount == 0
    ensures rs == [] ==> ComputeWeekStats(rs, now) == Stats(0.0, 0.0, 0.0, 0, 0.0, 0)
  {
  }

  lemma WhereSnocRejected(rs: seq<DashRecord>, x: DashRecord, p: DashRecord -> bool)
    requires !p(x)
    ensures Where(rs + [x], p) == Where(rs, p)
  {
    assert (rs + [x])[..|rs|] == rs;
  }

  lemma WhereSnocAccepted(rs: seq<DashRecord>, x: DashRecord, p: DashRecord -> bool)
    requires p(x)
    ensures Where(rs + [x], p) == Where(rs, p) + [x]
  {
    assert (rs + [x])[..|rs|] == rs;
  }

  /** The duration total, the iteration average and the sample count
      depend on the current window only: a record outside it changes none
      of them. */
  lemma OutsideCurrentWeekIgnored(rs: seq<DashRecord>, x: DashRecord, now: int)
    requires !InCurrentWeek(x, now)
    ensures var s, t := ComputeWeekStats(rs + [x], now), ComputeWeekStats(rs, now);
      s.currentAvg == t.currentAvg && s.durationSeconds == t.durationSeconds
      && s.iterationsAvg == t.iterationsAvg && s.sampleCount == t.sampleCount
  {
    WhereSnocRejected(rs, x, (r: DashRecord) => InCurrentWeek(r, now));
  }

  /** A record in the current window adds its duration (0 when absent) and
      one sample. */
  lemma CurrentWeekRecordCounted(rs: seq<DashRecord>, x: DashRecord, now: int)
    requires InCurrentWeek(x, now)
    ensures var s, t := ComputeWeekStats(rs + [x], now), ComputeWeekStats(rs, now);
      s.durationSeconds == t.durationSeconds + x.duration.GetOr(0) && s.sampleCount == t.sampleCount + 1
  {
    WhereSnocAccepted(rs, x, (r: DashRecord) => InCurrentWeek(r, now));
    var c := CurrentWeek(rs, now);
    assert (c + [x])[..|c|] == c;
  }

  lemma {:induction false} SumOverallBounds(rs: seq<DashRecord>)
    requires forall i :: 0 <= i < |rs| ==> rs[i].score.Some? && 0.0 <= rs[i].score.value.overall <= 100.0
    ensures 0.0 <= SumOverall(rs) <= 100.0 * |rs| as real
  {
    if rs != [] {
      SumOverallBounds(rs[..|rs| - 1]);
    }
  }

  /** The weekly averages of scores in [0, 100] lie in [0, 100], so the
      delta lies in [-100, 100]. */
  lemma WeekAveragesInRange(rs: seq<DashRecord>, now: int)
    requires forall i :: 0 <= i < |rs| && rs[i].score.Some? ==> 0.0 <= rs[i].score.value.overall <= 100.0
    ensures var s := ComputeWeekStats(rs, now);
      0.0 <= s.currentAvg <= 100.0 && 0.0 <= s.previousAvg <= 100.0 && -100.0 <= s.delta <= 100.0
  {
    AverageInRange(CurrentWeek(rs, now), rs);
    AverageInRange(PreviousWeek(rs, now), rs);
  }

  lemma AverageInRange(window: seq<DashRecord>, rs: seq<DashRecord>)
    requires forall i :: 0 <= i < |rs| && rs[i].score.Some? ==> 0.0 <= rs[i].score.value.overall <= 100.0
    requires forall i :: 0 <= i < |window| ==> window[i] in rs
    ensures 0.0 <= AverageOverall(window) <= 100.0
  {
    var valid := Scored(window);
    forall i | 0 <= i < |valid| ensures valid[i].score.Some? && 0.0 <= valid[i].score.value.overall <= 100.0 {
      assert valid[i] in window;
      var k :| 0 <= k < |window| && window[k] == valid[i];
      var j :| 0 <= j < |rs| && rs[j] == window[k];
    }
    SumOverallBounds(valid);
    if valid != [] {
      MeanOfBoundedSum(SumOverall(valid), |valid| as real);
    }
  }

  lemma MeanOfBoundedSum(sum: real, n: real)
    requires n > 0.0 && 0.0 <= sum <= 100.0 * n
    ensures 0.0 <= sum / n <= 100.0
  {
    assert sum / n * n == sum;
  }

  function Scored80(): Option<ScoreBreakdown> { Some(ScoreBreakdown(80.0, Some(80.0), None, 1, 0)) }
  function Scored60(): Option<ScoreBreakdown> { Some(ScoreBreakdown(60.0, Some(60.0), None, 1, 0)) }
  function Scored50(): Option<ScoreBreakdown> { Some(ScoreBreakdown(50.0, Some(50.0), None, 1, 0)) }

  /** Two reflections a day before `now` scoring 80 and 60, the second
      without a context or duration, and one eight days before scoring 50. */
  function ExampleRecords(now: int): seq<DashRecord> {
    var day := 24 * 60 * 60 * 1000;
    [ DashRecord(Some(now - day), Some("reflection"), [], Some(2), Some(300), Scored80()),
      DashRecord(Some(now - day), None, [], Some(4), None, Scored60()),
      DashRecord(Some(now - 8 * day), Some("reflection"), [], Some(1), Some(100), Scored50()) ]
  }

  lemma ExampleWindows(now: int)
    ensures var rs := ExampleRecords(now);
      CurrentWeek(rs, now) == rs[..2] && PreviousWeek(rs, now) == rs[2..]
  {
    ExampleCurrentWindow(now);
    ExamplePreviousWindow(now);
  }

  lemma ExampleCurrentWindow(now: int)
    ensures var rs := ExampleRecords(now);
      CurrentWeek(rs, now) == rs[..2]
  {
    var rs := ExampleRecords(now);
    var a, b, c := rs[0], rs[1], rs[2];
    var cur := (r: DashRecord) => InCurrentWeek(r, now);
    assert cur(a) && cur(b) && !cur(c);
    assert [] + [a] == [a] && [a] + [b] == [a, b] && rs == [a, b] + [c];
    WhereSnocAccepted([], a, cur);
    WhereSnocAccepted([a], b, cur);
    WhereSnocRejected([a, b], c, cur);
    assert rs[..2] == [a, b];
  }

  lemma ExamplePreviousWindow(now: int)
    ensures var rs := ExampleRecords(now);
      PreviousWeek(rs, now) == rs[2..]
  {
    var rs := ExampleRecords(now);
    var a, b, c := rs[0], rs[1], rs[2];
    var prev := (r: DashRecord) => InPreviousWeek(r, now);
    assert !prev(a) && !prev(b) && prev(c);
    assert [] + [a] == [a] && [a] + [b] == [a, b] && rs == [a, b] + [c];
    WhereSnocRejected([], a, prev);
    WhereSnocRejected([a], b, prev);
    WhereSnocAccepted([a, b], c, prev);
    assert rs[2..] == [c];
  }

  lemma ExampleAverages(now: int)
    ensures var rs := ExampleRecords(now);
      AverageOverall(rs[..2]) == 70.0 && AverageOverall(rs[2..]) == 50.0
  {
    var rs := ExampleRecords(now);
    assert rs[..2] == [rs[0], rs[1]] && rs[2..] == [rs[2]];
    ExampleCurrentAverage(rs[0], rs[1]);
    ExamplePreviousAverage(rs[2]);
  }

  lemma ExampleCurrentAverage(a: DashRecord, b: DashRecord)
    requires a.score == Scored80() && b.score == Scored60()
    ensures AverageOverall([a, b]) == 70.0
  {
    ExampleBothScored(a, b);
    ExamplePairSum(a, b);
    var valid := Scored([a, b]);
    assert |valid| as real == 2.0;
    assert AverageOverall([a, b]) == 140.0 / 2.0;
  }

  lemma ExampleBothScored(a: DashRecord, b: DashRecord)
    requires a.score.Some? && b.score.Some?
    ensures Scored([a, b]) == [a, b]
  {
    var scored := (r: DashRecord) => r.score.Some?;
    assert [] + [a] == [a] && [a] + [b] == [a, b];
    WhereSnocAccepted([], a, scored);
    WhereSnocAccepted([a], b, scored);
  }

  lemma ExamplePairSum(a: DashRecord, b: DashRecord)
    requires a.score == Scored80() && b.score == Scored60()
    ensures SumOverall([a, b]) == 140.0
  {
    assert [a, b][..1] == [a] && [a][..0] == [];
    assert SumOverall([a]) == 80.0;
  }

  lemma ExamplePreviousAverage(c: DashRecord)
    requires c.score == Scored50()
    ensures AverageOverall([c]) == 50.0
  {
    ExampleOneScored(c);
    assert [c][..0] == [];
    assert SumOverall([c]) == 50.0;
    assert AverageOverall([c]) == 50.0 / 1.0;
  }

  lemma ExampleOneScored(c: DashRecord)
    requires c.score.Some?
    ensures Scored([c]) == [c]
  {
    assert [] + [c] == [c];
    WhereSnocAccepted([], c, (r: DashRecord) => r.score.Some?);
  }

  lemma ExampleSums(now: int)
    ensures var rs := ExampleRecords(now);
      SumDuration(rs[..2]) == 300 && SumIterations(rs[..2]) == 6
  {
    var rs := ExampleRecords(now);
    var a, b := rs[0], rs[1];
    assert rs[..2] == [a, b] && [a, b][..1] == [a] && [a][..0] == [];
    assert a.duration == Some(300) && b.duration == None;
    assert a.iterations == Some(2) && b.iterations == Some(4);
    assert SumDuration([a]) == 300 && SumIterations([a]) == 2;
  }

  /** On the example records: current average 70, previous 50, delta 20,
      duration 300 (the missing duration counts 0), iteration average 3,
      two samples. */
  lemma WeekStatsExample(now: int)
    ensures ComputeWeekStats(ExampleRecords(now), now) == Stats(70.0, 50.0, 20.0, 300, 3.0, 2)
  {
    ExampleWindows(now);
    ExampleAverages(now);
    ExampleSums(now);
  }
}
