/** Per-domain aggregation of the dashboard (`buildDomainSummaries` in
    ClarityDashboard.tsx): every answer whose question names a domain that
    is not excluded, and that the dashboard normaliser accepts, is filed
    under that domain in a map kept in first-insertion order. */
module Domains {
  import opened Common
  import opened Scoring

  /** Domains the dashboard never reports (`excludedDomains`). */
  const Excluded: set<string> := {"Analogical"}

  /** One normalised answer attributed to a domain. */
  datatype Observation = Observation(domain: string, result: Normalized)

  /** The observation one answer yields: its question must exist, carry a
      non-empty domain outside `Excluded`, and normalise. */
  function ObservationOf(catalog: Catalog, entry: (string, AnswerValue)): (r: Option<Observation>)
    ensures r.Some? ==> r.value.domain != "" && r.value.domain !in Excluded
    ensures r.Some? ==> 0.0 <= r.value.result.score <= 100.0
    ensures r.Some? <==>
      && entry.0 in catalog
      && catalog[entry.0].domain.Some?
      && catalog[entry.0].domain.value != ""
      && catalog[entry.0].domain.value !in Excluded
      && DashboardNormalize(entry.1, catalog[entry.0]).Some?
  {
    if entry.0 !in catalog then None
    else
      var q := catalog[entry.0];
      if q.domain.None? || q.domain.value == "" || q.domain.value in Excluded then None
      else
        match DashboardNormalize(entry.1, q)
        case None => None
        case Some(n) => Some(Observation(q.domain.value, n))
  }

  /** The observations of one record, in answer order. */
  function RecordObservations(answers: Answers, catalog: Catalog): (r: seq<Observation>)
    ensures |r| <= |answers|
    ensures forall k :: 0 <= k < |r| ==> r[k].domain != "" && r[k].domain !in Excluded
    ensures forall k :: 0 <= k < |r| ==> 0.0 <= r[k].result.score <= 100.0
  {
    if answers == [] then []
    else
      var rest := RecordObservations(answers[..|answers| - 1], catalog);
      match ObservationOf(catalog, answers[|answers| - 1])
      case Some(o) => rest + [o]
      case None => rest
  }

  /** The observations of all records, record by record. */
  function Observations(records: seq<Answers>, catalog: Catalog): (r: seq<Observation>)
    ensures forall k :: 0 <= k < |r| ==> r[k].domain != "" && r[k].domain !in Excluded
    ensures forall k :: 0 <= k < |r| ==> 0.0 <= r[k].result.score <= 100.0
  {
    if records == [] then []
    else Observations(records[..|records| - 1], catalog) + RecordObservations(records[|records| - 1], catalog)
  }

  // ---------------------------------------------------------------------
  // Reference definition: filter the observations by domain and kind
  // ---------------------------------------------------------------------

  /** The scores of the given kind filed under domain `d`, in order. */
  function ScoresFor(obs: seq<Observation>, d: string, kind: Kind): (r: seq<real>)
    ensures (forall k :: 0 <= k < |obs| ==> 0.0 <= obs[k].result.score <= 100.0) ==>
              forall i :: 0 <= i < |r| ==> 0.0 <= r[i] <= 100.0
  {
    if obs == [] then []
    else
      var last := obs[|obs| - 1];
      ScoresFor(obs[..|obs| - 1], d, kind) + (if last.domain == d && last.result.kind == kind then [last.result.score] else [])
  }

  /** The domains that occur among the observations. */
  function DomainSet(obs: seq<Observation>): set<string> {
    if obs == [] then {} else DomainSet(obs[..|obs| - 1]) + {obs[|obs| - 1].domain}
  }

  // ---------------------------------------------------------------------
  // The accumulation as the source performs it
  // ---------------------------------------------------------------------

  /** The `{likert, mcq, responses}` entry of one domain. */
  datatype Tally = Tally(likert: seq<real>, mcq: seq<real>, responses: nat)

  /** A JavaScript `Map` from domain to tally: its keys in insertion order
      and its contents. */
  datatype DomainTable = DomainTable(order: seq<string>, tallies: map<string, Tally>)

  /** `domainMap.set(domain, entry)` after pushing one score into the entry. */
  function Record(t: DomainTable, o: Observation): DomainTable {
    var e := if o.domain in t.tallies then t.tallies[o.domain] else Tally([], [], 0);
    var e2 := if o.result.kind == Likert then e.(likert := e.likert + [o.result.score])
              else e.(mcq := e.mcq + [o.result.score]);
    DomainTable(
      if o.domain in t.tallies then t.order else t.order + [o.domain],
      t.tallies[o.domain := e2.(responses := e.responses + 1)])
  }

  /** The table agrees with the reference definition over `obs`: its keys are
      the observed domains, each listed once, and each tally holds exactly the
      domain's Likert and MCQ scores, with `responses` their total number. */
  predicate Consistent(t: DomainTable, obs: seq<Observation>) {
    && t.tallies.Keys == DomainSet(obs)
    && TalliesMatch(t, obs)
    && OrderListsKeys(t)
  }

  predicate TalliesMatch(t: DomainTable, obs: seq<Observation>) {
    forall d :: d in t.tallies ==> t.tallies[d] == ReferenceTally(obs, d)
  }

  /** The keys in insertion order, each exactly once. */
  predicate OrderListsKeys(t: DomainTable) {
    && (forall i :: 0 <= i < |t.order| ==> t.order[i] in t.tallies)
    && (forall d :: d in t.tallies ==> d in t.order)
    && (forall i, j :: 0 <= i < j < |t.order| ==> t.order[i] != t.order[j])
  }

  /** What the tally of domain `d` should hold after `obs`. */
  function ReferenceTally(obs: seq<Observation>, d: string): Tally {
    Tally(ScoresFor(obs, d, Likert), ScoresFor(obs, d, Mcq),
          |ScoresFor(obs, d, Likert)| + |ScoresFor(obs, d, Mcq)|)
  }

  /** The table after recording every observation in turn. */
  function Accumulate(obs: seq<Observation>): DomainTable {
    if obs == [] then DomainTable([], map[])
    else Record(Accumulate(obs[..|obs| - 1]), obs[|obs| - 1])
  }

  /** Recording the observations one by one builds the reference table. */
  lemma {:induction false} AccumulateConsistent(obs: seq<Observation>)
    ensures Consistent(Accumulate(obs), obs)
  {
    if obs != [] {
      var prefix, o := obs[..|obs| - 1], obs[|obs| - 1];
      assert prefix + [o] == obs;
      var t0 := Accumulate(prefix);
      assert Accumulate(obs) == Record(t0, o);
      AccumulateConsistent(prefix);
      RecordKeepsTallies(t0, prefix, o);
      RecordKeepsOrder(t0, o);
    }
  }

  lemma RecordKeepsTallies(t0: DomainTable, prefix: seq<Observation>, o: Observation)
    requires t0.tallies.Keys == DomainSet(prefix) && TalliesMatch(t0, prefix)
    ensures Record(t0, o).tallies.Keys == DomainSet(prefix + [o])
    ensures TalliesMatch(Record(t0, o), prefix + [o])
  {
    var obs := prefix + [o];
    assert obs[..|prefix|] == prefix && obs[|prefix|] == o;
    assert DomainSet(obs) == DomainSet(prefix) + {o.domain};
    var t := Record(t0, o);
    forall d | d in t.tallies ensures t.tallies[d] == ReferenceTally(obs, d) {
      RecordTallyOf(t0, prefix, o, d);
    }
  }

  /** One domain's tally after recording `o`. */
  lemma RecordTallyOf(t0: DomainTable, prefix: seq<Observation>, o: Observation, d: string)
    requires t0.tallies.Keys == DomainSet(prefix) && TalliesMatch(t0, prefix)
    requires d in Record(t0, o).tallies
    ensures Record(t0, o).tallies[d] == ReferenceTally(prefix + [o], d)
  {
    if d != o.domain {
      ScoresForSnoc(prefix, o, d, Likert);
      ScoresForSnoc(prefix, o, d, Mcq);
    } else {
      var e := if d in t0.tallies then t0.tallies[d] else Tally([], [], 0);
      if d !in t0.tallies {
        ScoresForAbsent(prefix, d, Likert);
        ScoresForAbsent(prefix, d, Mcq);
      }
      RecordedTally(e, prefix, o);
    }
  }

  /** The tally of the recorded domain after one more observation. */
  lemma RecordedTally(e: Tally, prefix: seq<Observation>, o: Observation)
    requires e == ReferenceTally(prefix, o.domain)
    ensures ReferenceTally(prefix + [o], o.domain)
         == if o.result.kind == Likert then Tally(e.likert + [o.result.score], e.mcq, e.responses + 1)
            else Tally(e.likert, e.mcq + [o.result.score], e.responses + 1)
  {
    ScoresForSnoc(prefix, o, o.domain, Likert);
    ScoresForSnoc(prefix, o, o.domain, Mcq);
  }

  lemma ScoresForSnoc(prefix: seq<Observation>, o: Observation, d: string, kind: Kind)
    ensures ScoresFor(prefix + [o], d, kind)
         == ScoresFor(prefix, d, kind) + (if o.domain == d && o.result.kind == kind then [o.result.score] else [])
  {
    assert (prefix + [o])[..|prefix|] == prefix;
  }

  lemma RecordKeepsOrder(t0: DomainTable, o: Observation)
    requires OrderListsKeys(t0)
    ensures OrderListsKeys(Record(t0, o))
  {
  }

  lemma {:induction false} ScoresForAbsent(obs: seq<Observation>, d: string, kind: Kind)
    requires d !in DomainSet(obs)
    ensures ScoresFor(obs, d, kind) == []
  {
    if obs != [] {
      ScoresForAbsent(obs[..|obs| - 1], d, kind);
    }
  }

  lemma AccumulateSnoc(obs: seq<Observation>, o: Observation)
    ensures Accumulate(obs + [o]) == Record(Accumulate(obs), o)
  {
    assert (obs + [o])[..|obs|] == obs;
  }

  // ---------------------------------------------------------------------
  // Summaries
  // ---------------------------------------------------------------------

  datatype DomainSummary = DomainSummary(
    domain: string,
    overall: real,
    likert: Option<real>,
    mcq: Option<real>,
    responses: nat)

  /** The summary of one domain's tally, with the record combining rule. */
  function Summarize(d: string, e: Tally): DomainSummary {
    DomainSummary(d, CombineMeans(Mean(e.likert), Mean(e.mcq)), Mean(e.likert), Mean(e.mcq), e.responses)
  }

  /** One summary per key, in the table's insertion order. */
  function Summaries(t: DomainTable): (r: seq<DomainSummary>)
    requires forall i :: 0 <= i < |t.order| ==> t.order[i] in t.tallies
    ensures |r| == |t.order|
    ensures forall i :: 0 <= i < |r| ==> r[i] == Summarize(t.order[i], t.tallies[t.order[i]])
  {
    seq(|t.order|, i requires 0 <= i < |t.order| => Summarize(t.order[i], t.tallies[t.order[i]]))
  }

  /** The summaries `buildDomainSummaries` returns. */
  function DomainSummaries(records: seq<Answers>, catalog: Catalog): (r: seq<DomainSummary>)
    ensures forall i :: 0 <= i < |r| ==> r[i].domain in DomainSet(Observations(records, catalog))
  {
    var obs := Observations(records, catalog);
    AccumulateConsistent(obs);
    Summaries(Accumulate(obs))
  }

  lemma RecordObservationsSnoc(answers: Answers, j: nat, catalog: Catalog)
    requires j < |answers|
    ensures RecordObservations(answers[..j + 1], catalog) ==
      RecordObservations(answers[..j], catalog) +
      (match ObservationOf(catalog, answers[j]) case Some(o) => [o] case None => [])
  {
    assert answers[..j + 1][..j] == answers[..j];
  }

  /** The table after filing one answer: recorded when it yields an
      observation, unchanged otherwise. */
  function FileStep(t: DomainTable, catalog: Catalog, entry: (string, AnswerValue)): DomainTable {
    match ObservationOf(catalog, entry)
    case Some(o) => Record(t, o)
    case None => t
  }

  lemma FileStepAccumulates(before: seq<Observation>, answers: Answers, j: nat, catalog: Catalog)
    requires j < |answers|
    ensures Accumulate(before + RecordObservations(answers[..j + 1], catalog))
         == FileStep(Accumulate(before + RecordObservations(answers[..j], catalog)), catalog, answers[j])
  {
    RecordObservationsSnoc(answers, j, catalog);
    var seen := before + RecordObservations(answers[..j], catalog);
    match ObservationOf(catalog, answers[j])
    case Some(o) =>
      assert before + RecordObservations(answers[..j + 1], catalog) == seen + [o];
      AccumulateSnoc(seen, o);
    case None =>
      assert before + RecordObservations(answers[..j + 1], catalog) == seen;
  }

  /** The callback of the inner `forEach`: file one answer under its
      question's domain. */
  method FileAnswer(order: seq<string>, tallies: map<string, Tally>, catalog: Catalog, entry: (string, AnswerValue))
    returns (order': seq<string>, tallies': map<string, Tally>)
    ensures DomainTable(order', tallies') == FileStep(DomainTable(order, tallies), catalog, entry)
  {
    order', tallies' := order, tallies;
    var (qid, value) := entry;
    if qid !in catalog {
      return;
    }
    var q := catalog[qid];
    if q.domain.None? || q.domain.value == "" || q.domain.value in Excluded {
      return;
    }
    var normalized := DashboardNormalize(value, q);
    if normalized.None? {
      return;
    }
    var domain := q.domain.value;
    var tally := if domain in tallies then tallies[domain] else Tally([], [], 0);
    if normalized.value.kind == Likert {
      tally := tally.(likert := tally.likert + [normalized.value.score]);
    } else {
      tally := tally.(mcq := tally.mcq + [normalized.value.score]);
    }
    tally := tally.(responses := tally.responses + 1);
    if domain !in tallies {
      order' := order + [domain];
    }
    tallies' := tallies[domain := tally];
  }

  /** `buildDomainSummaries`: a `forEach` over records and, inside, over
      their answers, updating the domain map in place. */
  method BuildDomainSummaries(records: seq<Answers>, catalog: Catalog) returns (r: seq<DomainSummary>)
    ensures r == DomainSummaries(records, catalog)
  {
    var order: seq<string> := [];
    var tallies: map<string, Tally> := map[];
    for i := 0 to |records|
      invariant DomainTable(order, tallies) == Accumulate(Observations(records[..i], catalog))
    {
      ghost var before := Observations(records[..i], catalog);
      var answers := records[i];
      assert before + RecordObservations(answers[..0], catalog) == before;
      for j := 0 to |answers|
        invariant DomainTable(order, tallies) == Accumulate(before + RecordObservations(answers[..j], catalog))
      {
        FileStepAccumulates(before, answers, j, catalog);
        order, tallies := FileAnswer(order, tallies, catalog, answers[j]);
      }
      assert answers[..|answers|] == answers;
      assert records[..i + 1][..i] == records[..i];
    }
    assert records[..|records|] == records;
    AccumulateConsistent(Observations(records, catalog));
    r := Summaries(DomainTable(order, tallies));
  }

  // ---------------------------------------------------------------------
  // Properties
  // ---------------------------------------------------------------------

  /** No summary is for a missing, empty or excluded domain, and no domain
      is summarised twice. */
  lemma SummariesAdmissible(records: seq<Answers>, catalog: Catalog)
    ensures var r := DomainSummaries(records, catalog);
      && (forall i :: 0 <= i < |r| ==> r[i].domain != "" && r[i].domain !in Excluded)
      && (forall i, j :: 0 <= i < j < |r| ==> r[i].domain != r[j].domain)
  {
    var obs := Observations(records, catalog);
    AccumulateConsistent(obs);
    var r := DomainSummaries(records, catalog);
    forall i | 0 <= i < |r| ensures r[i].domain != "" && r[i].domain !in Excluded {
      DomainSetAdmissible(obs, r[i].domain);
    }
  }

  /** Every domain that received a normalised answer is summarised. */
  lemma SummariesComplete(records: seq<Answers>, catalog: Catalog, d: string)
    requires d in DomainSet(Observations(records, catalog))
    ensures exists i :: 0 <= i < |DomainSummaries(records, catalog)| && DomainSummaries(records, catalog)[i].domain == d
  {
    var obs := Observations(records, catalog);
    AccumulateConsistent(obs);
    var t := Accumulate(obs);
    var i :| 0 <= i < |t.order| && t.order[i] == d;
    assert DomainSummaries(records, catalog)[i].domain == d;
  }

  /** Each summary combines exactly the scores its domain received:
      `responses` is their number (at least one), the means are theirs, and
      `overall` follows the record combining rule and lies in [0, 100]. */
  lemma SummariesMatchReference(records: seq<Answers>, catalog: Catalog, i: nat)
    requires i < |DomainSummaries(records, catalog)|
    ensures var obs := Observations(records, catalog);
      var s := DomainSummaries(records, catalog)[i];
      var likert, mcq := ScoresFor(obs, s.domain, Likert), ScoresFor(obs, s.domain, Mcq);
      && s.responses == |likert| + |mcq|
      && s.responses > 0
      && s.likert == Mean(likert)
      && s.mcq == Mean(mcq)
      && s.overall == CombineMeans(Mean(likert), Mean(mcq))
      && 0.0 <= s.overall <= 100.0
  {
    var obs := Observations(records, catalog);
    AccumulateConsistent(obs);
    var t := Accumulate(obs);
    var d := t.order[i];
    assert DomainSummaries(records, catalog)[i] == Summarize(d, t.tallies[d]);
    assert t.tallies[d] == ReferenceTally(obs, d);
    DomainSetNonEmpty(obs, d);
    MeanInRange(ScoresFor(obs, d, Likert));
    MeanInRange(ScoresFor(obs, d, Mcq));
  }

  lemma {:induction false} DomainSetAdmissible(obs: seq<Observation>, d: string)
    requires forall k :: 0 <= k < |obs| ==> obs[k].domain != "" && obs[k].domain !in Excluded
    requires d in DomainSet(obs)
    ensures d != "" && d !in Excluded
  {
    if obs[|obs| - 1].domain != d {
      DomainSetAdmissible(obs[..|obs| - 1], d);
    }
  }

  /** A domain that was observed has at least one score. */
  lemma {:induction false} DomainSetNonEmpty(obs: seq<Observation>, d: string)
    requires d in DomainSet(obs)
    ensures |ScoresFor(obs, d, Likert)| + |ScoresFor(obs, d, Mcq)| > 0
  {
    if obs[|obs| - 1].domain != d {
      DomainSetNonEmpty(obs[..|obs| - 1], d);
    }
  }

  /** An answer that does not reach the domain map — unknown question, no
      or empty domain, excluded domain, failed normalisation — changes no
      summary. */
  lemma UnfiledAnswerIgnored(records: seq<Answers>, answers: Answers, entry: (string, AnswerValue), catalog: Catalog)
    requires ObservationOf(catalog, entry).None?
    ensures DomainSummaries(records + [answers + [entry]], catalog) == DomainSummaries(records + [answers], catalog)
  {
    assert (answers + [entry])[..|answers|] == answers;
    assert (records + [answers + [entry]])[..|records|] == records;
    assert (records + [answers])[..|records|] == records;
  }

  /** A record whose every scored question lies in the one domain `d` is
      summarised under `d` alone (summary domains are distinct, by
      `SummariesAdmissible`), with the record's own dashboard breakdown: the
      same scores, means, overall and number of responses. */
  lemma SingleDomainMatchesRecordScore(answers: Answers, catalog: Catalog, d: string)
    requires d != "" && d !in Excluded
    requires forall k :: 0 <= k < |answers| && answers[k].0 in catalog ==> catalog[answers[k].0].domain == Some(d)
    ensures var obs := Observations([answers], catalog);
      && ScoresFor(obs, d, Likert) == ScoresOfKind(Dashboard, answers, catalog, Likert)
      && ScoresFor(obs, d, Mcq) == ScoresOfKind(Dashboard, answers, catalog, Mcq)
    ensures var r := DomainSummaries([answers], catalog);
      var b := Breakdown(Dashboard, answers, catalog);
      forall i :: 0 <= i < |r| ==>
        && r[i].domain == d
        && r[i].likert == b.likertMean
        && r[i].mcq == b.mcqMean
        && r[i].overall == b.overall
        && r[i].responses == b.likertCount + b.mcqCount
  {
    assert [answers][..0] == [];
    assert Observations([answers], catalog) == RecordObservations(answers, catalog);
    SingleDomainScores(answers, catalog, d, Likert);
    SingleDomainScores(answers, catalog, d, Mcq);
    var r := DomainSummaries([answers], catalog);
    var b := Breakdown(Dashboard, answers, catalog);
    forall i | 0 <= i < |r|
      ensures && r[i].domain == d && r[i].likert == b.likertMean && r[i].mcq == b.mcqMean
              && r[i].overall == b.overall && r[i].responses == b.likertCount + b.mcqCount
    {
      SingleDomainSummary(answers, catalog, d, i);
    }
  }

  /** The `i`-th summary of such a record, field by field. */
  lemma SingleDomainSummary(answers: Answers, catalog: Catalog, d: string, i: nat)
    requires d != "" && d !in Excluded
    requires forall k :: 0 <= k < |answers| && answers[k].0 in catalog ==> catalog[answers[k].0].domain == Some(d)
    requires i < |DomainSummaries([answers], catalog)|
    ensures var s := DomainSummaries([answers], catalog)[i];
      var b := Breakdown(Dashboard, answers, catalog);
      && s.domain == d && s.likert == b.likertMean && s.mcq == b.mcqMean
      && s.overall == b.overall && s.responses == b.likertCount + b.mcqCount
  {
    assert [answers][..0] == [];
    assert Observations([answers], catalog) == RecordObservations(answers, catalog);
    var obs := Observations([answers], catalog);
    SingleDomainScores(answers, catalog, d, Likert);
    SingleDomainScores(answers, catalog, d, Mcq);
    SingleDomainObservations(answers, catalog, d);
    AccumulateConsistent(obs);
    DomainSetWithin(obs, d, Accumulate(obs).order[i]);
    SummariesMatchReference([answers], catalog, i);
  }

  /** Every observation of such a record is filed under `d`. */
  lemma {:induction false} SingleDomainObservations(answers: Answers, catalog: Catalog, d: string)
    requires forall k :: 0 <= k < |answers| && answers[k].0 in catalog ==> catalog[answers[k].0].domain == Some(d)
    ensures forall k :: 0 <= k < |RecordObservations(answers, catalog)| ==> RecordObservations(answers, catalog)[k].domain == d
  {
    if answers != [] {
      SingleDomainObservations(answers[..|answers| - 1], catalog, d);
    }
  }

  lemma {:induction false} DomainSetWithin(obs: seq<Observation>, d: string, e: string)
    requires forall k :: 0 <= k < |obs| ==> obs[k].domain == d
    requires e in DomainSet(obs)
    ensures e == d
  {
    if obs[|obs| - 1].domain != e {
      DomainSetWithin(obs[..|obs| - 1], d, e);
    }
  }

  lemma {:induction false} SingleDomainScores(answers: Answers, catalog: Catalog, d: string, kind: Kind)
    requires d != "" && d !in Excluded
    requires forall k :: 0 <= k < |answers| && answers[k].0 in catalog ==> catalog[answers[k].0].domain == Some(d)
    ensures ScoresFor(RecordObservations(answers, catalog), d, kind) == ScoresOfKind(Dashboard, answers, catalog, kind)
  {
    if answers != [] {
      var prefix := answers[..|answers| - 1];
      SingleDomainScores(prefix, catalog, d, kind);
      var obs := RecordObservations(answers, catalog);
      var obs0 := RecordObservations(prefix, catalog);
      match ObservationOf(catalog, answers[|answers| - 1])
      case Some(o) =>
        assert obs == obs0 + [o];
        assert (obs0 + [o])[..|obs0|] == obs0;
      case None =>
    }
  }
}
