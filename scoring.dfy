/** Answer normalisation and record scoring. The scorer exists twice in the
    system: the backend's `compute_reflection_score` (app.py) and the
    dashboard's `normalizeAnswer`/`computeScore` (ClarityDashboard.tsx).
    Both are modelled here, side by side, with the lemma that says where
    they agree and two inputs on which they do not. */
module Scoring {
  import opened Common

  // ---------------------------------------------------------------------
  // Data model
  // ---------------------------------------------------------------------

  datatype QuestionType = ScaleQuestion | SingleChoice | MultiChoice | FreeText | UnknownType

  /** `scale: {min, max}` with either bound possibly absent. */
  datatype ScaleBounds = ScaleBounds(min: Option<real>, max: Option<real>)

  datatype Question = Question(
    id: string,
    qtype: QuestionType,
    domain: Option<string>,
    title: Option<string>,
    prompt: string,
    scale: Option<ScaleBounds>,
    options: seq<string>)

  /** A loosely typed stored answer: a number, a string, an array, JSON
      `null`, or anything else (an absent value, an object). */
  datatype AnswerValue = Num(x: real) | Str(s: string) | Items(xs: seq<AnswerValue>) | Null | Missing

  /** The answers of one record, in the order the mapping lists them. */
  type Answers = seq<(string, AnswerValue)>

  /** Question catalogue keyed by question id. */
  type Catalog = map<string, Question>

  datatype Kind = Likert | Mcq

  datatype Normalized = Normalized(score: real, kind: Kind)

  datatype Scorer = Backend | Dashboard

  datatype ScoreBreakdown = ScoreBreakdown(
    overall: real,
    likertMean: Option<real>,
    mcqMean: Option<real>,
    likertCount: nat,
    mcqCount: nat)

  // ---------------------------------------------------------------------
  // Pieces shared by both scorers
  // ---------------------------------------------------------------------

  /** Lower scale bound, 1 when absent. */
  function ScaleMin(q: Question): real {
    if q.scale.Some? then q.scale.value.min.GetOr(1.0) else 1.0
  }

  /** Upper scale bound, 5 when absent. */
  function ScaleMax(q: Question): real {
    if q.scale.Some? then q.scale.value.max.GetOr(5.0) else 5.0
  }

  /** Python `float(value)` on a stored answer: numbers convert, `None`,
      lists and other objects raise and the answer is skipped. A string is
      treated as not convertible (see README, Left out). */
  function PyFloat(a: AnswerValue): (r: Option<real>)
    ensures r.Some? <==> a.Num?
  {
    if a.Num? then Some(a.x) else None
  }

  /** JavaScript `Number(answer)` restricted to finite results: numbers
      convert, `null`, a blank string and an empty array become 0, and
      `undefined` and objects give NaN. A non-blank string and a non-empty
      array are treated as NaN (see README, Left out). */
  function JsNumber(a: AnswerValue): (r: Option<real>)
    ensures a.Num? ==> r == Some(a.x)
    ensures a.Null? ==> r == Some(0.0)
    ensures a.Missing? ==> r.None?
  {
    match a
    case Num(x) => Some(x)
    case Null => Some(0.0)
    case Str(s) => if IsBlank(s) then Some(0.0) else None
    case Items(xs) => if xs == [] then Some(0.0) else None
    case Missing => None
  }

  /** `max(0, min(1, x))`. */
  function Clamp01(x: real): (r: real)
    ensures 0.0 <= r <= 1.0
    ensures 0.0 <= x <= 1.0 ==> r == x
    ensures x <= 0.0 ==> r == 0.0
    ensures x >= 1.0 ==> r == 1.0
  {
    if x < 0.0 then 0.0 else if x > 1.0 then 1.0 else x
  }

  lemma Clamp01Monotone(x: real, y: real)
    requires x <= y
    ensures Clamp01(x) <= Clamp01(y)
  {
  }

  /** Position of `v` on the question's scale, clamped to [0, 1]. */
  function ScaleFraction(q: Question, v: real): (r: real)
    requires ScaleMax(q) != ScaleMin(q)
    ensures 0.0 <= r <= 1.0
  {
    Clamp01((v - ScaleMin(q)) / (ScaleMax(q) - ScaleMin(q)))
  }

  /** The selections of a choice answer: a single string answer becomes a
      one-element list, a multi answer must already be a list, and anything
      else is no selection. */
  function Selections(q: Question, a: AnswerValue): seq<AnswerValue>
  {
    if q.qtype == SingleChoice then (if a.Str? then [a] else [])
    else (if a.Items? then a.xs else [])
  }

  /** Backend marker test: `'(+1' in opt or '+1' in opt`. */
  predicate BackendPositive(text: string) {
    Contains(text, "(+1") || Contains(text, "+1")
  }

  /** Dashboard marker test (`isPositiveOption`): `opt.includes('(+1')`. */
  predicate DashboardPositive(text: string) {
    Contains(text, "(+1")
  }

  /** A selection counts as positive only when it is a string carrying the
      scorer's marker. */
  predicate IsPositive(scorer: Scorer, item: AnswerValue) {
    item.Str? && (if scorer == Backend then BackendPositive(item.s) else DashboardPositive(item.s))
  }

  function PositiveCount(scorer: Scorer, sel: seq<AnswerValue>): (n: nat)
    ensures n <= |sel|
    ensures n == |sel| <==> forall i :: 0 <= i < |sel| ==> IsPositive(scorer, sel[i])
  {
    if sel == [] then 0
    else PositiveCount(scorer, sel[..|sel| - 1]) + (if IsPositive(scorer, sel[|sel| - 1]) then 1 else 0)
  }

  /** Percentage of selections that are positive, 0 with no selection. */
  function ChoiceScore(scorer: Scorer, sel: seq<AnswerValue>): (r: real)
    ensures 0.0 <= r <= 100.0
    ensures sel == [] ==> r == 0.0
    ensures sel != [] ==> (r == 100.0 <==> forall i :: 0 <= i < |sel| ==> IsPositive(scorer, sel[i]))
  {
    if sel == [] then 0.0
    else
      var n := PositiveCount(scorer, sel);
      RatioAtMostOne(n as real, |sel| as real);
      (n as real / |sel| as real) * 100.0
  }

  lemma RatioAtMostOne(n: real, d: real)
    requires 0.0 <= n <= d && d > 0.0
    ensures 0.0 <= n / d <= 1.0
    ensures n / d == 1.0 <==> n == d
  {
    var q := n / d;
    assert q * d == n;
  }

  /** Reverse scoring is detected from the question text: the lower-cased
      `title + " " + question` contains "reverse scored". */
  predicate IsReverseScored(q: Question) {
    Contains(ToLower(q.title.GetOr("") + " " + q.prompt), "reverse scored")
  }

  /** The phrase in any letter case, anywhere in the question text, marks
      the question as reverse scored. */
  lemma ReverseMarkerInPrompt(q: Question, i: int)
    requires OccursAt(ToLower(q.prompt), "reverse scored", i)
    ensures IsReverseScored(q)
  {
    var text := q.title.GetOr("") + " " + q.prompt;
    var j := |q.title.GetOr("") + " "| + i;
    forall p | j <= p < j + |"reverse scored"|
      ensures ToLower(text)[p] == ToLower(q.prompt)[p - |q.title.GetOr("") + " "|]
    {
      assert text[p] == q.prompt[p - |q.title.GetOr("") + " "|];
    }
    assert OccursAt(ToLower(text), "reverse scored", j);
    ContainsAt(ToLower(text), "reverse scored");
  }

  /** The same for the title. */
  lemma ReverseMarkerInTitle(q: Question, i: int)
    requires q.title.Some? && OccursAt(ToLower(q.title.value), "reverse scored", i)
    ensures IsReverseScored(q)
  {
    var text := q.title.GetOr("") + " " + q.prompt;
    forall p | i <= p < i + |"reverse scored"|
      ensures ToLower(text)[p] == ToLower(q.title.value)[p]
    {
      assert text[p] == q.title.value[p];
    }
    assert OccursAt(ToLower(text), "reverse scored", i);
    ContainsAt(ToLower(text), "reverse scored");
  }

  // ---------------------------------------------------------------------
  // The two normalisers
  // ---------------------------------------------------------------------

  /** Backend normalisation of one answer (the loop body of
      `compute_reflection_score`). */
  function BackendNormalize(a: AnswerValue, q: Question): (r: Option<Normalized>)
    ensures r.Some? ==> 0.0 <= r.value.score <= 100.0
    ensures r.Some? ==> (r.value.kind == Likert <==> q.qtype == ScaleQuestion)
    ensures q.qtype == ScaleQuestion ==> (r.None? <==> PyFloat(a).None? || ScaleMax(q) == ScaleMin(q))
    ensures q.qtype == SingleChoice || q.qtype == MultiChoice ==> r.Some?
    ensures q.qtype == FreeText || q.qtype == UnknownType ==> r.None?
  {
    match q.qtype
    case ScaleQuestion =>
      if PyFloat(a).None? || ScaleMax(q) == ScaleMin(q) then None
      else Some(Normalized(ScaleFraction(q, PyFloat(a).value) * 100.0, Likert))
    case SingleChoice => Some(Normalized(ChoiceScore(Backend, Selections(q, a)), Mcq))
    case MultiChoice => Some(Normalized(ChoiceScore(Backend, Selections(q, a)), Mcq))
    case FreeText => None
    case UnknownType => None
  }

  /** Dashboard normalisation of one answer (`normalizeAnswer`). */
  function DashboardNormalize(a: AnswerValue, q: Question): (r: Option<Normalized>)
    ensures r.Some? ==> 0.0 <= r.value.score <= 100.0
    ensures r.Some? ==> (r.value.kind == Likert <==> q.qtype == ScaleQuestion)
    ensures q.qtype == ScaleQuestion ==> (r.None? <==> JsNumber(a).None? || ScaleMax(q) <= ScaleMin(q))
    ensures q.qtype == SingleChoice || q.qtype == MultiChoice ==> r.Some?
    ensures q.qtype == FreeText || q.qtype == UnknownType ==> r.None?
  {
    match q.qtype
    case ScaleQuestion =>
      if JsNumber(a).None? || ScaleMax(q) <= ScaleMin(q) then None
      else
        var n := ScaleFraction(q, JsNumber(a).value);
        var adjusted := if IsReverseScored(q) then 1.0 - n else n;
        Some(Normalized(Clamp01(adjusted) * 100.0, Likert))
    case SingleChoice => Some(Normalized(ChoiceScore(Dashboard, Selections(q, a)), Mcq))
    case MultiChoice => Some(Normalized(ChoiceScore(Dashboard, Selections(q, a)), Mcq))
    case FreeText => None
    case UnknownType => None
  }

  function Normalize(scorer: Scorer, a: AnswerValue, q: Question): Option<Normalized> {
    if scorer == Backend then BackendNormalize(a, q) else DashboardNormalize(a, q)
  }

  /** Normalisation of one `(question id, value)` entry; an unknown
      question id yields nothing. */
  function Lookup(scorer: Scorer, catalog: Catalog, entry: (string, AnswerValue)): Option<Normalized> {
    if entry.0 in catalog then Normalize(scorer, entry.1, catalog[entry.0]) else None
  }

  // ---------------------------------------------------------------------
  // Record breakdown
  // ---------------------------------------------------------------------

  /** The scores of the given kind, in answer order, that the scorer keeps. */
  function ScoresOfKind(scorer: Scorer, answers: Answers, catalog: Catalog, kind: Kind): (r: seq<real>)
    ensures |r| <= |answers|
    ensures forall i :: 0 <= i < |r| ==> 0.0 <= r[i] <= 100.0
  {
    if answers == [] then []
    else
      var rest := ScoresOfKind(scorer, answers[..|answers| - 1], catalog, kind);
      match Lookup(scorer, catalog, answers[|answers| - 1])
      case Some(n) => if n.kind == kind then rest + [n.score] else rest
      case None => rest
  }

  /** An answer the scorer drops leaves both lists as they were. */
  lemma SkipStep(scorer: Scorer, answers: Answers, catalog: Catalog, i: nat)
    requires i < |answers| && Lookup(scorer, catalog, answers[i]).None?
    ensures ScoresOfKind(scorer, answers[..i + 1], catalog, Likert) == ScoresOfKind(scorer, answers[..i], catalog, Likert)
    ensures ScoresOfKind(scorer, answers[..i + 1], catalog, Mcq) == ScoresOfKind(scorer, answers[..i], catalog, Mcq)
  {
    assert answers[..i + 1][..i] == answers[..i];
  }

  /** An answer the scorer keeps extends the list of its kind by its score
      and leaves the other list as it was. */
  lemma KeepStep(scorer: Scorer, answers: Answers, catalog: Catalog, i: nat)
    requires i < |answers| && Lookup(scorer, catalog, answers[i]).Some?
    ensures var n := Lookup(scorer, catalog, answers[i]).value;
      && ScoresOfKind(scorer, answers[..i + 1], catalog, n.kind) == ScoresOfKind(scorer, answers[..i], catalog, n.kind) + [n.score]
      && (n.kind == Likert ==> ScoresOfKind(scorer, answers[..i + 1], catalog, Mcq) == ScoresOfKind(scorer, answers[..i], catalog, Mcq))
      && (n.kind == Mcq ==> ScoresOfKind(scorer, answers[..i + 1], catalog, Likert) == ScoresOfKind(scorer, answers[..i], catalog, Likert))
  {
    assert answers[..i + 1][..i] == answers[..i];
  }

  function Sum(xs: seq<real>): real {
    if xs == [] then 0.0 else Sum(xs[..|xs| - 1]) + xs[|xs| - 1]
  }

  /** Arithmetic mean, absent for an empty list. */
  function Mean(xs: seq<real>): Option<real> {
    if xs == [] then None else Some(Sum(xs) / |xs| as real)
  }

  /** Mean of the two means when both exist, else the one that exists,
      else 0. */
  function CombineMeans(likert: Option<real>, mcq: Option<real>): (r: real)
    ensures likert.Some? && mcq.Some? ==> r == (likert.value + mcq.value) / 2.0
    ensures likert.Some? && mcq.None? ==> r == likert.value
    ensures likert.None? && mcq.Some? ==> r == mcq.value
    ensures likert.None? && mcq.None? ==> r == 0.0
  {
    match (likert, mcq)
    case (Some(l), Some(m)) => (l + m) / 2.0
    case (Some(l), None) => l
    case (None, Some(m)) => m
    case (None, None) => 0.0
  }

  function Combine(likert: seq<real>, mcq: seq<real>): ScoreBreakdown {
    ScoreBreakdown(CombineMeans(Mean(likert), Mean(mcq)), Mean(likert), Mean(mcq), |likert|, |mcq|)
  }

  /** The (unrounded) breakdown a scorer computes for one record. */
  function Breakdown(scorer: Scorer, answers: Answers, catalog: Catalog): (r: ScoreBreakdown)
    ensures r.likertCount == |ScoresOfKind(scorer, answers, catalog, Likert)| <= |answers|
    ensures r.mcqCount == |ScoresOfKind(scorer, answers, catalog, Mcq)| <= |answers|
    ensures r.likertMean.Some? <==> r.likertCount > 0
    ensures r.mcqMean.Some? <==> r.mcqCount > 0
    ensures r.likertCount == 0 && r.mcqCount == 0 ==> r.overall == 0.0
  {
    Combine(ScoresOfKind(scorer, answers, catalog, Likert), ScoresOfKind(scorer, answers, catalog, Mcq))
  }

  /** Backend `compute_reflection_score`: one pass over the answers,
      appending to a Likert list and an MCQ list. */
  method ComputeReflectionScore(answers: Answers, catalog: Catalog) returns (b: ScoreBreakdown)
    ensures b == Breakdown(Backend, answers, catalog)
  {
    var likert: seq<real> := [];
    var mcq: seq<real> := [];
    for i := 0 to |answers|
      invariant likert == ScoresOfKind(Backend, answers[..i], catalog, Likert)
      invariant mcq == ScoresOfKind(Backend, answers[..i], catalog, Mcq)
    {
      var (qid, value) := answers[i];
      if qid !in catalog {
        SkipStep(Backend, answers, catalog, i);
        continue;
      }
      var q := catalog[qid];
      if q.qtype == ScaleQuestion {
        var lo, hi := ScaleMin(q), ScaleMax(q);
        var x := PyFloat(value);
        if x.None? || hi == lo {
          SkipStep(Backend, answers, catalog, i);
          continue;
        }
        BackendScaleStep(answers, catalog, i, x.value);
        likert := likert + [ScaleFraction(q, x.value) * 100.0];
      } else if q.qtype == SingleChoice || q.qtype == MultiChoice {
        var selected := Selections(q, value);
        BackendChoiceStep(answers, catalog, i);
        if selected == [] {
          mcq := mcq + [0.0];
          continue;
        }
        mcq := mcq + [ChoiceScore(Backend, selected)];
      } else {
        SkipStep(Backend, answers, catalog, i);
      }
    }
    assert answers[..|answers|] == answers;
    b := Combine(likert, mcq);
  }

  /** What the backend loop appends for a usable scale answer. */
  lemma BackendScaleStep(answers: Answers, catalog: Catalog, i: nat, v: real)
    requires i < |answers| && answers[i].0 in catalog
    requires var q := catalog[answers[i].0];
      q.qtype == ScaleQuestion && PyFloat(answers[i].1) == Some(v) && ScaleMax(q) != ScaleMin(q)
    ensures var q := catalog[answers[i].0];
      ScoresOfKind(Backend, answers[..i + 1], catalog, Likert)
      == ScoresOfKind(Backend, answers[..i], catalog, Likert) + [ScaleFraction(q, v) * 100.0]
    ensures ScoresOfKind(Backend, answers[..i + 1], catalog, Mcq) == ScoresOfKind(Backend, answers[..i], catalog, Mcq)
  {
    KeepStep(Backend, answers, catalog, i);
  }

  /** What the backend loop appends for a choice answer. */
  lemma BackendChoiceStep(answers: Answers, catalog: Catalog, i: nat)
    requires i < |answers| && answers[i].0 in catalog
    requires var q := catalog[answers[i].0];
      q.qtype == SingleChoice || q.qtype == MultiChoice
    ensures var q := catalog[answers[i].0];
      var sel := Selections(q, answers[i].1);
      ScoresOfKind(Backend, answers[..i + 1], catalog, Mcq)
      == ScoresOfKind(Backend, answers[..i], catalog, Mcq) + [ChoiceScore(Backend, sel)]
    ensures ScoresOfKind(Backend, answers[..i + 1], catalog, Likert) == ScoresOfKind(Backend, answers[..i], catalog, Likert)
  {
    KeepStep(Backend, answers, catalog, i);
  }

  /** Dashboard `computeScore`: the same pass with the dashboard's
      normaliser. */
  method ComputeScore(answers: Answers, catalog: Catalog) returns (b: ScoreBreakdown)
    ensures b == Breakdown(Dashboard, answers, catalog)
  {
    var likert: seq<real> := [];
    var mcq: seq<real> := [];
    for i := 0 to |answers|
      invariant likert == ScoresOfKind(Dashboard, answers[..i], catalog, Likert)
      invariant mcq == ScoresOfKind(Dashboard, answers[..i], catalog, Mcq)
    {
      var (qid, value) := answers[i];
      var normalized := if qid in catalog then DashboardNormalize(value, catalog[qid]) else None;
      if normalized.None? {
        SkipStep(Dashboard, answers, catalog, i);
        continue;
      }
      KeepStep(Dashboard, answers, catalog, i);
      if normalized.value.kind == Likert {
        likert := likert + [normalized.value.score];
      } else {
        mcq := mcq + [normalized.value.score];
      }
    }
    assert answers[..|answers|] == answers;
    b := Combine(likert, mcq);
  }

  /** The score a dashboard record shows: a stored (backend) score wins over
      the dashboard's own computation. */
  function EnsuredScore(stored: Option<ScoreBreakdown>, answers: Answers, catalog: Catalog): ScoreBreakdown {
    match stored
    case Some(b) => b
    case None => Breakdown(Dashboard, answers, catalog)
  }

  // ---------------------------------------------------------------------
  // Properties of the breakdown
  // ---------------------------------------------------------------------

  /** A list of values in [lo, hi] sums to between |xs|*lo and |xs|*hi. */
  lemma {:induction false} SumBounds(xs: seq<real>, lo: real, hi: real)
    requires forall i :: 0 <= i < |xs| ==> lo <= xs[i] <= hi
    ensures |xs| as real * lo <= Sum(xs) <= |xs| as real * hi
  {
    if xs != [] {
      SumBounds(xs[..|xs| - 1], lo, hi);
    }
  }

  /** The mean of values in [0, 100] lies in [0, 100]. */
  lemma MeanInRange(xs: seq<real>)
    requires forall i :: 0 <= i < |xs| ==> 0.0 <= xs[i] <= 100.0
    ensures Mean(xs).Some? ==> 0.0 <= Mean(xs).value <= 100.0
  {
    if xs != [] {
      SumBounds(xs, 0.0, 100.0);
      var n := |xs| as real;
      assert Sum(xs) / n <= 100.0 by {
        assert Sum(xs) <= n * 100.0;
      }
    }
  }

  /** Every part of a breakdown is bounded: the overall score and the means
      lie in [0, 100], and the counts are the lengths of the kept lists. */
  lemma BreakdownInRange(scorer: Scorer, answers: Answers, catalog: Catalog)
    ensures var b := Breakdown(scorer, answers, catalog);
      && 0.0 <= b.overall <= 100.0
      && (b.likertMean.Some? ==> 0.0 <= b.likertMean.value <= 100.0)
      && (b.mcqMean.Some? ==> 0.0 <= b.mcqMean.value <= 100.0)
      && b.likertCount == |ScoresOfKind(scorer, answers, catalog, Likert)|
      && b.mcqCount == |ScoresOfKind(scorer, answers, catalog, Mcq)|
      && (b.likertMean.Some? <==> b.likertCount > 0)
      && (b.mcqMean.Some? <==> b.mcqCount > 0)
  {
    MeanInRange(ScoresOfKind(scorer, answers, catalog, Likert));
    MeanInRange(ScoresOfKind(scorer, answers, catalog, Mcq));
  }

  lemma {:induction false} NothingKept(scorer: Scorer, answers: Answers, catalog: Catalog, kind: Kind)
    requires forall k :: 0 <= k < |answers| ==> Lookup(scorer, catalog, answers[k]).None?
    ensures ScoresOfKind(scorer, answers, catalog, kind) == []
  {
    if answers != [] {
      NothingKept(scorer, answers[..|answers| - 1], catalog, kind);
    }
  }

  /** A record with no scorable answer scores 0 with both counts 0. */
  lemma NothingScorableScoresZero(scorer: Scorer, answers: Answers, catalog: Catalog)
    requires forall k :: 0 <= k < |answers| ==> Lookup(scorer, catalog, answers[k]).None?
    ensures Breakdown(scorer, answers, catalog) == ScoreBreakdown(0.0, None, None, 0, 0)
  {
    NothingKept(scorer, answers, catalog, Likert);
    NothingKept(scorer, answers, catalog, Mcq);
  }

  /** An answer that does not normalise changes neither list: it is counted
      in neither `likert_count` nor `mcq_count`. */
  lemma DroppedAnswerIgnored(scorer: Scorer, answers: Answers, entry: (string, AnswerValue), catalog: Catalog)
    requires Lookup(scorer, catalog, entry).None?
    ensures Breakdown(scorer, answers + [entry], catalog) == Breakdown(scorer, answers, catalog)
  {
    assert (answers + [entry])[..|answers|] == answers;
  }

  /** The backend drops an answer to an unknown question, a scale answer
      that `float` cannot convert (`None`, a list, an object) and any answer to a scale with `max == min`. */
  lemma BackendDropsUnscorable(answers: Answers, entry: (string, AnswerValue), catalog: Catalog)
    requires || entry.0 !in catalog
             || (catalog[entry.0].qtype == ScaleQuestion && PyFloat(entry.1).None?)
             || (catalog[entry.0].qtype == ScaleQuestion && ScaleMax(catalog[entry.0]) == ScaleMin(catalog[entry.0]))
    ensures Breakdown(Backend, answers + [entry], catalog) == Breakdown(Backend, answers, catalog)
  {
    DroppedAnswerIgnored(Backend, answers, entry, catalog);
  }

  /** A choice answer without a usable selection (a non-string single
      answer, a non-list or empty multi answer) still counts, as 0. */
  lemma UnusableSelectionScoresZero(scorer: Scorer, answers: Answers, entry: (string, AnswerValue), catalog: Catalog)
    requires entry.0 in catalog
    requires catalog[entry.0].qtype == SingleChoice || catalog[entry.0].qtype == MultiChoice
    requires Selections(catalog[entry.0], entry.1) == []
    ensures ScoresOfKind(scorer, answers + [entry], catalog, Mcq) == ScoresOfKind(scorer, answers, catalog, Mcq) + [0.0]
    ensures ScoresOfKind(scorer, answers + [entry], catalog, Likert) == ScoresOfKind(scorer, answers, catalog, Likert)
  {
    assert (answers + [entry])[..|answers|] == answers;
  }

  /** A choice answer scores 100 exactly when every selection carries the
      scorer's positive marker. */
  lemma ChoiceFullIffAllPositive(scorer: Scorer, a: AnswerValue, q: Question)
    requires q.qtype == SingleChoice || q.qtype == MultiChoice
    requires Selections(q, a) != []
    ensures Normalize(scorer, a, q).value.score == 100.0
        <==> forall i :: 0 <= i < |Selections(q, a)| ==> IsPositive(scorer, Selections(q, a)[i])
  {
  }

  // ---------------------------------------------------------------------
  // Properties of the dashboard's scale normalisation
  // ---------------------------------------------------------------------

  /** The dashboard's scale score is non-decreasing in the answer, or
      non-increasing on a reverse-scored question. */
  lemma DashboardScaleMonotone(q: Question, v1: real, v2: real)
    requires q.qtype == ScaleQuestion && ScaleMax(q) > ScaleMin(q)
    requires v1 <= v2
    ensures !IsReverseScored(q) ==> DashboardNormalize(Num(v1), q).value.score <= DashboardNormalize(Num(v2), q).value.score
    ensures IsReverseScored(q) ==> DashboardNormalize(Num(v1), q).value.score >= DashboardNormalize(Num(v2), q).value.score
  {
    var lo, hi := ScaleMin(q), ScaleMax(q);
    DivMonotone(v1 - lo, v2 - lo, hi - lo);
    Clamp01Monotone((v1 - lo) / (hi - lo), (v2 - lo) / (hi - lo));
  }

  lemma DivMonotone(a: real, b: real, c: real)
    requires a <= b && c > 0.0
    ensures a / c <= b / c
  {
    var x, y := a / c, b / c;
    assert x * c == a && y * c == b;
  }

  /** On a reverse-scored question the lower bound scores 100, the upper
      bound 0, and the midpoint 50; without reverse scoring the ends swap. */
  lemma DashboardScaleEndpoints(q: Question)
    requires q.qtype == ScaleQuestion && ScaleMax(q) > ScaleMin(q)
    ensures var lo, hi := ScaleMin(q), ScaleMax(q);
      && DashboardNormalize(Num((lo + hi) / 2.0), q).value.score == 50.0
      && DashboardNormalize(Num(lo), q).value.score == (if IsReverseScored(q) then 100.0 else 0.0)
      && DashboardNormalize(Num(hi), q).value.score == (if IsReverseScored(q) then 0.0 else 100.0)
  {
    var lo, hi := ScaleMin(q), ScaleMax(q);
    MidpointIsHalf(lo, hi);
    assert ScaleFraction(q, (lo + hi) / 2.0) == 0.5;
    FractionEnds(lo, hi);
    assert ScaleFraction(q, lo) == 0.0;
    assert ScaleFraction(q, hi) == 1.0;
  }

  lemma FractionEnds(lo: real, hi: real)
    requires lo < hi
    ensures (lo - lo) / (hi - lo) == 0.0 && (hi - lo) / (hi - lo) == 1.0
  {
    var d := hi - lo;
    assert d / d * d == d;
  }

  lemma MidpointIsHalf(lo: real, hi: real)
    requires lo < hi
    ensures ((lo + hi) / 2.0 - lo) / (hi - lo) == 0.5
  {
    var d := hi - lo;
    assert (lo + hi) / 2.0 - lo == d / 2.0;
    assert (d / 2.0) / d == 0.5;
  }

  // ---------------------------------------------------------------------
  // Where the two scorers agree
  // ---------------------------------------------------------------------

  /** The backend's first marker test is subsumed by the second: a text
      with "(+1" also contains "+1". */
  lemma BackendPositiveIsPlusOne(text: string)
    ensures BackendPositive(text) <==> Contains(text, "+1")
    ensures DashboardPositive(text) ==> BackendPositive(text)
  {
    if Contains(text, "(+1") {
      assert "(+1" == "(" + "+1";
      ContainsSuffixOf(text, "(", "+1");
    }
  }

  /** The conditions under which both normalisers give the same result: a
      scale answer that both sides convert alike, on a scale that neither
      has inverted bounds nor reverse scoring (or on which both reject it),
      and no selected text that carries "+1" without "(+1". */
  predicate Agreeable(a: AnswerValue, q: Question) {
    match q.qtype
    case ScaleQuestion =>
      && PyFloat(a) == JsNumber(a)
      && (PyFloat(a).None? || ScaleMax(q) == ScaleMin(q) || (ScaleMax(q) > ScaleMin(q) && !IsReverseScored(q)))
    case SingleChoice => SameMarkers(Selections(q, a))
    case MultiChoice => SameMarkers(Selections(q, a))
    case FreeText => true
    case UnknownType => true
  }

  predicate SameMarkers(sel: seq<AnswerValue>) {
    forall i :: 0 <= i < |sel| && sel[i].Str? ==> (Contains(sel[i].s, "+1") ==> Contains(sel[i].s, "(+1"))
  }

  lemma {:induction false} SameMarkersSameCount(sel: seq<AnswerValue>)
    requires SameMarkers(sel)
    ensures PositiveCount(Backend, sel) == PositiveCount(Dashboard, sel)
  {
    if sel != [] {
      SameMarkersSameCount(sel[..|sel| - 1]);
      var last := sel[|sel| - 1];
      if last.Str? {
        BackendPositiveIsPlusOne(last.s);
      }
    }
  }

  /** Under `Agreeable` both normalisers return the same result. */
  lemma NormalizersAgree(a: AnswerValue, q: Question)
    requires Agreeable(a, q)
    ensures BackendNormalize(a, q) == DashboardNormalize(a, q)
  {
    if q.qtype == SingleChoice || q.qtype == MultiChoice {
      SameMarkersSameCount(Selections(q, a));
    }
  }

  lemma {:induction false} ScoresAgree(answers: Answers, catalog: Catalog, kind: Kind)
    requires forall k :: 0 <= k < |answers| && answers[k].0 in catalog ==> Agreeable(answers[k].1, catalog[answers[k].0])
    ensures ScoresOfKind(Backend, answers, catalog, kind) == ScoresOfKind(Dashboard, answers, catalog, kind)
  {
    if answers != [] {
      ScoresAgree(answers[..|answers| - 1], catalog, kind);
      var last := answers[|answers| - 1];
      if last.0 in catalog {
        NormalizersAgree(last.1, catalog[last.0]);
      }
    }
  }

  /** When every answer is agreeable, the backend and the dashboard compute
      the same breakdown for the record. */
  lemma BreakdownsAgree(answers: Answers, catalog: Catalog)
    requires forall k :: 0 <= k < |answers| && answers[k].0 in catalog ==> Agreeable(answers[k].1, catalog[answers[k].0])
    ensures Breakdown(Backend, answers, catalog) == Breakdown(Dashboard, answers, catalog)
  {
    ScoresAgree(answers, catalog, Likert);
    ScoresAgree(answers, catalog, Mcq);
  }

  /** Precedence of the stored score is harmless on agreeable records: the
      stored backend score equals what the dashboard would compute. */
  lemma StoredScorePrecedence(answers: Answers, catalog: Catalog)
    requires forall k :: 0 <= k < |answers| && answers[k].0 in catalog ==> Agreeable(answers[k].1, catalog[answers[k].0])
    ensures EnsuredScore(Some(Breakdown(Backend, answers, catalog)), answers, catalog)
         == EnsuredScore(None, answers, catalog)
  {
    BreakdownsAgree(answers, catalog);
  }

  /** A text with a bare "+1" marker: the backend counts it, the dashboard
      does not. */
  lemma BareMarkerDisagreement()
    ensures var q := Question("m", MultiChoice, None, None, "", None, ["Yes +1"]);
      && BackendNormalize(Items([Str("Yes +1")]), q) == Some(Normalized(100.0, Mcq))
      && DashboardNormalize(Items([Str("Yes +1")]), q) == Some(Normalized(0.0, Mcq))
  {
    var sel := [Str("Yes +1")];
    BareMarkerFlags();
    assert sel[..0] == [];
    assert PositiveCount(Backend, sel) == 1;
    assert PositiveCount(Dashboard, sel) == 0;
    assert ChoiceScore(Backend, sel) == 100.0;
    assert ChoiceScore(Dashboard, sel) == 0.0;
  }

  lemma BareMarkerFlags()
    ensures BackendPositive("Yes +1") && !DashboardPositive("Yes +1")
  {
    assert OccursAt("Yes +1", "+1", 4);
    ContainsAt("Yes +1", "+1");
    NotContainsFirst("Yes +1", "(+1");
  }

  /** A scale stored with `max < min`: the backend still scores it, the
      dashboard rejects it. */
  lemma InvertedScaleDisagreement()
    ensures var q := Question("s", ScaleQuestion, None, None, "", Some(ScaleBounds(Some(5.0), Some(1.0))), []);
      && BackendNormalize(Num(2.0), q) == Some(Normalized(75.0, Likert))
      && DashboardNormalize(Num(2.0), q) == None
  {
  }

  /** JSON `null` on a scale question: the backend skips it, the dashboard
      scores it as the value 0 (`Number(null) == 0`). */
  lemma NullScaleAnswerDisagreement(q: Question)
    requires q.qtype == ScaleQuestion && ScaleMax(q) > ScaleMin(q)
    ensures BackendNormalize(Null, q).None?
    ensures DashboardNormalize(Null, q) == DashboardNormalize(Num(0.0), q)
    ensures DashboardNormalize(Null, q).Some?
  {
  }

  // ---------------------------------------------------------------------
  // Worked examples
  // ---------------------------------------------------------------------

  /** A 1..5 scale: 3 scores 50 on both sides. */
  lemma ScaleExample()
    ensures var q := Question("q1", ScaleQuestion, None, None, "Focus", Some(ScaleBounds(Some(1.0), Some(5.0))), []);
      && BackendNormalize(Num(3.0), q) == Some(Normalized(50.0, Likert))
      && DashboardNormalize(Num(3.0), q) == Some(Normalized(50.0, Likert))
      && DashboardNormalize(Num(5.0), q) == Some(Normalized(100.0, Likert))
  {
    var q := Question("q1", ScaleQuestion, None, None, "Focus", Some(ScaleBounds(Some(1.0), Some(5.0))), []);
    assert |ToLower("" + " " + "Focus")| < |"reverse scored"|;
    DashboardScaleEndpoints(q);
  }

  /** A reverse-scored 1..5 question: the dashboard scores 5 as 0, 1 as
      100 and 3 as 50. */
  lemma ReverseScaleExample()
    ensures var r := Question("q1", ScaleQuestion, None, Some("Reverse Scored"), "", Some(ScaleBounds(Some(1.0), Some(5.0))), []);
      && DashboardNormalize(Num(3.0), r) == Some(Normalized(50.0, Likert))
      && DashboardNormalize(Num(5.0), r) == Some(Normalized(0.0, Likert))
      && DashboardNormalize(Num(1.0), r) == Some(Normalized(100.0, Likert))
  {
    var r := Question("q1", ScaleQuestion, None, Some("Reverse Scored"), "", Some(ScaleBounds(Some(1.0), Some(5.0))), []);
    var text := ToLower("Reverse Scored" + " " + "");
    assert text[..14] == "reverse scored";
    assert IsReverseScored(r);
    DashboardScaleEndpoints(r);
  }

  /** A multi answer with one positive and one plain text scores 50; an
      empty multi answer scores 0. */
  lemma MultiExample()
    ensures var q := Question("q2", MultiChoice, None, None, "", None, ["Fast (+1)", "Slow"]);
      && DashboardNormalize(Items([Str("Fast (+1)"), Str("Slow")]), q) == Some(Normalized(50.0, Mcq))
      && DashboardNormalize(Items([]), q) == Some(Normalized(0.0, Mcq))
  {
    var sel := [Str("Fast (+1)"), Str("Slow")];
    ExamplePositiveCount();
    assert ChoiceScore(Dashboard, sel) == (1.0 / 2.0) * 100.0;
  }

  /** One of "Fast (+1)" and "Slow" carries the dashboard's marker. */
  lemma ExamplePositiveCount()
    ensures PositiveCount(Dashboard, [Str("Fast (+1)"), Str("Slow")]) == 1
  {
    var sel := [Str("Fast (+1)"), Str("Slow")];
    FastMarked();
    SlowUnmarked();
    assert sel[..1] == [Str("Fast (+1)")] && sel[..1][..0] == [];
  }

  lemma FastMarked()
    ensures DashboardPositive("Fast (+1)")
  {
    assert OccursAt("Fast (+1)", "(+1", 5);
    ContainsAt("Fast (+1)", "(+1");
  }

  lemma SlowUnmarked()
    ensures !DashboardPositive("Slow")
  {
    NotContainsFirst("Slow", "(+1");
  }
}
