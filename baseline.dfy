/** The baseline calibration wizard (BaselineWizard.tsx): its stages, the
    question cursor, the answers it collects, the completeness test for an
    answer, the multi-select toggle and the defaults filled in before the
    answers are submitted. Fetching and saving are parameters: the fetched
    questions, and whether saving failed. */
module Baseline {
  import opened Common

  datatype Stage = Intro | Calibrating | Questions | Complete

  /** A baseline question; `qtype` is `None` when the question has no type,
      `scale` holds the optional bounds. */
  datatype WizardQuestion = WizardQuestion(id: string, qtype: Option<string>, scale: Option<(Option<real>, Option<real>)>)

  /** An answer value as stored in the answers object. */
  datatype Value = Selected(items: seq<string>) | Text(s: string) | Number(x: real) | NotFinite | OtherValue

  /** The answers object; an absent key is `undefined`. */
  type Answers = map<string, Value>

  /** The question type, a missing type counting as `multi`. */
  function TypeOf(q: WizardQuestion): string {
    q.qtype.GetOr("multi")
  }

  /** `isAnswered`: a multi question needs a non-empty selection, a single
      question a non-empty string, a text question a non-blank string, and
      a scale question a finite number or no answer at all (the slider then
      shows its default); other types never count as answered. */
  function IsAnswered(q: Option<WizardQuestion>, answers: Answers): (r: bool)
    ensures q.None? ==> !r
    ensures q.Some? && TypeOf(q.value) == "multi" ==>
      (r <==> q.value.id in answers && answers[q.value.id].Selected? && answers[q.value.id].items != [])
    ensures q.Some? && TypeOf(q.value) == "single" ==>
      (r <==> q.value.id in answers && answers[q.value.id].Text? && answers[q.value.id].s != [])
    ensures q.Some? && TypeOf(q.value) == "text" ==>
      (r <==> q.value.id in answers && answers[q.value.id].Text? && !IsBlank(answers[q.value.id].s))
    ensures q.Some? && TypeOf(q.value) == "scale" ==>
      (r <==> q.value.id !in answers || answers[q.value.id].Number?)
    ensures q.Some? && TypeOf(q.value) !in {"multi", "single", "text", "scale"} ==> !r
  {
    if q.None? then false
    else
      var id := q.value.id;
      var t := TypeOf(q.value);
      if t == "multi" then id in answers && answers[id].Selected? && |answers[id].items| > 0
      else if t == "single" then id in answers && answers[id].Text? && |answers[id].s| > 0
      else if t == "text" then id in answers && answers[id].Text? && |Trim(answers[id].s)| > 0
      else if t == "scale" then id !in answers || answers[id].Number?
      else false
  }

  // ---------------------------------------------------------------------
  // Multi-select toggle
  // ---------------------------------------------------------------------

  /** `selected.filter(item => item !== x)`: every other entry is kept as
      often as it occurs, in order (`RemoveAllSnocKept`,
      `RemoveAllSnocDropped`). */
  function RemoveAll(s: seq<string>, x: string): (r: seq<string>)
    ensures x !in r
    ensures forall y :: y != x ==> (y in r <==> y in s)
    ensures forall y :: y != x ==> multiset(r)[y] == multiset(s)[y]
    ensures |r| == |s| - multiset(s)[x]
  {
    if s == [] then []
    else
      var rest := RemoveAll(s[..|s| - 1], x);
      var last := s[|s| - 1];
      assert s == s[..|s| - 1] + [last];
      assert forall y :: y in s <==> y in s[..|s| - 1] || y == last;
      if last == x then rest else rest + [last]
  }

  /** Filtering one more entry that is kept appends it. */
  lemma RemoveAllSnocKept(s: seq<string>, y: string, x: string)
    requires y != x
    ensures RemoveAll(s + [y], x) == RemoveAll(s, x) + [y]
  {
    assert (s + [y])[..|s|] == s;
  }

  /** Filtering one more entry equal to `x` changes nothing. */
  lemma RemoveAllSnocDropped(s: seq<string>, x: string)
    ensures RemoveAll(s + [x], x) == RemoveAll(s, x)
  {
    assert (s + [x])[..|s|] == s;
  }

  /** The new selection: a present option is removed, an absent one
      appended. */
  function Toggle(selected: seq<string>, option: string): (r: seq<string>)
    ensures option in r <==> option !in selected
    ensures forall y :: y != option ==> (y in r <==> y in selected)
    ensures forall y :: y != option ==> multiset(r)[y] == multiset(selected)[y]
    ensures option !in selected ==> r == selected + [option]
    ensures option in selected ==> |r| == |selected| - multiset(selected)[option]
  {
    if option in selected then RemoveAll(selected, option) else selected + [option]
  }

  /** Toggling twice restores which options are selected. */
  lemma ToggleTwice(selected: seq<string>, option: string)
    ensures forall y :: y in Toggle(Toggle(selected, option), option) <==> y in selected
  {
  }

  /** The current selection of a question, `[]` when it holds no array. */
  function SelectionOf(answers: Answers, id: string): seq<string> {
    if id in answers && answers[id].Selected? then answers[id].items else []
  }

  // ---------------------------------------------------------------------
  // Defaults before submitting
  // ---------------------------------------------------------------------

  /** The midpoint of a scale question's bounds, 1 and 5 by default. */
  function DefaultOf(q: WizardQuestion): int {
    var min := if q.scale.Some? then q.scale.value.0.GetOr(1.0) else 1.0;
    var max := if q.scale.Some? then q.scale.value.1.GetOr(5.0) else 5.0;
    Midpoint(min, max)
  }

  /** A question of explicit type `scale` (a missing type does not count
      here). */
  predicate IsScale(q: WizardQuestion) {
    q.qtype == Some("scale")
  }

  /** The ids of the scale questions. */
  function ScaleIds(qs: seq<WizardQuestion>): (r: set<string>)
    ensures forall j :: 0 <= j < |qs| && IsScale(qs[j]) ==> qs[j].id in r
    ensures forall k :: k in r ==> exists j :: 0 <= j < |qs| && IsScale(qs[j]) && qs[j].id == k
  {
    if qs == [] then {}
    else
      var n := |qs| - 1;
      var prefix := ScaleIds(qs[..n]);
      assert forall j :: 0 <= j < n ==> qs[..n][j] == qs[j];
      prefix + (if IsScale(qs[n]) then {qs[n].id} else {})
  }

  /** The answers after filling every unanswered scale question, question by
      question. */
  function Filled(answers: Answers, qs: seq<WizardQuestion>): (r: Answers)
    ensures r.Keys == answers.Keys + ScaleIds(qs)
    ensures forall k :: k in answers ==> r[k] == answers[k]
  {
    if qs == [] then answers
    else
      var n := |qs| - 1;
      var prefix := Filled(answers, qs[..n]);
      var q := qs[n];
      if IsScale(q) && q.id !in prefix then prefix[q.id := Number(DefaultOf(q) as real)] else prefix
  }

  /** Every unanswered scale question gets its midpoint (the first scale
      question with a given id decides), and nothing else changes. */
  lemma {:induction false} FilledDefaults(answers: Answers, qs: seq<WizardQuestion>, i: nat)
    requires i < |qs| && IsScale(qs[i]) && qs[i].id !in answers
    requires forall j :: 0 <= j < i ==> !(IsScale(qs[j]) && qs[j].id == qs[i].id)
    ensures qs[i].id in Filled(answers, qs) && Filled(answers, qs)[qs[i].id] == Number(DefaultOf(qs[i]) as real)
  {
    var n := |qs| - 1;
    var prefix, q := Filled(answers, qs[..n]), qs[n];
    FilledStep(answers, qs);
    if i < n {
      assert qs[..n][i] == qs[i];
      FilledDefaults(answers, qs[..n], i);
      if IsScale(q) && q.id !in prefix {
        assert q.id != qs[i].id;
      }
    } else {
      FirstScaleIdUnfilled(answers, qs);
    }
  }

  /** One step of `Filled`: the last question is filled on top of the rest. */
  lemma FilledStep(answers: Answers, qs: seq<WizardQuestion>)
    requires qs != []
    ensures var prefix, q := Filled(answers, qs[..|qs| - 1]), qs[|qs| - 1];
      Filled(answers, qs) == if IsScale(q) && q.id !in prefix then prefix[q.id := Number(DefaultOf(q) as real)] else prefix
  {
  }

  /** Before the first scale question with a given id, that id is
      unfilled unless answered. */
  lemma FirstScaleIdUnfilled(answers: Answers, qs: seq<WizardQuestion>)
    requires qs != [] && qs[|qs| - 1].id !in answers
    requires forall j :: 0 <= j < |qs| - 1 ==> !(IsScale(qs[j]) && qs[j].id == qs[|qs| - 1].id)
    ensures qs[|qs| - 1].id !in Filled(answers, qs[..|qs| - 1])
  {
    var n := |qs| - 1;
    forall j | 0 <= j < n && IsScale(qs[..n][j]) ensures qs[..n][j].id != qs[n].id {
      assert qs[..n][j] == qs[j];
    }
  }

  /** The default-filling loop of `submitAndComplete`. */
  method FillDefaults(answers: Answers, qs: seq<WizardQuestion>) returns (compiled: Answers)
    ensures compiled == Filled(answers, qs)
  {
    compiled := answers;
    for i := 0 to |qs|
      invariant compiled == Filled(answers, qs[..i])
    {
      assert qs[..i + 1][..i] == qs[..i];
      var q := qs[i];
      if q.qtype == Some("scale") && q.id !in compiled {
        compiled := compiled[q.id := Number(DefaultOf(q) as real)];
      }
    }
    assert qs[..|qs|] == qs;
  }

  // ---------------------------------------------------------------------
  // The wizard
  // ---------------------------------------------------------------------

  /** The text shown when saving fails without a message of its own. */
  const SaveFailedText := "We hit a snag saving your baseline."

  /** The text shown when loading the questions timed out. */
  const UnreachableText := "Unable to reach the server. Check your connection and try again."

  /** The text shown when loading fails without a message of its own. */
  const StartFailedText := "Unable to start baseline calibration."

  /** How loading the questions failed: the six-second abort, or an error
      with a message (`""` when it has none). */
  datatype LoadFailure = Aborted | Failed(message: string)

  class Wizard {
    var stage: Stage
    var questions: seq<WizardQuestion>
    var current: int
    var answers: Answers
    var error: Option<string>
    /** The answers handed to the save call, if any. */
    var submitted: Option<Answers>
    /** `onComplete({ skipped: true })` was called. */
    var reportedSkip: bool

    predicate Valid()
      reads this
    {
      current >= 0
    }

    constructor ()
      ensures Valid() && stage == Intro && questions == [] && current == 0 && answers == map[]
      ensures error == None && submitted == None && !reportedSkip
    {
      stage := Intro;
      questions := [];
      current := 0;
      answers := map[];
      error := None;
      submitted := None;
      reportedSkip := false;
    }

    /** `handleStart`, with the start of the load it triggers
        (`setError(null)`). */
    method Start()
      modifies this`stage, this`error
      ensures stage == Calibrating && error == None
    {
      stage := Calibrating;
      error := None;
    }

    /** The questions arrived: the cursor and answers are reset and the
        wizard moves to the questions, or completes when there are none. */
    method FinishLoading(fetched: seq<WizardQuestion>)
      modifies this`questions, this`current, this`answers, this`stage
      ensures Valid()
      ensures questions == fetched && current == 0 && answers == map[]
      ensures stage == (if |fetched| > 0 then Questions else Complete)
    {
      questions := fetched;
      current := 0;
      answers := map[];
      stage := if |fetched| > 0 then Questions else Complete;
    }

    /** Loading failed: back to the introduction with a fixed text for a
        timeout, else the error's own message or a fallback. */
    method LoadingFailed(failure: LoadFailure)
      modifies this`error, this`stage
      ensures stage == Intro
      ensures failure.Aborted? ==> error == Some(UnreachableText)
      ensures failure.Failed? && failure.message != [] ==> error == Some(failure.message)
      ensures failure.Failed? && failure.message == [] ==> error == Some(StartFailedText)
    {
      var message := if failure.Aborted? then UnreachableText
                     else if failure.message != [] then failure.message
                     else StartFailedText;
      error := Some(message);
      stage := Intro;
    }

    /** `toggleMultiOption`: only the question's own answer changes. */
    method ToggleMultiOption(questionId: string, option: string)
      modifies this`answers
      ensures answers == old(answers)[questionId := Selected(Toggle(SelectionOf(old(answers), questionId), option))]
      ensures forall k :: k != questionId && k in old(answers) ==> k in answers && answers[k] == old(answers)[k]
    {
      var selected := SelectionOf(answers, questionId);
      var updated := Toggle(selected, option);
      answers := answers[questionId := Selected(updated)];
    }

    /** `goBack`: the cursor never goes below zero. */
    method GoBack()
      requires Valid()
      modifies this`current
      ensures Valid()
      ensures current == if old(current) > 0 then old(current) - 1 else 0
    {
      current := if current - 1 > 0 then current - 1 else 0;
    }

    /** `submitAndComplete`: the unanswered scale questions get their
        midpoints, the answers are submitted, and the wizard completes unless
        saving failed (`saveError`, with its message). */
    method SubmitAndComplete(saveError: Option<string>)
      modifies this`submitted, this`stage, this`error
      ensures submitted == Some(Filled(answers, questions))
      ensures saveError.None? ==> stage == Complete && error == old(error)
      ensures saveError.Some? ==> stage == old(stage)
      ensures saveError.Some? ==> error == Some(if saveError.value != [] then saveError.value else SaveFailedText)
    {
      var compiled := FillDefaults(answers, questions);
      submitted := Some(compiled);
      if saveError.None? {
        stage := Complete;
      } else {
        error := Some(if saveError.value != [] then saveError.value else SaveFailedText);
      }
    }

    /** `goNext`: nothing without a current question; the next question
        while there is one; otherwise the answers are submitted. */
    method GoNext(saveError: Option<string>)
      requires Valid()
      modifies this`current, this`submitted, this`stage, this`error
      ensures Valid() && answers == old(answers) && questions == old(questions)
      ensures old(current) >= |questions| ==>
        current == old(current) && submitted == old(submitted) && stage == old(stage) && error == old(error)
      ensures old(current) < |questions| - 1 ==>
        current == old(current) + 1 && submitted == old(submitted) && stage == old(stage) && error == old(error)
      ensures old(current) == |questions| - 1 ==> current == old(current) && submitted == Some(Filled(answers, questions))
      ensures old(current) == |questions| - 1 && saveError.None? ==> stage == Complete && error == old(error)
      ensures old(current) == |questions| - 1 && saveError.Some? ==>
        stage == old(stage) && error == Some(if saveError.value != [] then saveError.value else SaveFailedText)
    {
      if current >= |questions| {
        return;
      }
      if current < |questions| - 1 {
        current := current + 1;
        return;
      }
      SubmitAndComplete(saveError);
    }

    /** `handleSkip`: outside the questions stage the wizard reports a skip;
        otherwise it advances like `goNext`, submitting after the last
        question. */
    method HandleSkip(saveError: Option<string>)
      requires Valid()
      modifies this`current, this`submitted, this`stage, this`error, this`reportedSkip
      ensures Valid() && answers == old(answers) && questions == old(questions)
      ensures old(stage) != Questions ==>
        reportedSkip && current == old(current) && submitted == old(submitted) && stage == old(stage) && error == old(error)
      ensures old(stage) == Questions ==> reportedSkip == old(reportedSkip)
      ensures old(stage) == Questions && old(current) < |questions| - 1 ==>
        current == old(current) + 1 && submitted == old(submitted) && stage == old(stage) && error == old(error)
      ensures old(stage) == Questions && old(current) >= |questions| - 1 ==>
        current == old(current) && submitted == Some(Filled(answers, questions))
      ensures old(stage) == Questions && old(current) >= |questions| - 1 && saveError.None? ==>
        stage == Complete && error == old(error)
      ensures old(stage) == Questions && old(current) >= |questions| - 1 && saveError.Some? ==>
        stage == old(stage) && error == Some(if saveError.value != [] then saveError.value else SaveFailedText)
    {
      if stage != Questions {
        reportedSkip := true;
        return;
      }
      if current < |questions| - 1 {
        current := current + 1;
        return;
      }
      SubmitAndComplete(saveError);
    }
  }

  /** The default scale 1..5 shows 3. */
  lemma DefaultScaleMidpoint()
    ensures Midpoint(1.0, 5.0) == 3
  {
  }
}
