/** The post-task reflection dialog (ReflectionModal.tsx): at most three
    questions, a step cursor moved by "Next" and "Back", the multi-select
    toggle, the value a scale shows before it is touched, and the
    iteration and duration header. The random shuffle is a parameter (the
    list after shuffling); saving is a parameter (whether it succeeded). */
module ReflectionModal {
  import opened Common
  import Baseline

  /** The most questions the dialog asks. */
  const MaxQuestions := 3

  /** A reflection question: its id and kind, and the scale bounds for a
      scale question. */
  datatype ModalQuestion = ModalQuestion(id: string, kind: string, min: real, max: real)

  /** An answer as the dialog stores it. */
  datatype Value = Selected(items: seq<string>) | Number(x: real) | Text(s: string)

  /** `answers[id] || []` for a multi question. */
  function SelectionOf(answers: map<string, Value>, id: string): seq<string> {
    if id in answers && answers[id].Selected? then answers[id].items else []
  }

  /** `answers[id] ?? Math.round((min + max) / 2)`: the answer if there is
      one, else the middle of the scale. */
  function ScaleShown(answers: map<string, Value>, q: ModalQuestion): (r: real)
    ensures q.id in answers && answers[q.id].Number? ==> r == answers[q.id].x
    ensures q.id !in answers ==> r == Midpoint(q.min, q.max) as real
    ensures q.id !in answers && q.min <= q.max ==> q.min - 0.5 < r <= q.max + 0.5
  {
    if q.id in answers && answers[q.id].Number? then answers[q.id].x
    else Midpoint(q.min, q.max) as real
  }

  /** The header's duration: whole minutes and remaining seconds. */
  function DurationText(duration: nat): (r: string)
    ensures var (m, s) := SplitMinutes(duration);
      r == NatToString(m) + " min " + NatToString(s) + " sec" && m * 60 + s == duration && s < 60
  {
    var (m, s) := SplitMinutes(duration);
    NatToString(m) + " min " + NatToString(s) + " sec"
  }

  class Modal {
    var questions: seq<ModalQuestion>
    var step: int
    var answers: map<string, Value>
    var showSaved: bool
    /** How many times the answers were sent. */
    var submissions: nat

    predicate Valid()
      reads this
    {
      step >= 0 && |questions| <= MaxQuestions
    }

    constructor ()
      ensures Valid() && questions == [] && step == 0 && answers == map[] && !showSaved && submissions == 0
    {
      questions := [];
      step := 0;
      answers := map[];
      showSaved := false;
      submissions := 0;
    }

    /** The questions arrived: the first three of the shuffled list. */
    method LoadQuestions(shuffled: seq<ModalQuestion>)
      requires Valid()
      modifies this`questions
      ensures Valid()
      ensures questions == shuffled[..if |shuffled| < MaxQuestions then |shuffled| else MaxQuestions]
    {
      questions := shuffled[..if |shuffled| < MaxQuestions then |shuffled| else MaxQuestions];
    }

    /** `next`: the following question while there is one, else the answers
        are submitted (and the saved card shows if saving succeeded). */
    method Next(saveOk: bool)
      requires Valid()
      modifies this`step, this`submissions, this`showSaved
      ensures Valid()
      ensures old(step) < |questions| - 1 ==> step == old(step) + 1 && submissions == old(submissions) && showSaved == old(showSaved)
      ensures old(step) >= |questions| - 1 ==> step == old(step) && submissions == old(submissions) + 1
      ensures old(step) >= |questions| - 1 ==> showSaved == (old(showSaved) || saveOk)
    {
      if step < |questions| - 1 {
        step := step + 1;
      } else {
        submissions := submissions + 1;
        if saveOk {
          showSaved := true;
        }
      }
    }

    /** `back`: the previous question, never below the first. */
    method Back()
      requires Valid()
      modifies this`step
      ensures Valid()
      ensures step == if old(step) > 0 then old(step) - 1 else old(step)
    {
      if step > 0 {
        step := step - 1;
      }
    }

    /** The multi-select toggle of the current question: the option is
        removed if selected, else appended; other answers are untouched. */
    method Toggle(questionId: string, option: string)
      modifies this`answers
      ensures answers == old(answers)[questionId := Selected(Baseline.Toggle(SelectionOf(old(answers), questionId), option))]
      ensures option in SelectionOf(answers, questionId) <==> option !in SelectionOf(old(answers), questionId)
      ensures forall k :: k != questionId && k in old(answers) ==> k in answers && answers[k] == old(answers)[k]
    {
      var selected := SelectionOf(answers, questionId);
      answers := answers[questionId := Selected(Baseline.Toggle(selected, option))];
    }
  }

  /** The default 1..5 scale shows 3 before it is touched. */
  lemma DefaultScaleShowsThree(q: ModalQuestion, answers: map<string, Value>)
    requires q.min == 1.0 && q.max == 5.0 && q.id !in answers
    ensures ScaleShown(answers, q) == 3.0
  {
  }
}
