/**
 * The multiple-choice quiz (components/Quiz.tsx): one question at a time, an
 * option is picked, submitted and scored, then the next question follows until
 * the last one finishes the quiz.
 *
 * The three handlers are modelled exactly as written.  Which of them the page
 * offers depends on the state: options and Submit only while the question is
 * unsubmitted (lines 108, 134-141), Next only after submitting (lines 142-151).
 * The score bound below needs that discipline; the others hold for any order of
 * calls.
 */
module QuizModel {
  import opened Wrappers
  import opened StudyTypes

  /** `!selectedOption`: no option, or the empty key, which JavaScript also treats as false. */
  predicate NoSelection(selected: Option<string>) {
    selected.None? || selected.value == ""
  }

  /** The width of the progress bar, as a fraction: (currentIndex + 1) / questions.length (line 68). */
  function ProgressFraction(index: nat, count: nat): (f: real)
    requires index < count
    ensures 0.0 < f <= 1.0
    ensures f == 1.0 <==> index == count - 1
  {
    (index + 1) as real / count as real
  }

  class Quiz {
    const questions: seq<QuizQuestion>
    var currentIndex: nat
    var selectedOption: Option<string>
    var isSubmitted: bool
    var score: nat
    var quizFinished: bool

    /** Holds after any sequence of handler calls. */
    ghost predicate Valid()
      reads this
    {
      && 0 < |questions|
      && currentIndex < |questions|
      && (isSubmitted ==> !NoSelection(selectedOption))
      && (quizFinished ==> currentIndex == |questions| - 1)
    }

    /** The questions answered so far: those before the current one, and the current one once submitted. */
    function Answered(): nat
      reads this
    {
      currentIndex + (if isSubmitted then 1 else 0)
    }

    /** Holds as long as Submit is only used while it is offered. */
    ghost predicate ScoreBounded()
      reads this
    {
      score <= Answered()
    }

    /** The page renders questions[0] at once, so the list is never empty. */
    constructor (questions: seq<QuizQuestion>)
      requires 0 < |questions|
      ensures Valid() && ScoreBounded()
      ensures this.questions == questions
      ensures currentIndex == 0 && selectedOption.None? && !isSubmitted && score == 0 && !quizFinished
    {
      this.questions := questions;
      currentIndex := 0;
      selectedOption := None;
      isSubmitted := false;
      score := 0;
      quizFinished := false;
    }

    /** handleOptionSelect (lines 18-21): ignored once the question is submitted. */
    method SelectOption(key: string)
      requires Valid()
      modifies this`selectedOption
      ensures Valid()
      ensures old(isSubmitted) ==> selectedOption == old(selectedOption)
      ensures !old(isSubmitted) ==> selectedOption == Some(key)
      ensures old(ScoreBounded()) ==> ScoreBounded()
    {
      if isSubmitted {
        return;
      }
      selectedOption := Some(key);
    }

    /**
     * handleSubmit (lines 23-29): nothing without a selection; otherwise the
     * question is submitted and the score rises by one exactly when the
     * selected key is the correct answer.
     */
    method Submit()
      requires Valid()
      modifies this`isSubmitted, this`score
      ensures Valid()
      ensures NoSelection(selectedOption) ==> isSubmitted == old(isSubmitted) && score == old(score)
      ensures !NoSelection(selectedOption) ==> isSubmitted
      ensures !NoSelection(selectedOption) && selectedOption.value == questions[currentIndex].correctAnswer ==>
        score == old(score) + 1
      ensures !NoSelection(selectedOption) && selectedOption.value != questions[currentIndex].correctAnswer ==>
        score == old(score)
      ensures old(ScoreBounded()) && !old(isSubmitted) ==> ScoreBounded()
    {
      if NoSelection(selectedOption) {
        return;
      }
      isSubmitted := true;
      if selectedOption.value == questions[currentIndex].correctAnswer {
        score := score + 1;
      }
    }

    /**
     * handleNext (lines 31-39): before the last question, move on and clear the
     * selection and the submitted flag; on the last, finish and stay put.
     */
    method Next()
      requires Valid()
      modifies this`currentIndex, this`selectedOption, this`isSubmitted, this`quizFinished
      ensures Valid()
      ensures old(currentIndex) < |questions| - 1 ==>
        currentIndex == old(currentIndex) + 1 && selectedOption.None? && !isSubmitted
        && quizFinished == old(quizFinished)
      ensures old(currentIndex) == |questions| - 1 ==>
        quizFinished && currentIndex == old(currentIndex)
        && selectedOption == old(selectedOption) && isSubmitted == old(isSubmitted)
      ensures old(ScoreBounded()) ==> ScoreBounded()
    {
      if currentIndex < |questions| - 1 {
        currentIndex := currentIndex + 1;
        selectedOption := None;
        isSubmitted := false;
      } else {
        quizFinished := true;
      }
    }

    /** The progress bar's fraction for the current question. */
    function Progress(): (f: real)
      reads this
      requires Valid()
      ensures 0.0 < f <= 1.0
    {
      ProgressFraction(currentIndex, |questions|)
    }

    /** "You scored S out of N" (line 51): S never exceeds N. */
    function FinalScore(): (r: (nat, nat))
      reads this
      requires Valid() && ScoreBounded()
      ensures r.0 == score && r.1 == |questions|
      ensures r.0 <= Answered() <= r.1
    {
      (score, |questions|)
    }
  }

  /**
   * A full run in which every question is answered correctly: the score
   * reaches the number of questions and no further.
   */
  method PerfectRunScenario(q: QuizQuestion) {
    var quiz := new Quiz([q, q]);
    quiz.SelectOption(q.correctAnswer);
    quiz.Submit();
    quiz.Next();
    quiz.SelectOption(q.correctAnswer);
    quiz.Submit();
    quiz.Next();
    assert q.correctAnswer != "" ==> quiz.quizFinished && quiz.FinalScore() == (2, 2);
  }
}
