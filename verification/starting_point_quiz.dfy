/**
 * The starting-point quiz widget: one question at a time, an answer advancing
 * to the next question after a short delay, a back button, and a result card
 * with a "Retake Quiz" button once every question has been passed.
 *
 * The 400 ms auto-advance timer is the flag `advancePending`; the timer
 * firing is the method `FireAdvance`.
 */
module StartingPointQuiz {
  import opened Wrappers
  import opened QuizData

  datatype SlideDirection = Left | Right

  /** The answer array the quiz starts from: every question unanswered. */
  function NoAnswers(): (a: seq<Option<int>>)
    ensures |a| == |QuizQuestions|
    ensures forall i :: 0 <= i < |a| ==> a[i].None?
  {
    seq(|QuizQuestions|, _ => None)
  }

  class Quiz {
    var currentQuestion: int
    var answers: seq<Option<int>>
    var slideDirection: SlideDirection
    /** An auto-advance timeout is scheduled and not yet cleared. */
    var advancePending: bool

    /**
     * The question index stays within the questions plus the result screen,
     * one answer slot per question, and an advance is pending only while a
     * question is on screen: selecting clears the previous timeout before
     * scheduling the next, so at most one advance is ever outstanding.
     */
    ghost predicate Valid()
      reads this
    {
      && 0 <= currentQuestion <= |QuizQuestions|
      && |answers| == |QuizQuestions|
      && (advancePending ==> currentQuestion < |QuizQuestions|)
    }

    constructor()
      ensures Valid()
      ensures currentQuestion == 0 && answers == NoAnswers()
      ensures slideDirection == Left && !advancePending
    {
      currentQuestion := 0;
      answers := NoAnswers();
      slideDirection := Left;
      advancePending := false;
    }

    /** Past the last question the result card replaces the question card. */
    predicate ShowResult(): (b: bool)
      reads this
      ensures Valid() ==> (b <==> currentQuestion == |QuizQuestions|)
    {
      currentQuestion >= |QuizQuestions|
    }

    /** The recommended destination, present exactly on the result screen. */
    function Destination(): (d: Option<QuizDestination>)
      reads this
      ensures d.Some? <==> ShowResult()
      ensures d.Some? ==> d.value in QuizDestinations && IsWinner(answers, d.value.key)
    {
      if ShowResult() then
        WinnerIsWinner(answers);
        Some(Recommend(answers))
      else
        None
    }

    /** The progress bar's value: 20 per question, the current one included. */
    function Progress(): (p: int)
      reads this
      requires Valid() && !ShowResult()
      ensures 20 <= p <= 100
      ensures p == 100 <==> currentQuestion == |QuizQuestions| - 1
    {
      (currentQuestion + 1) * 20
    }

    /** The question card shows "Back" on every question but the first. */
    predicate HasBackButton(): (b: bool)
      reads this
      ensures Valid() && b ==> 1 <= currentQuestion < |QuizQuestions|
      ensures currentQuestion == 0 ==> !b
    {
      !ShowResult() && currentQuestion > 0
    }

    /**
     * An option of the question on screen is clicked: any pending advance is
     * cleared, the answer is recorded, and a new advance is scheduled.
     */
    method Select(optionIndex: int)
      requires Valid() && !ShowResult()
      modifies this
      ensures Valid()
      ensures answers == old(answers)[old(currentQuestion) := Some(optionIndex)]
      ensures currentQuestion == old(currentQuestion)
      ensures slideDirection == Left && advancePending
    {
      answers := answers[currentQuestion := Some(optionIndex)];
      slideDirection := Left;
      advancePending := true;
    }

    /** The scheduled advance fires: move on to the next question or the result. */
    method FireAdvance()
      requires Valid() && advancePending
      modifies this
      ensures Valid()
      ensures currentQuestion == old(currentQuestion) + 1 && !advancePending
      ensures answers == old(answers) && slideDirection == old(slideDirection)
    {
      currentQuestion := currentQuestion + 1;
      advancePending := false;
    }

    /** "Back": cancel a pending advance and return to the previous question, its answer kept. */
    method Back()
      requires Valid() && HasBackButton()
      modifies this
      ensures Valid()
      ensures currentQuestion == old(currentQuestion) - 1 && !advancePending
      ensures answers == old(answers) && slideDirection == Right
    {
      advancePending := false;
      slideDirection := Right;
      currentQuestion := currentQuestion - 1;
    }

    /** "Retake Quiz": every answer is cleared and the first question shown. */
    method Retake()
      requires Valid()
      modifies this
      ensures Valid()
      ensures currentQuestion == 0 && answers == NoAnswers() && !advancePending
      ensures slideDirection == Right
    {
      advancePending := false;
      slideDirection := Right;
      answers := NoAnswers();
      currentQuestion := 0;
    }
  }

  /** Answering the last question and letting the advance fire shows the recommendation. */
  method AnswerLastQuestion(q: Quiz, optionIndex: int) returns (d: Option<QuizDestination>)
    requires q.Valid() && q.currentQuestion == |QuizQuestions| - 1
    modifies q
    ensures q.Valid() && q.ShowResult()
    ensures d == Some(Recommend(q.answers))
    ensures q.answers == old(q.answers)[|QuizQuestions| - 1 := Some(optionIndex)]
  {
    q.Select(optionIndex);
    q.FireAdvance();
    d := q.Destination();
  }
}
