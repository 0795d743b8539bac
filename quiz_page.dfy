/**
 * The quiz page of src/components/quiz/ClientQuizPage.tsx: the React state
 * (`quizData`, `currentQuestionIndex`, `userAnswers`, `selectedChoice`,
 * `isSubmitting`) becomes the fields of a class and each handler a method
 * that runs to completion. The part of `handleQuizComplete` before its first
 * `await` runs inside the click handler; the settling of the submission
 * request is a separate step.
 */
module QuizPage {
  import opened Wrappers

  datatype Choice = Choice(id: string, text: string)

  datatype Question = Question(id: string, question: string, pinyin: string, choices: seq<Choice>,
                               correctAnswer: string)

  /** The quiz as loaded; `totalQuestions` is the server's number, not `|questions|`. */
  datatype QuizData = QuizData(level: string, totalQuestions: int, questions: seq<Question>)

  datatype UserAnswer = UserAnswer(questionId: string, selectedAnswer: string, isCorrect: bool)

  /**
   * The body posted to the submit route. `score` is `None` when
   * `total_questions` is zero, where the source divides by zero and
   * `Math.round` yields `NaN` or `Infinity`.
   */
  datatype QuizResult = QuizResult(level: string, totalQuestions: int, correctAnswers: nat, score: Option<int>,
                                   duration: int, answers: seq<UserAnswer>)

  /** What `handleNextQuestion` did. */
  datatype NextOutcome =
    | Ignored                    // no choice selected or no quiz loaded
    | Threw                      // `quizData.questions[currentQuestionIndex]` is undefined
    | Advanced                   // moved to the next question
    | Completing(result: QuizResult) // last question: the result is being submitted

  /** How the submission request settled. */
  datatype SubmitResponse = Submitted(quizId: string) | NotOk | Rejected

  /** What the page does once the submission settled. */
  datatype AfterSubmit = NavigateTo(path: string) | ErrorToast

  // ---------------------------------------------------------------------------
  // The correct count and the score

  /** `finalAnswers.filter(a => a.is_correct).length`. */
  function CorrectCount(answers: seq<UserAnswer>): (n: nat)
    ensures n <= |answers|
  {
    if answers == [] then 0
    else CorrectCount(answers[..|answers| - 1]) + (if answers[|answers| - 1].isCorrect then 1 else 0)
  }

  /** All answers are correct exactly when the count is the length, none exactly when it is zero. */
  lemma {:induction false} CorrectCountExtremes(answers: seq<UserAnswer>)
    ensures CorrectCount(answers) == |answers| <==> forall i :: 0 <= i < |answers| ==> answers[i].isCorrect
    ensures CorrectCount(answers) == 0 <==> forall i :: 0 <= i < |answers| ==> !answers[i].isCorrect
  {
    if answers != [] {
      var init := answers[..|answers| - 1];
      CorrectCountExtremes(init);
      assert forall i :: 0 <= i < |init| ==> init[i] == answers[i];
    }
  }

  /** `Math.floor(a / b)` on exact rationals. */
  function FloorDiv(a: int, b: int): int
    requires b != 0
  {
    if b > 0 then a / b else (-a) / (-b)
  }

  /**
   * `Math.round((correct / total) * 100)`, i.e. `floor(100 * correct / total + 1/2)`,
   * computed exactly; `None` for a zero total.
   */
  function Score(correct: nat, total: int): Option<int>
  {
    if total == 0 then None else Some(FloorDiv(200 * correct + total, 2 * total))
  }

  /** The score is `100 * correct / total` rounded to the nearest integer, halves upwards. */
  lemma ScoreRounds(correct: nat, total: int)
    requires total > 0
    ensures Score(correct, total).Some?
    ensures var s := Score(correct, total).value;
      2 * s * total <= 200 * correct + total < 2 * s * total + 2 * total
  {
    var a, b := 200 * correct + total, 2 * total;
    var s := a / b;
    assert a == b * s + a % b && 0 <= a % b < b;
    assert 2 * s * total == b * s;
  }

  /** With no more correct answers than questions the score is a percentage: 0..100. */
  lemma ScoreIsPercentage(correct: nat, total: int)
    requires 0 < total && correct <= total
    ensures Score(correct, total).Some?
    ensures 0 <= Score(correct, total).value <= 100
    ensures correct == total ==> Score(correct, total).value == 100
    ensures correct == 0 ==> Score(correct, total).value == 0
  {
    ScoreRounds(correct, total);
    var s := Score(correct, total).value;
    ScoreBelow(s, correct, total, 100);
    ScoreAbove(s, correct, total, 0);
    if correct == total {
      ScoreAbove(s, correct, total, 100);
    }
    if correct == 0 {
      ScoreBelow(s, correct, total, 0);
    }
  }

  lemma ScoreBelow(s: int, correct: nat, total: int, bound: int)
    requires 0 < total && correct <= total * bound / 100 && 2 * s * total <= 200 * correct + total
    requires bound == 0 || bound == 100
    ensures s <= bound
  {
    if s > bound {
      calc {
        2 * s * total;
      >= { MultiplyMonotone(bound + 1, s, 2 * total); }
        2 * (bound + 1) * total;
        ==
        2 * bound * total + 2 * total;
      }
    }
  }

  lemma ScoreAbove(s: int, correct: nat, total: int, bound: int)
    requires 0 < total && correct >= total * bound / 100 && 200 * correct + total < 2 * s * total + 2 * total
    requires bound == 0 || bound == 100
    ensures s >= bound
  {
    if s < bound {
      MultiplyMonotone(s, bound - 1, 2 * total);
    }
  }

  lemma MultiplyMonotone(x: int, y: int, k: nat)
    requires x <= y
    ensures x * k <= y * k
  {
  }

  /**
   * The body of `handleQuizComplete` up to the request: correct count, score
   * and payload. The payload's level is the page's `level` prop, not the one
   * in the fetched quiz.
   */
  function ResultOf(level: string, data: QuizData, finalAnswers: seq<UserAnswer>, duration: int): QuizResult
  {
    var correct := CorrectCount(finalAnswers);
    QuizResult(level, data.totalQuestions, correct, Score(correct, data.totalQuestions), duration, finalAnswers)
  }

  /** The answer recorded for `question` when `selected` is chosen. */
  function AnswerFor(question: Question, selected: string): (a: UserAnswer)
    ensures a.questionId == question.id && a.selectedAnswer == selected
    ensures a.isCorrect <==> selected == question.correctAnswer
  {
    UserAnswer(question.id, selected, selected == question.correctAnswer)
  }

  /**
   * The answers line up with the questions: answer `i` belongs to question
   * `i` up to the current index, and any further answer to the current one.
   */
  ghost predicate Aligned(questions: seq<Question>, index: nat, answers: seq<UserAnswer>)
  {
    forall i :: 0 <= i < |answers| ==>
      (if i < index then i < |questions| && answers[i].questionId == questions[i].id
       else index < |questions| && answers[i].questionId == questions[index].id)
  }

  class ClientQuizPage {
    /** The `level` prop the page was rendered with. */
    const level: string
    var quizData: Option<QuizData>
    var loading: bool
    var currentQuestionIndex: int
    var userAnswers: seq<UserAnswer>
    var selectedChoice: string
    var isSubmitting: bool
    /** How many times the last question started a submission. */
    ghost var completions: nat

    ghost predicate Valid()
      reads this
    {
      && 0 <= currentQuestionIndex <= |userAnswers|
      && (completions == 0 ==> |userAnswers| == currentQuestionIndex)
      && (quizData.None? ==> currentQuestionIndex == 0 && completions == 0)
      && (quizData.Some? ==>
            var questions := quizData.value.questions;
            && (questions == [] ==> currentQuestionIndex == 0 && completions == 0)
            && (questions != [] ==> currentQuestionIndex < |questions|)
            && (completions > 0 ==> currentQuestionIndex == |questions| - 1)
            && Aligned(questions, currentQuestionIndex, userAnswers))
    }

    /** The initial state of the `useState` hooks. */
    constructor (level: string)
      ensures Valid()
      ensures this.level == level
      ensures quizData == None && loading && currentQuestionIndex == 0 && userAnswers == []
      ensures selectedChoice == "" && !isSubmitting && completions == 0
    {
      this.level := level;
      quizData, loading := None, true;
      currentQuestionIndex, userAnswers := 0, [];
      selectedChoice, isSubmitting := "", false;
      completions := 0;
    }

    /** The mount effect: the fetched quiz is stored (a failed fetch keeps `null`) and loading ends. */
    method ReceiveQuiz(response: Option<QuizData>)
      requires Valid() && quizData.None?
      modifies this
      ensures Valid()
      ensures quizData == response && !loading
      ensures currentQuestionIndex == old(currentQuestionIndex) && userAnswers == old(userAnswers)
      ensures selectedChoice == old(selectedChoice) && isSubmitting == old(isSubmitting)
    {
      quizData := response;
      loading := false;
    }

    /** `handleChoiceSelect`: only the selection changes. */
    method HandleChoiceSelect(choiceId: string)
      requires Valid()
      modifies this`selectedChoice
      ensures Valid()
      ensures selectedChoice == choiceId
    {
      selectedChoice := choiceId;
    }

    /**
     * `handleNextQuestion`. Ignored without a selection or a quiz; otherwise
     * one answer is recorded for the current question and the selection is
     * cleared; the index moves on unless this is the last question, where
     * the completion starts with all earlier answers plus the new one.
     */
    method HandleNextQuestion(duration: int) returns (outcome: NextOutcome)
      requires Valid()
      modifies this
      ensures Valid()
      ensures quizData == old(quizData) && loading == old(loading)
      ensures old(selectedChoice) == "" || old(quizData).None? ==>
                outcome == Ignored && currentQuestionIndex == old(currentQuestionIndex)
                && userAnswers == old(userAnswers) && selectedChoice == old(selectedChoice)
                && isSubmitting == old(isSubmitting)
      ensures old(selectedChoice) != "" && old(quizData).Some? && old(quizData).value.questions == [] ==>
                outcome == Threw && currentQuestionIndex == old(currentQuestionIndex)
                && userAnswers == old(userAnswers) && selectedChoice == old(selectedChoice)
                && isSubmitting == old(isSubmitting)
      ensures old(selectedChoice) != "" && old(quizData).Some? && old(quizData).value.questions != [] ==>
                var questions := old(quizData).value.questions;
                var answer := AnswerFor(questions[old(currentQuestionIndex)], old(selectedChoice));
                && userAnswers == old(userAnswers) + [answer]
                && selectedChoice == ""
                && (old(currentQuestionIndex) < |questions| - 1 ==>
                      outcome == Advanced && currentQuestionIndex == old(currentQuestionIndex) + 1
                      && isSubmitting == old(isSubmitting))
                && (old(currentQuestionIndex) == |questions| - 1 ==>
                      outcome == Completing(ResultOf(level, old(quizData).value, userAnswers, duration))
                      && currentQuestionIndex == old(currentQuestionIndex) && isSubmitting)
    {
      if selectedChoice == "" || quizData.None? {
        return Ignored;
      }
      var data := quizData.value;
      if currentQuestionIndex >= |data.questions| {
        return Threw;
      }
      var currentQuestion := data.questions[currentQuestionIndex];
      var isCorrect := selectedChoice == currentQuestion.correctAnswer;
      var userAnswer := UserAnswer(currentQuestion.id, selectedChoice, isCorrect);
      var previous := userAnswers;
      userAnswers := userAnswers + [userAnswer];
      selectedChoice := "";
      if currentQuestionIndex < |data.questions| - 1 {
        currentQuestionIndex := currentQuestionIndex + 1;
        outcome := Advanced;
      } else {
        var result := HandleQuizComplete(previous + [userAnswer], duration);
        outcome := Completing(result.value);
      }
    }

    /**
     * `handleNextQuestion` as evidently intended: the answer to the current
     * question replaces any answer already recorded for it, so a retry after
     * a failed submission posts one answer per question.
     */
    method HandleNextQuestionOnce(duration: int) returns (outcome: NextOutcome)
      requires Valid()
      modifies this
      ensures Valid()
      ensures quizData == old(quizData) && loading == old(loading)
      ensures old(selectedChoice) == "" || old(quizData).None? ==>
                outcome == Ignored && currentQuestionIndex == old(currentQuestionIndex)
                && userAnswers == old(userAnswers) && selectedChoice == old(selectedChoice)
                && isSubmitting == old(isSubmitting)
      ensures old(selectedChoice) != "" && old(quizData).Some? && old(quizData).value.questions == [] ==>
                outcome == Threw && currentQuestionIndex == old(currentQuestionIndex)
                && userAnswers == old(userAnswers) && selectedChoice == old(selectedChoice)
                && isSubmitting == old(isSubmitting)
      ensures old(selectedChoice) != "" && old(quizData).Some? && old(quizData).value.questions != [] ==>
                var questions := old(quizData).value.questions;
                var answer := AnswerFor(questions[old(currentQuestionIndex)], old(selectedChoice));
                && userAnswers == old(userAnswers)[..old(currentQuestionIndex)] + [answer]
                && selectedChoice == ""
                && (old(currentQuestionIndex) < |questions| - 1 ==>
                      outcome == Advanced && currentQuestionIndex == old(currentQuestionIndex) + 1
                      && isSubmitting == old(isSubmitting))
                && (old(currentQuestionIndex) == |questions| - 1 ==>
                      outcome == Completing(ResultOf(level, old(quizData).value, userAnswers, duration))
                      && currentQuestionIndex == old(currentQuestionIndex) && isSubmitting)
      ensures outcome.Completing? ==>
                var questions := quizData.value.questions;
                && |outcome.result.answers| == |questions|
                && (forall i :: 0 <= i < |questions| ==> outcome.result.answers[i].questionId == questions[i].id)
                && outcome.result.correctAnswers <= |questions|
    {
      if selectedChoice == "" || quizData.None? {
        return Ignored;
      }
      var data := quizData.value;
      if currentQuestionIndex >= |data.questions| {
        return Threw;
      }
      var currentQuestion := data.questions[currentQuestionIndex];
      var isCorrect := selectedChoice == currentQuestion.correctAnswer;
      var userAnswer := UserAnswer(currentQuestion.id, selectedChoice, isCorrect);
      var finalAnswers := userAnswers[..currentQuestionIndex] + [userAnswer];
      userAnswers := finalAnswers;
      selectedChoice := "";
      if currentQuestionIndex < |data.questions| - 1 {
        currentQuestionIndex := currentQuestionIndex + 1;
        outcome := Advanced;
      } else {
        var result := HandleQuizComplete(finalAnswers, duration);
        outcome := Completing(result.value);
      }
    }

    /**
     * `handleQuizComplete` up to its request: `isSubmitting` becomes true and
     * the payload is computed from the final answers.
     */
    method HandleQuizComplete(finalAnswers: seq<UserAnswer>, duration: int) returns (result: Option<QuizResult>)
      requires quizData.Some? ==> currentQuestionIndex == |quizData.value.questions| - 1
      modifies this
      ensures quizData.None? ==> result.None? && isSubmitting == old(isSubmitting) && completions == old(completions)
      ensures quizData.Some? ==> result == Some(ResultOf(level, quizData.value, finalAnswers, duration))
                                 && isSubmitting && completions == old(completions) + 1
      ensures quizData == old(quizData) && loading == old(loading)
      ensures currentQuestionIndex == old(currentQuestionIndex) && userAnswers == old(userAnswers)
      ensures selectedChoice == old(selectedChoice)
    {
      if quizData.None? {
        return None;
      }
      isSubmitting := true;
      completions := completions + 1;
      result := Some(ResultOf(level, quizData.value, finalAnswers, duration));
    }

    /**
     * The submission settled: on success the page navigates to the result,
     * otherwise an error toast is shown; `isSubmitting` is false either way.
     */
    method SubmissionSettled(response: SubmitResponse) returns (after: AfterSubmit)
      requires Valid()
      modifies this`isSubmitting
      ensures Valid()
      ensures !isSubmitting
      ensures response.Submitted? ==> after == NavigateTo("/quiz/result/" + response.quizId)
      ensures !response.Submitted? ==> after == ErrorToast
    {
      match response {
        case Submitted(quizId) => after := NavigateTo("/quiz/result/" + quizId);
        case _ => after := ErrorToast;
      }
      isSubmitting := false;
    }
  }

  /**
   * With the intended handler, a submitted quiz whose server count matches
   * its questions always scores a percentage.
   */
  lemma SubmittedScoreIsPercentage(level: string, data: QuizData, result: QuizResult)
    requires data.questions != [] && data.totalQuestions == |data.questions|
    requires result.correctAnswers <= |data.questions|
    requires result == ResultOf(level, data, result.answers, result.duration)
    ensures result.score.Some? && 0 <= result.score.value <= 100
  {
    ScoreIsPercentage(result.correctAnswers, data.totalQuestions);
  }

  /**
   * The handler as written: after a failed submission of a one-question quiz
   * the user picks the answer again and resubmits; the second payload holds
   * two answers for the one question, two correct answers and a score of 200.
   */
  method RetryAfterFailedSubmission() returns (first: NextOutcome, second: NextOutcome)
    ensures first.Completing? && first.result.correctAnswers == 1 && first.result.score == Some(100)
    ensures second.Completing? && |second.result.answers| == 2
    ensures second.result.correctAnswers == 2 && second.result.score == Some(200)
  {
    var page := new ClientQuizPage("HSK1");
    var question := Question("q1", "\U{4f60}\U{597d}", "ni hao", [Choice("a", "hello")], "a");
    var data := QuizData("HSK1", 1, [question]);
    page.ReceiveQuiz(Some(data));
    var answer := UserAnswer("q1", "a", true);
    page.HandleChoiceSelect("a");
    first := page.HandleNextQuestion(30);
    assert page.userAnswers == [answer] && page.currentQuestionIndex == 0 && page.quizData == Some(data);
    assert CorrectCount([answer]) == 1;
    assert first == Completing(ResultOf("HSK1", data, [answer], 30));
    var after := page.SubmissionSettled(NotOk);
    page.HandleChoiceSelect("a");
    second := page.HandleNextQuestion(40);
    assert page.userAnswers == [answer, answer];
    assert CorrectCount([answer, answer]) == 2 by {
      assert [answer, answer][..1] == [answer];
    }
    assert second == Completing(ResultOf("HSK1", data, [answer, answer], 40));
  }

  /** The same retry with the intended handler posts one answer and scores 100 again. */
  method RetryAfterFailedSubmissionOnce() returns (first: NextOutcome, second: NextOutcome)
    ensures first.Completing? && first.result.correctAnswers == 1 && first.result.score == Some(100)
    ensures second.Completing? && |second.result.answers| == 1
    ensures second.result.correctAnswers == 1 && second.result.score == Some(100)
  {
    var page := new ClientQuizPage("HSK1");
    var question := Question("q1", "\U{4f60}\U{597d}", "ni hao", [Choice("a", "hello")], "a");
    var data := QuizData("HSK1", 1, [question]);
    page.ReceiveQuiz(Some(data));
    var answer := UserAnswer("q1", "a", true);
    page.HandleChoiceSelect("a");
    assert page.userAnswers == [] && page.currentQuestionIndex == 0 && page.quizData == Some(data);
    assert AnswerFor(question, "a") == answer && [][..0] + [answer] == [answer];
    first := page.HandleNextQuestionOnce(30);
    assert page.userAnswers == [answer] && page.currentQuestionIndex == 0 && page.quizData == Some(data);
    assert CorrectCount([answer]) == 1;
    assert first == Completing(ResultOf("HSK1", data, [answer], 30));
    var after := page.SubmissionSettled(NotOk);
    page.HandleChoiceSelect("a");
    assert page.userAnswers[..0] + [answer] == [answer] && page.currentQuestionIndex == 0;
    second := page.HandleNextQuestionOnce(40);
    assert page.userAnswers == [answer];
    assert second == Completing(ResultOf("HSK1", data, [answer], 40));
  }
}
