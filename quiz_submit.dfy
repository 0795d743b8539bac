/**
 * The `POST` handler of src/app/api/v2/quiz/submit/route.ts. The parsed
 * body, the `getUser` result and the replies of the three inserts are
 * inputs; the handler's result is its response together with the inserts
 * it attempted, in order.
 */
module QuizSubmit {
  import opened Wrappers

  datatype QuestionType = Basic | Sentence | Ordering | Situation

  /** A token of an ordering question (`WordText`). */
  datatype WordText = WordText(id: string, text: string)

  /** One submitted question with the user's answer; optional fields may be absent. */
  datatype SubmittedQuestion = SubmittedQuestion(
    wordId: string,
    questionType: QuestionType,
    question: Option<string>,
    options: Option<seq<string>>,
    correctAnswer: Option<string>,
    pinyin: Option<string>,
    tokens: Option<seq<WordText>>,
    translation: Option<string>,
    userAnswer: Option<string>,
    userAnswerOrder: Option<seq<string>>,
    isCorrect: bool)

  datatype Submission = Submission(level: string, duration: int, score: int, correctCount: int,
                                   questions: seq<SubmittedQuestion>)

  datatype SessionRow = SessionRow(userId: string, level: string, duration: int, score: int,
                                   totalQuestions: nat, correctCount: int)

  datatype QuestionRow = QuestionRow(wordId: string, questionType: QuestionType, questionText: string,
                                     options: seq<string>, correctAnswer: string, tokens: seq<WordText>,
                                     pinyin: string, meaning: string)

  /** The stored `user_answer`: a text answer, an ordering, or `null`. */
  datatype AnswerValue = Text(text: string) | Order(order: seq<string>) | Null

  datatype AnswerRow = AnswerRow(sessionId: string, questionId: Option<string>, wordId: string,
                                 questionType: QuestionType, correctAnswer: Option<string>, isCorrect: bool,
                                 userAnswer: AnswerValue, userId: string)

  /** The session returned by the session insert (`select('id')`). */
  datatype InsertedSession = InsertedSession(id: string)

  /** A row returned by the question insert (`select('id, word_id')`). */
  datatype InsertedQuestion = InsertedQuestion(id: string, wordId: string)

  /** What a database call answered: its data, or an error. */
  datatype Reply<T> = Ok(data: T) | Failed

  datatype AuthResult = AuthResult(user: Option<string>, error: bool)

  datatype Insert =
    | InsertSession(session: SessionRow)
    | InsertQuestions(questions: seq<QuestionRow>)
    | InsertAnswers(answers: seq<AnswerRow>)

  datatype Response =
    | Unauthorized                               // 401, "login required"
    | ServerError                                // 500, success: false
    | Success(inputedQuiz: Option<InsertedSession>) // success: true

  datatype Outcome = Outcome(response: Response, inserts: seq<Insert>)

  // ---------------------------------------------------------------------------
  // Row builders

  function BuildSessionRow(userId: string, s: Submission): SessionRow
  {
    SessionRow(userId, s.level, s.duration, s.score, |s.questions|, s.correctCount)
  }

  function BuildQuestionRow(q: SubmittedQuestion): QuestionRow
  {
    QuestionRow(q.wordId, q.questionType, q.question.GetOr(""), q.options.GetOr([]),
                q.correctAnswer.GetOr(""), q.tokens.GetOr([]), q.pinyin.GetOr(""),
                q.translation.GetOr(""))
  }

  function BuildQuestionRows(qs: seq<SubmittedQuestion>): (rows: seq<QuestionRow>)
    ensures |rows| == |qs|
    ensures forall i :: 0 <= i < |qs| ==> rows[i] == BuildQuestionRow(qs[i])
  {
    if qs == [] then [] else BuildQuestionRows(qs[..|qs| - 1]) + [BuildQuestionRow(qs[|qs| - 1])]
  }

  /**
   * `Object.fromEntries(inserted.map(q => [q.word_id, q.id]))`: later entries
   * overwrite earlier ones with the same `word_id`.
   */
  function QuestionIdMap(inserted: seq<InsertedQuestion>): map<string, string>
  {
    if inserted == [] then map[]
    else
      var last := inserted[|inserted| - 1];
      QuestionIdMap(inserted[..|inserted| - 1])[last.wordId := last.id]
  }

  /**
   * `(user_answer || user_answer_order) ?? null`: a non-empty text answer,
   * else the ordering when present, else `null`.
   */
  function UserAnswerValue(userAnswer: Option<string>, userAnswerOrder: Option<seq<string>>): AnswerValue
  {
    if userAnswer.Some? && userAnswer.value != "" then Text(userAnswer.value)
    else if userAnswerOrder.Some? then Order(userAnswerOrder.value)
    else Null
  }

  /** `inputedQuiz?.id || ''`. */
  function SessionId(inputedQuiz: Option<InsertedSession>): string
  {
    if inputedQuiz.Some? && inputedQuiz.value.id != "" then inputedQuiz.value.id else ""
  }

  function BuildAnswerRow(sessionId: string, questionIds: map<string, string>, userId: string,
                          q: SubmittedQuestion): AnswerRow
  {
    AnswerRow(sessionId, if q.wordId in questionIds then Some(questionIds[q.wordId]) else None,
              q.wordId, q.questionType, q.correctAnswer, q.isCorrect,
              UserAnswerValue(q.userAnswer, q.userAnswerOrder), userId)
  }

  function BuildAnswerRows(sessionId: string, questionIds: map<string, string>, userId: string,
                           qs: seq<SubmittedQuestion>): (rows: seq<AnswerRow>)
    ensures |rows| == |qs|
    ensures forall i :: 0 <= i < |qs| ==> rows[i] == BuildAnswerRow(sessionId, questionIds, userId, qs[i])
  {
    if qs == [] then []
    else BuildAnswerRows(sessionId, questionIds, userId, qs[..|qs| - 1])
         + [BuildAnswerRow(sessionId, questionIds, userId, qs[|qs| - 1])]
  }

  // ---------------------------------------------------------------------------
  // The handler

  /**
   * `POST`. `body` is `None` when `request.json()` throws; each reply is
   * consulted only once its insert has been attempted.
   */
  function Post(body: Option<Submission>, auth: AuthResult, sessionReply: Reply<Option<InsertedSession>>,
                questionReply: Reply<seq<InsertedQuestion>>, answerReply: Reply<()>): Outcome
  {
    if body.None? then Outcome(ServerError, [])
    else if auth.error || auth.user.None? then Outcome(Unauthorized, [])
    else
      var s, userId := body.value, auth.user.value;
      var sessionInsert := InsertSession(BuildSessionRow(userId, s));
      if sessionReply.Failed? then Outcome(ServerError, [sessionInsert])
      else
        var questionInsert := InsertQuestions(BuildQuestionRows(s.questions));
        if questionReply.Failed? then Outcome(ServerError, [sessionInsert, questionInsert])
        else
          var questionIds := QuestionIdMap(questionReply.data);
          var answers := BuildAnswerRows(SessionId(sessionReply.data), questionIds, userId, s.questions);
          var all := [sessionInsert, questionInsert, InsertAnswers(answers)];
          if answerReply.Failed? then Outcome(ServerError, all)
          else Outcome(Success(sessionReply.data), all)
  }

  /** `POST` as the route runs it: step by step, each failure leaving through the 500 exit. */
  method HandlePost(body: Option<Submission>, auth: AuthResult, sessionReply: Reply<Option<InsertedSession>>,
                    questionReply: Reply<seq<InsertedQuestion>>, answerReply: Reply<()>)
    returns (response: Response, inserts: seq<Insert>)
    ensures Outcome(response, inserts) == Post(body, auth, sessionReply, questionReply, answerReply)
  {
    inserts := [];
    if body.None? {
      return ServerError, inserts;
    }
    var submission := body.value;
    if auth.error || auth.user.None? {
      return Unauthorized, inserts;
    }
    var userId := auth.user.value;
    inserts := inserts + [InsertSession(BuildSessionRow(userId, submission))];
    if sessionReply.Failed? {
      return ServerError, inserts;
    }
    var inputedQuiz := sessionReply.data;
    inserts := inserts + [InsertQuestions(BuildQuestionRows(submission.questions))];
    if questionReply.Failed? {
      return ServerError, inserts;
    }
    var questionIds := QuestionIdMap(questionReply.data);
    var answers := BuildAnswerRows(SessionId(inputedQuiz), questionIds, userId, submission.questions);
    inserts := inserts + [InsertAnswers(answers)];
    if answerReply.Failed? {
      return ServerError, inserts;
    }
    response := Success(inputedQuiz);
  }

  // ---------------------------------------------------------------------------
  // Properties

  /** Without a signed-in user the answer is 401 and nothing is inserted (once the body parsed). */
  lemma UnauthorizedInsertsNothing(s: Submission, auth: AuthResult, sr: Reply<Option<InsertedSession>>,
                                   qr: Reply<seq<InsertedQuestion>>, ar: Reply<()>)
    requires auth.error || auth.user.None?
    ensures Post(Some(s), auth, sr, qr, ar) == Outcome(Unauthorized, [])
  {
  }

  /** A 401 happens exactly when the body parsed and there is no user; it never follows an insert. */
  lemma UnauthorizedExactly(body: Option<Submission>, auth: AuthResult, sr: Reply<Option<InsertedSession>>,
                            qr: Reply<seq<InsertedQuestion>>, ar: Reply<()>)
    ensures var o := Post(body, auth, sr, qr, ar);
      (o.response == Unauthorized <==> body.Some? && (auth.error || auth.user.None?))
      && (o.response == Unauthorized ==> o.inserts == [])
  {
  }

  /**
   * The inserts happen in the order session, questions, answers; the first
   * failure stops the rest with a 500, and success returns the inserted
   * session after all three.
   */
  lemma StepOrder(s: Submission, userId: string, sr: Reply<Option<InsertedSession>>,
                  qr: Reply<seq<InsertedQuestion>>, ar: Reply<()>)
    ensures var o := Post(Some(s), AuthResult(Some(userId), false), sr, qr, ar);
      && 1 <= |o.inserts| <= 3
      && o.inserts[0] == InsertSession(BuildSessionRow(userId, s))
      && (|o.inserts| >= 2 ==> o.inserts[1] == InsertQuestions(BuildQuestionRows(s.questions)))
      && (|o.inserts| == 3 ==> o.inserts[2].InsertAnswers?)
      && (|o.inserts| == 1 <==> sr.Failed?)
      && (|o.inserts| == 2 <==> sr.Ok? && qr.Failed?)
      && (o.response.Success? <==> sr.Ok? && qr.Ok? && ar.Ok?)
      && (o.response.Success? ==> o.response.inputedQuiz == sr.data && |o.inserts| == 3)
      && (!o.response.Success? ==> o.response == ServerError)
  {
  }

  /** The session row copies the submission and counts the submitted questions. */
  lemma SessionRowCopies(userId: string, s: Submission)
    ensures var row := BuildSessionRow(userId, s);
      && row.userId == userId && row.level == s.level && row.duration == s.duration
      && row.score == s.score && row.correctCount == s.correctCount && row.totalQuestions == |s.questions|
  {
  }

  /** Question rows: present fields are copied, absent ones become empty; `meaning` is the translation. */
  lemma QuestionRowDefaults(q: SubmittedQuestion)
    ensures var row := BuildQuestionRow(q);
      && row.wordId == q.wordId && row.questionType == q.questionType
      && (q.question.Some? ==> row.questionText == q.question.value) && (q.question.None? ==> row.questionText == "")
      && (q.options.Some? ==> row.options == q.options.value) && (q.options.None? ==> row.options == [])
      && (q.correctAnswer.Some? ==> row.correctAnswer == q.correctAnswer.value)
      && (q.correctAnswer.None? ==> row.correctAnswer == "")
      && (q.tokens.Some? ==> row.tokens == q.tokens.value) && (q.tokens.None? ==> row.tokens == [])
      && (q.pinyin.Some? ==> row.pinyin == q.pinyin.value) && (q.pinyin.None? ==> row.pinyin == "")
      && (q.translation.Some? ==> row.meaning == q.translation.value) && (q.translation.None? ==> row.meaning == "")
  {
  }

  /** `questionIdMap[w]` is the id of the last inserted question whose `word_id` is `w`. */
  lemma {:induction false} QuestionIdMapLastWins(inserted: seq<InsertedQuestion>, i: nat)
    requires i < |inserted|
    requires forall j :: i < j < |inserted| ==> inserted[j].wordId != inserted[i].wordId
    ensures inserted[i].wordId in QuestionIdMap(inserted)
    ensures QuestionIdMap(inserted)[inserted[i].wordId] == inserted[i].id
  {
    if i < |inserted| - 1 {
      var prefix := inserted[..|inserted| - 1];
      QuestionIdMapLastWins(prefix, i);
    }
  }

  /** Every inserted `word_id` is a key, and every key maps to the id of a row inserted for it. */
  lemma {:induction false} QuestionIdMapDomain(inserted: seq<InsertedQuestion>)
    ensures var m := QuestionIdMap(inserted);
      && (forall i :: 0 <= i < |inserted| ==> inserted[i].wordId in m)
      && (forall w :: w in m ==> exists i :: 0 <= i < |inserted| && inserted[i].wordId == w && inserted[i].id == m[w])
  {
    if inserted != [] {
      var prefix := inserted[..|inserted| - 1];
      var last := inserted[|inserted| - 1];
      QuestionIdMapDomain(prefix);
      var m := QuestionIdMap(inserted);
      forall i | 0 <= i < |inserted|
        ensures inserted[i].wordId in m
      {
        if i < |prefix| {
          assert inserted[i] == prefix[i];
        }
      }
      forall w | w in m
        ensures exists i :: 0 <= i < |inserted| && inserted[i].wordId == w && inserted[i].id == m[w]
      {
        if w == last.wordId {
          assert inserted[|inserted| - 1].wordId == w;
        } else {
          var k :| 0 <= k < |prefix| && prefix[k].wordId == w && prefix[k].id == QuestionIdMap(prefix)[w];
          assert inserted[k] == prefix[k];
        }
      }
    }
  }

  /** The `user_answer` fallback, case by case. */
  lemma UserAnswerFallback(userAnswer: Option<string>, order: Option<seq<string>>)
    ensures UserAnswerValue(userAnswer, order).Text? <==> userAnswer.Some? && userAnswer.value != ""
    ensures UserAnswerValue(userAnswer, order).Text? ==> UserAnswerValue(userAnswer, order).text == userAnswer.value
    ensures UserAnswerValue(userAnswer, order) == Null <==> (userAnswer.None? || userAnswer.value == "") && order.None?
    ensures UserAnswerValue(userAnswer, order).Order? ==> order == Some(UserAnswerValue(userAnswer, order).order)
  {
  }

  /**
   * The answer rows of a successful submission: one per question, in order,
   * carrying the session id, the caller's id and the question id mapped from
   * the row's `word_id`.
   */
  lemma AnswerRowsLinked(s: Submission, userId: string, session: Option<InsertedSession>,
                         inserted: seq<InsertedQuestion>, ar: Reply<()>)
    ensures var o := Post(Some(s), AuthResult(Some(userId), false), Ok(session), Ok(inserted), ar);
      var answers := o.inserts[2].answers;
      && |answers| == |s.questions|
      && forall i :: 0 <= i < |answers| ==>
           && answers[i].sessionId == (if session.Some? then session.value.id else "")
           && answers[i].userId == userId
           && answers[i].wordId == s.questions[i].wordId
           && answers[i].isCorrect == s.questions[i].isCorrect
           && answers[i].correctAnswer == s.questions[i].correctAnswer
           && answers[i].questionType == s.questions[i].questionType
           && answers[i].userAnswer == UserAnswerValue(s.questions[i].userAnswer, s.questions[i].userAnswerOrder)
           && (s.questions[i].wordId in QuestionIdMap(inserted) ==>
                 answers[i].questionId == Some(QuestionIdMap(inserted)[s.questions[i].wordId]))
           && (s.questions[i].wordId !in QuestionIdMap(inserted) ==> answers[i].questionId.None?)
           && ((exists j :: 0 <= j < |inserted| && inserted[j].wordId == s.questions[i].wordId) ==>
                 answers[i].questionId.Some? && answers[i].questionId.value in InsertedIds(inserted))
  {
    var o := Post(Some(s), AuthResult(Some(userId), false), Ok(session), Ok(inserted), ar);
    var m := QuestionIdMap(inserted);
    QuestionIdMapDomain(inserted);
    var answers := o.inserts[2].answers;
    forall i | 0 <= i < |answers| && exists j :: 0 <= j < |inserted| && inserted[j].wordId == s.questions[i].wordId
      ensures answers[i].questionId.Some? && answers[i].questionId.value in InsertedIds(inserted)
    {
      var w := s.questions[i].wordId;
      assert w in m;
      var k :| 0 <= k < |inserted| && inserted[k].wordId == w && inserted[k].id == m[w];
      assert inserted[k].id in InsertedIds(inserted);
    }
  }

  function InsertedIds(inserted: seq<InsertedQuestion>): set<string>
  {
    set k | 0 <= k < |inserted| :: inserted[k].id
  }

  /**
   * Two questions about the same word: both answer rows point to the
   * question row inserted last, and the first question row is referenced by
   * no answer.
   */
  lemma SameWordSharesQuestion(q1: SubmittedQuestion, q2: SubmittedQuestion, sessionId: string, userId: string,
                               id1: string, id2: string)
    requires q1.wordId == q2.wordId && id1 != id2
    ensures var m := QuestionIdMap([InsertedQuestion(id1, q1.wordId), InsertedQuestion(id2, q2.wordId)]);
      var rows := BuildAnswerRows(sessionId, m, userId, [q1, q2]);
      rows[0].questionId == Some(id2) && rows[1].questionId == Some(id2)
  {
    var inserted := [InsertedQuestion(id1, q1.wordId), InsertedQuestion(id2, q2.wordId)];
    assert inserted[..1] == [InsertedQuestion(id1, q1.wordId)];
    assert inserted[..1][..0] == [];
  }
}
