# HSK vocabulary app: decision logic in Dafny

This project models the decision logic of a Next.js web app for learning
HSK (Chinese proficiency test) vocabulary. It covers seven pieces:

- **Word–character links** (`WordCharacters`). A script links each word to the
  characters it contains. Each row is `{word_id, character_id, order}`, with
  one row per distinct character, where `order` is the character's first
  position. The rows are appended to a module-level array, modelled as a
  class with a `seq` field and the script's two loops.
- **Duration text** (`Duration`). `formatDuration` turns integer seconds into
  `m:ss`. A reader for `m:ss` is defined so that the round trip can be stated.
- **Quiz page** (`QuizPage`). The React state of the quiz page is a class.
  Its methods are the handlers: select a choice, advance, start the
  submission, and the submission settling. The correct count and the score
  are functions.
- **Auth events** (`UserProvider`). The initial `getUser` check and the
  `onAuthStateChange` callback form a transition function on snapshots of
  three values: the authenticated flag, the cached user and the module-level
  "login toast shown" flag. A class applies the function to its fields.
- **Quiz submission route** (`QuizSubmit`). The v2 `POST` handler builds the
  session row, the question rows, a `word_id → question id` map and the
  answer rows. It returns 401 or 500 at the points where the route does. The
  handler is both a function and a step-by-step method.
- **Shared word-detail data** (`WordRows`). The two word pages share the
  datatypes, the relation filter by tag and the builders of the insert rows.
- **The two word-detail pages** (`ClientWordDetail` and `WordDetailClient`).
  Both decide whether AI generation runs, which lists it replaces, and what
  is shown and inserted. The current page (`ClientWordDetail`) has a
  once-guard, replaces relations only when both lists are empty, and re-tags
  generated relations. The older page (`WordDetailClient`) has none of these.

Database replies, `fetch` results, the clock and `getUser` answers are
parameters. Each handler runs to completion in one step. Strings are
`seq<char>`. A Dafny `char` is a Unicode scalar value, so a `string` is
exactly the code-point array `Array.from(word)` produces.

A few behaviours of the source are modelled as written and proved as such:

- An empty joined bookmark list still counts as bookmarked.
- A failed generation leaves `isGeneratingData` set.
- Two submitted questions for the same word share one question id. The
  first question row is then referenced by no answer.
- A malformed JSON body gives a 500 before the login check.
- The older page shows generated relations without a tag in neither list.

## Model

| member | source | states |
|---|---|---|
| WordCharacters.IdOf | scripts/generateWordCharacters.js:68-69 | definition of the looked-up id: present only when the code point is a key and its id is non-empty (truthy); used by WordCharacters.WordLinksIds |
| WordCharacters.SeenIds | scripts/generateWordCharacters.js:65-75 | definition of the `seen` set after k code points; what it holds is stated by WordCharacters.SeenIdsMeans |
| WordCharacters.WordLinks | scripts/generateWordCharacters.js:64-77 | definition of one word's rows after k code points: a row for a truthy id not yet seen, at order k; its properties are stated by WordCharacters.WordLinksSound, WordCharacters.WordLinksDistinctOrdered and WordCharacters.WordLinksCount |
| WordCharacters.AllLinks | scripts/generateWordCharacters.js:63-78 | definition of the rows of a word list, word by word; stated by WordCharacters.AllLinksAppend and WordCharacters.AllLinksSound |
| WordCharacters.CharMap | scripts/generateWordCharacters.js:61 | every table character is a key, and each key maps to the id of some entry for it |
| WordCharacters.CharMapLastWins | scripts/generateWordCharacters.js:61 | a character listed twice maps to the id of its last entry |
| WordCharacters.WordCharacterTable.constructor | scripts/generateWordCharacters.js:13 | the module-level array starts empty |
| WordCharacters.WordCharacterTable.GenerateWordCharacters | scripts/generateWordCharacters.js:60-79 | the rows already in the array stay as a prefix; the rows of every word are appended, word by word |
| WordCharacters.WordCharacterTable.AppendAllLinks | scripts/generateWordCharacters.js:63-78 | the outer loop appends the rows of each word in input order |
| WordCharacters.WordCharacterTable.AppendLinksOf | scripts/generateWordCharacters.js:64-77 | the inner loop, with a fresh `seen` set, appends exactly that word's rows |
| WordCharacters.WordLinksStep | scripts/generateWordCharacters.js:67-76 | visiting one code point adds a row and the id to `seen` exactly when the id is truthy and unseen |
| WordCharacters.AllLinksStep | scripts/generateWordCharacters.js:63-78 | one more word appends exactly that word's rows |
| WordCharacters.SeenIdsMeans | scripts/generateWordCharacters.js:65-75 | `seen` holds exactly the truthy ids of the visited code points |
| WordCharacters.WordLinksSound | scripts/generateWordCharacters.js:67-74 | every row carries the word's id, an order in 1..length whose code point maps to the row's id, and that id is unseen before it |
| WordCharacters.FirstOccurrence | scripts/generateWordCharacters.js:64-73 | `order` is the first position whose code point maps to the row's id |
| WordCharacters.WordLinksIds | scripts/generateWordCharacters.js:68-75 | the row ids of a word are exactly the truthy ids of its code points; unknown or empty ids give no row |
| WordCharacters.WordLinksDistinctOrdered | scripts/generateWordCharacters.js:65-76 | within a word, ids are pairwise distinct and orders strictly increase |
| WordCharacters.WordLinksCount | scripts/generateWordCharacters.js:64-77 | a word's row count equals the number of distinct ids its code points map to |
| WordCharacters.WordLinksCountStep | scripts/generateWordCharacters.js:67-76 | one code point keeps the row count equal to the size of `seen` |
| WordCharacters.WordLinksAtMostDistinct | scripts/generateWordCharacters.js:64-77 | a word has at most as many rows as distinct code points |
| WordCharacters.RepeatAddsNoRow | scripts/generateWordCharacters.js:69 | a repeated code point adds no row |
| WordCharacters.AllLinksAppend | scripts/generateWordCharacters.js:63-78 | the rows of two word lists are the rows of each, in order |
| WordCharacters.GroupedByWord | scripts/generateWordCharacters.js:63-72 | the first word's rows come before those of the rest |
| WordCharacters.AllLinksSound | scripts/generateWordCharacters.js:63-74 | every row belongs to an input word and names a character of it at a valid order |
| Duration.FormatDuration | src/lib/utils.ts:8-13 | definition of `formatDuration`: floor minutes, JavaScript remainder, decimal text and two-character padding; its shape and round trip are stated by Duration.FormatDurationShape and Duration.FormatDurationRoundTrip |
| Duration.IntToString | src/lib/utils.ts:12 | definition of the template's number text, with a '-' for negatives; stated through Duration.NegativeDuration and Duration.ParseNatToString |
| Duration.JsRemainder | src/lib/utils.ts:10 | definition of JavaScript's `%`, whose sign follows the dividend; stated through Duration.SecondsPart and Duration.NegativeDuration |
| Duration.ParseDuration | src/lib/utils.ts:12 | the reader of `m:ss`, the partner of `formatDuration` in Duration.FormatDurationRoundTrip and Duration.ParseDurationText |
| Duration.NatToString | src/lib/utils.ts:12 | decimal text: non-empty, all digits, a leading '0' only for zero |
| Duration.PadStart | src/lib/utils.ts:12 | `padStart` gives length max(length, width) |
| Duration.PadStartPads | src/lib/utils.ts:12 | `padStart` keeps the text as a suffix and fills the front with the fill character |
| Duration.ColonIndex | src/lib/utils.ts:12 | the reader finds the first ':' or reports that none exists |
| Duration.ParseNatToString | src/lib/utils.ts:9-12 | decimal text reads back as its number |
| Duration.DigitRoundTrip | src/lib/utils.ts:12 | a digit character reads back as its digit |
| Duration.ParseTwoDigits | src/lib/utils.ts:12 | two digit characters read as a two-digit number |
| Duration.PaddedDigits | src/lib/utils.ts:10-12 | a number below 60, padded to two, is its tens digit and its units digit |
| Duration.PaddedTwoDigits | src/lib/utils.ts:10-12 | the padded seconds are exactly two digits that read back as their value |
| Duration.SecondsPart | src/lib/utils.ts:10-12 | for non-negative input, the seconds part is two digits in 00..59 with value `seconds mod 60` |
| Duration.JoinShape | src/lib/utils.ts:12 | the template join of minutes, ':' and two digits has the `m:ss` shape |
| Duration.JoinDigits | src/lib/utils.ts:12 | every character of the join except the colon is a digit |
| Duration.FormatDurationJoin | src/lib/utils.ts:8-13 | for non-negative input, the output is the minutes text, ':' and the padded seconds |
| Duration.FormatDurationShape | src/lib/utils.ts:8-13 | non-negative input gives one ':', unpadded minutes `seconds div 60` and two-digit seconds `seconds mod 60` |
| Duration.ParseDurationText | src/lib/utils.ts:9-12 | any `m:ss` text with ss < 60 reads back as 60*m + ss |
| Duration.FormatDurationRoundTrip | src/lib/utils.ts:8-13 | reading the output back gives the input seconds |
| Duration.FormatDurationExamples | src/lib/utils.ts:9-12 | 5 gives "0:05" and 600 gives "10:00" |
| Duration.NegativeDuration | src/lib/utils.ts:9-12 | -65 gives "-2:-5", the sign of JavaScript's `%`, which does not read back |
| QuizPage.Score | src/components/quiz/ClientQuizPage.tsx:113 | definition of `Math.round(correct / total * 100)` with half-up rounding, absent for a zero total; stated by QuizPage.ScoreRounds and QuizPage.ScoreIsPercentage |
| QuizPage.ResultOf | src/components/quiz/ClientQuizPage.tsx:110-121 | definition of the payload: the page's `level` prop (line 39), the server total, the correct count, the score, the duration and the answers; stated by QuizPage.ClientQuizPage.HandleQuizComplete and QuizPage.SubmittedScoreIsPercentage |
| QuizPage.CorrectCount | src/components/quiz/ClientQuizPage.tsx:110-112 | the correct count is at most the number of answers |
| QuizPage.CorrectCountExtremes | src/components/quiz/ClientQuizPage.tsx:110-112 | the count equals the length exactly when all answers are correct, and is zero exactly when none is |
| QuizPage.ScoreRounds | src/components/quiz/ClientQuizPage.tsx:113 | the score is 100*correct/total rounded to nearest, halves up |
| QuizPage.ScoreIsPercentage | src/components/quiz/ClientQuizPage.tsx:113 | with correct <= total the score is in 0..100: 100 for all correct, 0 for none |
| QuizPage.ScoreBelow | src/components/quiz/ClientQuizPage.tsx:113 | the rounded score is at most 0 or 100 when the count is |
| QuizPage.ScoreAbove | src/components/quiz/ClientQuizPage.tsx:113 | the rounded score is at least 0 or 100 when the count is |
| QuizPage.AnswerFor | src/components/quiz/ClientQuizPage.tsx:82-88 | the answer carries the question's id and the choice, and is correct exactly when the choice is the correct answer |
| QuizPage.ClientQuizPage.constructor | src/components/quiz/ClientQuizPage.tsx:39-46 | the `level` prop is kept; the initial `useState` values: no quiz, loading, index 0, no answers, no selection, not submitting |
| QuizPage.ClientQuizPage.ReceiveQuiz | src/components/quiz/ClientQuizPage.tsx:49-73 | the fetched quiz (or `null` on failure) is stored and loading ends; nothing else changes |
| QuizPage.ClientQuizPage.HandleChoiceSelect | src/components/quiz/ClientQuizPage.tsx:75-77 | only the selection changes |
| QuizPage.ClientQuizPage.HandleNextQuestion | src/components/quiz/ClientQuizPage.tsx:79-98 | a no-op without a selection or a quiz; otherwise appends one answer and clears the selection; the index moves on before the last question, and on the last one completion starts with all answers |
| QuizPage.ClientQuizPage.HandleNextQuestionOnce | src/components/quiz/ClientQuizPage.tsx:79-98 | the intended advance: the answer replaces any already recorded for the current question, so completion posts exactly one answer per question, aligned with the questions |
| QuizPage.ClientQuizPage.HandleQuizComplete | src/components/quiz/ClientQuizPage.tsx:100-121 | a no-op without a quiz; otherwise submitting starts and the payload holds the page's `level` prop, the server total, the correct count, the score, the duration and the answers |
| QuizPage.ClientQuizPage.SubmissionSettled | src/components/quiz/ClientQuizPage.tsx:130-143 | success navigates to the result page, failure shows an error toast; submitting is false either way |
| QuizPage.SubmittedScoreIsPercentage | src/components/quiz/ClientQuizPage.tsx:110-113 | a payload whose correct count is at most the number of questions scores 0..100 |
| QuizPage.RetryAfterFailedSubmission | src/components/quiz/ClientQuizPage.tsx:90-96 | as written: a retry after a failed submission posts two answers for one question, with 2 correct and a score of 200 |
| QuizPage.RetryAfterFailedSubmissionOnce | src/components/quiz/ClientQuizPage.tsx:90-96 | with the intended advance the retry posts one answer and scores 100 |
| UserProvider.IsNewUser | src/components/ClientUserProvider.tsx:48-51 | definition of "created less than 10 s ago", false for an unparsable date; stated by UserProvider.FirstSignIn |
| UserProvider.Initialize | src/components/ClientUserProvider.tsx:18-32 | definition of `initializeAuth` on a snapshot; stated by UserProvider.InitializeFollowsGetUser |
| UserProvider.Transition | src/components/ClientUserProvider.tsx:40-70 | definition of the callback on a snapshot, with the toast it shows; stated by UserProvider.TransitionToasts, UserProvider.FirstSignIn, UserProvider.RepeatedSignIn, UserProvider.TokenRefreshKeepsFlag and UserProvider.SignOutClears |
| UserProvider.Run | src/components/ClientUserProvider.tsx:40-70 | definition of a sequence of callbacks; stated by UserProvider.OneToastPerSignIn and UserProvider.AtMostOneLoginToast |
| UserProvider.InitializeFollowsGetUser | src/components/ClientUserProvider.tsx:24-31 | authenticated exactly when there is a user and no error; the cache holds that user, otherwise `null`; the toast flag is kept |
| UserProvider.FirstSignIn | src/components/ClientUserProvider.tsx:41-59 | a first sign-in authenticates, caches the user, sets the flag and shows one success toast, the welcome toast exactly when the user was created less than 10 s ago |
| UserProvider.RepeatedSignIn | src/components/ClientUserProvider.tsx:41-68 | a sign-in with the flag set, or without a user, changes nothing and shows nothing |
| UserProvider.TokenRefreshKeepsFlag | src/components/ClientUserProvider.tsx:60-63 | a token refresh with a user authenticates and caches it, keeps the flag and shows no toast |
| UserProvider.SignOutClears | src/components/ClientUserProvider.tsx:64-68 | a sign-out clears the flags and the cache and shows the info toast |
| UserProvider.TransitionToasts | src/components/ClientUserProvider.tsx:41-68 | a success toast appears exactly on a first sign-in with a user, the info toast exactly on sign-out; only a sign-out clears the flag |
| UserProvider.SuccessCountAppend | src/components/ClientUserProvider.tsx:41-59 | success toasts of two toast lists add up |
| UserProvider.OneToastPerSignIn | src/components/ClientUserProvider.tsx:10-67 | without a sign-out, the initial flag plus the success toasts shown equals the final flag |
| UserProvider.AtMostOneLoginToast | src/components/ClientUserProvider.tsx:10-67 | between sign-outs at most one success toast is shown, and none once the flag is set |
| UserProvider.ClientUserProvider.constructor | src/components/ClientUserProvider.tsx:10 | unauthenticated, nothing cached, the toast flag clear |
| UserProvider.ClientUserProvider.InitializeAuth | src/components/ClientUserProvider.tsx:18-32 | the provider's state becomes the initial-check result |
| UserProvider.ClientUserProvider.OnAuthStateChange | src/components/ClientUserProvider.tsx:40-70 | the new state and the toast are those of the transition function |
| QuizSubmit.Post | src/app/api/v2/quiz/submit/route.ts:54-131 | definition of the `POST` handler on its replies; stated by QuizSubmit.UnauthorizedExactly, QuizSubmit.StepOrder and QuizSubmit.AnswerRowsLinked, and implemented by QuizSubmit.HandlePost |
| QuizSubmit.BuildSessionRow | src/app/api/v2/quiz/submit/route.ts:14-20 | definition of the session row; stated by QuizSubmit.SessionRowCopies |
| QuizSubmit.BuildQuestionRow | src/app/api/v2/quiz/submit/route.ts:80-91 | definition of one question row with its `??` defaults; stated by QuizSubmit.QuestionRowDefaults |
| QuizSubmit.QuestionIdMap | src/app/api/v2/quiz/submit/route.ts:99-101 | definition of `Object.fromEntries` over the inserted questions; stated by QuizSubmit.QuestionIdMapDomain and QuizSubmit.QuestionIdMapLastWins |
| QuizSubmit.UserAnswerValue | src/app/api/v2/quiz/submit/route.ts:111 | definition of the answer fallback: a non-empty `user_answer`, else `user_answer_order`, else `null`; stated by QuizSubmit.UserAnswerFallback |
| QuizSubmit.SessionId | src/app/api/v2/quiz/submit/route.ts:105 | definition of the session id: the inserted session's id when non-empty, else ''; stated by QuizSubmit.AnswerRowsLinked |
| QuizSubmit.BuildAnswerRow | src/app/api/v2/quiz/submit/route.ts:104-113 | definition of one answer row; stated by QuizSubmit.AnswerRowsLinked |
| QuizSubmit.BuildQuestionRows | src/app/api/v2/quiz/submit/route.ts:80-91 | one question row per submitted question, in order |
| QuizSubmit.BuildAnswerRows | src/app/api/v2/quiz/submit/route.ts:104-113 | one answer row per submitted question, in order |
| QuizSubmit.HandlePost | src/app/api/v2/quiz/submit/route.ts:54-131 | the step-by-step handler gives the response and inserts of the route's definition |
| QuizSubmit.UnauthorizedInsertsNothing | src/app/api/v2/quiz/submit/route.ts:64-69 | with no user or an auth error the response is 401 and nothing is inserted |
| QuizSubmit.UnauthorizedExactly | src/app/api/v2/quiz/submit/route.ts:56-69 | 401 exactly when the body parsed and there is no user, and never after an insert |
| QuizSubmit.StepOrder | src/app/api/v2/quiz/submit/route.ts:72-130 | inserts run session, questions, answers; the first failure stops the rest with 500; success returns the inserted session after all three |
| QuizSubmit.SessionRowCopies | src/app/api/v2/quiz/submit/route.ts:14-20 | the session row copies level, duration, score and correct count, and counts the questions |
| QuizSubmit.QuestionRowDefaults | src/app/api/v2/quiz/submit/route.ts:80-91 | present fields are copied; absent text becomes '' and absent lists [] ; meaning is the translation |
| QuizSubmit.QuestionIdMapLastWins | src/app/api/v2/quiz/submit/route.ts:99-101 | a `word_id` maps to the id of its last inserted question |
| QuizSubmit.QuestionIdMapDomain | src/app/api/v2/quiz/submit/route.ts:99-101 | every inserted `word_id` is a key, and each key maps to an id inserted for it |
| QuizSubmit.UserAnswerFallback | src/app/api/v2/quiz/submit/route.ts:111 | the text answer if non-empty, else the ordering, else `null`, case by case |
| QuizSubmit.AnswerRowsLinked | src/app/api/v2/quiz/submit/route.ts:99-113 | one answer row per question, with the session id (or ''), the caller, the word, the type, the correctness, the answer fallback and the mapped question id |
| QuizSubmit.SameWordSharesQuestion | src/app/api/v2/quiz/submit/route.ts:99-106 | two questions for the same word both reference the question row inserted last |
| WordRows.StoredLists | src/components/word/ClientWordDetail.tsx:145-153 | definition of the stored lists: the examples or an empty list, and the two tag filters of the joined relations; stated by WordRows.StoredRoundTrip |
| WordRows.Merged | src/components/word/ClientWordDetail.tsx:192-197 | definition of the displayed word: the row's fields, the examples and the synonyms followed by the antonyms; stated by WordRows.DisplayRoundTrip and ClientWordDetail.ShownMerge |
| WordRows.ExampleRows | src/components/word/ClientWordDetail.tsx:216-223 | definition of the `examples` insert rows; stated by WordRows.ExampleRowsCopy |
| WordRows.RelationRows | src/components/word/ClientWordDetail.tsx:231-254 | definition of the `word_relations` insert rows; stated by WordRows.RelationRowsTagged |
| WordRows.WithTag | src/components/word/ClientWordDetail.tsx:146-153 | the filter is no longer than its input |
| WordRows.WithTagMembers | src/components/word/ClientWordDetail.tsx:146-153 | the filter keeps exactly the items with the tag |
| WordRows.Retag | src/components/word/ClientWordDetail.tsx:179-186 | re-tagging keeps each item and only sets its tag |
| WordRows.WithTagAppend | src/components/word/ClientWordDetail.tsx:273-279 | filtering a join is joining the filters |
| WordRows.WithTagKeepsTagged | src/components/word/ClientWordDetail.tsx:273-279 | filtering a list already tagged gives it back |
| WordRows.WithTagDropsOthers | src/components/word/ClientWordDetail.tsx:273-279 | filtering a list tagged otherwise gives nothing |
| WordRows.WithTagDropsUntagged | src/components/word/WordDetailClient.tsx:208-214 | filtering untagged items gives nothing |
| WordRows.WithTagTagged | src/components/word/ClientWordDetail.tsx:146-153 | every filtered item carries the tag |
| WordRows.DisplayRoundTrip | src/components/word/ClientWordDetail.tsx:195-279 | tagged synonyms and antonyms, joined and split by tag again, come back unchanged |
| WordRows.StoredRoundTrip | src/components/word/ClientWordDetail.tsx:146-279 | the stored synonym and antonym lists, joined and split again, come back unchanged |
| WordRows.RetaggedRoundTrip | src/components/word/ClientWordDetail.tsx:179-279 | re-tagged generated lists, joined and split again, come back unchanged |
| WordRows.ExampleRowsCopy | src/components/word/ClientWordDetail.tsx:216-223 | one example row per example, in order, with the four fields and the word's id |
| WordRows.RelationRowsTagged | src/components/word/ClientWordDetail.tsx:231-254 | one row per relation: synonyms first, tagged synonym, then antonyms, tagged antonym, each with the word's id |
| ClientWordDetail.Begin | src/components/word/ClientWordDetail.tsx:79-82 | definition of the effect start; stated by ClientWordDetail.BeginResets |
| ClientWordDetail.Fetch | src/components/word/ClientWordDetail.tsx:103-205 | definition of `fetchWordData` on a state snapshot; stated by ClientWordDetail.NotFound, ClientWordDetail.GenerationRequestedExactly, ClientWordDetail.ShownMerge and ClientWordDetail.FailedGeneration, and implemented by ClientWordDetail.WordDetailPage.FetchWordData |
| ClientWordDetail.GenerationBlock | src/components/word/ClientWordDetail.tsx:156-190 | definition of the generation block: request, examples, relations, each missing list throwing before its insert; stated by ClientWordDetail.FailedGeneration and ClientWordDetail.InsertsOfShownRun |
| ClientWordDetail.ShownLists | src/components/word/ClientWordDetail.tsx:145-187 | definition of the lists a successful run shows; stated by ClientWordDetail.ExamplesReplacedWhenEmpty, ClientWordDetail.RelationsReplacedWhenBothEmpty and ClientWordDetail.DisplayedRelations |
| ClientWordDetail.NotFound | src/components/word/ClientWordDetail.tsx:136-204 | a missing word sets the not-found error, ends loading and does nothing else |
| ClientWordDetail.GenerationRequestedExactly | src/components/word/ClientWordDetail.tsx:156-163 | generation is requested exactly when the ref is clear and a stored list is empty; the ref ends set exactly when it was set or generation ran |
| ClientWordDetail.GenerationAtMostOnce | src/components/word/ClientWordDetail.tsx:80-162 | after a fetch that generated, no later fetch of the same effect run generates again |
| ClientWordDetail.GuardBlocks | src/components/word/ClientWordDetail.tsx:157 | with the ref set, a fetch does not generate |
| ClientWordDetail.BeginResets | src/components/word/ClientWordDetail.tsx:79-82 | a new effect run clears the ref, so a word with an empty list is generated for again |
| ClientWordDetail.ShownMerge | src/components/word/ClientWordDetail.tsx:156-197 | a found word is shown with the merged lists and the bookmark flag when the needed generation succeeds; loading ends and the generation flags settle |
| ClientWordDetail.FailedGeneration | src/components/word/ClientWordDetail.tsx:162-204 | a failed generation sets an error, keeps the old word, ends loading and leaves the generating flag on |
| ClientWordDetail.ExamplesReplacedWhenEmpty | src/components/word/ClientWordDetail.tsx:166-171 | examples are replaced by the generated ones exactly when the stored list is empty |
| ClientWordDetail.RelationsReplacedWhenBothEmpty | src/components/word/ClientWordDetail.tsx:173-187 | relations are replaced, re-tagged, exactly when both stored lists are empty |
| ClientWordDetail.DisplayedRelations | src/components/word/ClientWordDetail.tsx:195-279 | the page's filters give back exactly the shown synonyms and antonyms |
| ClientWordDetail.InsertsOfShownRun | src/components/word/ClientWordDetail.tsx:166-259 | the examples insert happens exactly when the examples were replaced, the relations insert exactly when the relations were |
| ClientWordDetail.BookmarkedWhenJoined | src/components/word/ClientWordDetail.tsx:140 | bookmarked exactly when signed in and the join is present, even when it is empty |
| ClientWordDetail.WordDetailPage.constructor | src/components/word/ClientWordDetail.tsx:57-64 | the initial `useState` and `useRef` values |
| ClientWordDetail.WordDetailPage.BeginEffect | src/components/word/ClientWordDetail.tsx:79-82 | the effect start clears the ref, the attempted flag and the examples flag |
| ClientWordDetail.WordDetailPage.FetchWordData | src/components/word/ClientWordDetail.tsx:103-205 | the new state, inserts and request flag are those of the fetch definition |
| ClientWordDetail.WordDetailPage.GenerateAndShow | src/components/word/ClientWordDetail.tsx:156-197 | from the guard on, the state and inserts are those of the fetch definition |
| ClientWordDetail.WordDetailPage.ShowWord | src/components/word/ClientWordDetail.tsx:192-203 | the merged word is stored and loading ends |
| ClientWordDetail.WordDetailPage.RunGeneration | src/components/word/ClientWordDetail.tsx:164-189 | the generation block's state changes, inserts and ending are those of its definition |
| WordDetailClient.Fetch | src/components/word/WordDetailClient.tsx:57-140 | definition of `fetchWordData` on a state snapshot; stated by WordDetailClient.NotFound, WordDetailClient.AudioFailureAborts, WordDetailClient.GenerationRequestedExactly, WordDetailClient.ShownMerge and WordDetailClient.FailedGeneration |
| WordDetailClient.NotFound | src/components/word/WordDetailClient.tsx:81-85 | an error, a null result or an empty list sets the not-found error and does nothing else; from the first row on, no other path sets it |
| WordDetailClient.AudioFailureAborts | src/components/word/WordDetailClient.tsx:88-92 | a failed audio request aborts the load before any generation |
| WordDetailClient.GenerationRequestedExactly | src/components/word/WordDetailClient.tsx:105-110 | generation is requested exactly when a stored list is empty, on every fetch |
| WordDetailClient.ShownMerge | src/components/word/WordDetailClient.tsx:94-132 | when the needed generation succeeds, the first row is shown with the merged lists and the audio URL, and loading ends |
| WordDetailClient.FailedGeneration | src/components/word/WordDetailClient.tsx:110-139 | a failed generation sets an error, keeps the old word and ends loading |
| WordDetailClient.ExamplesReplacedWhenEmpty | src/components/word/WordDetailClient.tsx:112-115 | examples are replaced exactly when the stored list is empty |
| WordDetailClient.RelationsReplacedWhenEitherEmpty | src/components/word/WordDetailClient.tsx:117-125 | if either relation list is empty both are replaced by the generated lists as they came |
| WordDetailClient.DisplayedRelations | src/components/word/WordDetailClient.tsx:123-214 | the displayed lists are the generated items whose tag matches |
| WordDetailClient.UntaggedGeneratedHidden | src/components/word/WordDetailClient.tsx:123-214 | untagged generated relations leave both displayed lists empty |
| WordDetailClient.InsertsOfShownRun | src/components/word/WordDetailClient.tsx:112-194 | the examples insert happens exactly when the examples were replaced, the relations insert exactly when the relations were |
| WordDetailClient.WordDetailPage.constructor | src/components/word/WordDetailClient.tsx:51-54 | the initial `useState` values |
| WordDetailClient.WordDetailPage.FetchWordData | src/components/word/WordDetailClient.tsx:57-140 | the new state, inserts and request flag are those of the fetch definition |

## Left out

- CSV I/O of the link script (`getWords`, `getCharacters`, `saveWordCharacters`): file streams and CSV libraries; the words and characters are sequences.
- Floating point: the quiz score is computed exactly with half-up rounding, so IEEE results of `Math.round` may differ in exact halfway cases; a zero `total_questions` (division by zero, `NaN`/`Infinity`) is modelled as an absent score.
- `formatDuration` of a non-integer number of seconds: the input is an integer.
- Duration.FormatDurationRoundTrip: holds for every natural number, but JavaScript matches Duration.NatToString only on safe integers (below 2^53); above that `number` loses precision, and from 10^21 on `toString()` writes an exponent. Those inputs are not modelled.
- The clock: `new Date()` durations and `created_at` parsing are integer inputs (an unparsable date is an absent creation time).
- The network, the database and the auth client: every reply is a parameter. `createServerClient` or `getUser` throwing is not modelled, and neither are missing required JSON fields. The submit route's reply `quiz_id`, read by the quiz page, is a parameter.
- React scheduling: `useEffect` ordering, batched state updates and asynchronous interleaving. Each handler runs to completion. A level change while the quiz page is mounted is not modelled.
- The pinyin audio fetch of the current word page is fire-and-forget, with its own `catch`. It does not affect the modelled state and is left out. The older page awaits it, and there it is a parameter.
- The initial absent `['user']` cache entry is modelled as `None`, like the `null` set on sign-out.
- `Object.fromEntries` keys that clash with prototype properties behave like any other key.
- JSX rendering, toasts' wording, the clipboard handler and the skeletons.
- WordRows.WithTag: its function contract states only the length bound; the membership iff is stated by WordRows.WithTagMembers, so that callers do not carry the quantifier.
- QuizPage.CorrectCount: its function contract states only the bound; the two iff facts about it are in QuizPage.CorrectCountExtremes.
- Duration.PadStart: its contract states only the length; the padding is stated by Duration.PadStartPads.

## Findings

| source | as written | input that shows it | evidently intended | confidence | as-written member | corrected member |
|---|---|---|---|---|---|---|
| src/components/quiz/ClientQuizPage.tsx:90-96 | on the last question `handleNextQuestion` always appends; after a failed submission, `isSubmitting` is false again, the next button (line 227) is enabled once a choice is picked, and the user can submit again, so each retry adds another answer for the last question | a one-question quiz, answered correctly; the first submission fails; the user selects the answer again and presses next: the payload has 2 answers, `correct_answers` 2 and `score` 200 | one answer per question, so a retry posts the same answers and a score within 0..100 | not executed | QuizPage.RetryAfterFailedSubmission | QuizPage.ClientQuizPage.HandleNextQuestionOnce |
