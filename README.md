# Interview quiz generator — a Dafny model of its core

The application builds technical-interview quizzes. It asks a remote
language-model service for a batch of questions on the chosen topics and
types. It tracks the user's answers and grades them when the quiz is
submitted: multiple-choice answers are graded locally, others by the service.
It keeps a history of the last twenty attempts and a count of how often each
topic was used. This project models that core and proves what it promises:

- the quiz session (`QuizGenerator`, module `Generator`, `quiz_generator.dfy`):
  - creating a quiz from a batch;
  - answering;
  - bounded navigation;
  - submission, with grading, scoring and recording;
  - retry from history;
  - topic counts and topic weights;
- the repository (`StorageManager`, module `Storage`, `storage.dfy`).
  localStorage is modelled as three typed entries: history, covered topics
  and preferences. An entry can be missing, hold `null`, or hold a value;
- the API client (`GeminiApi`, module `Gemini`, `gemini_api.dfy`):
  - the configured flag and the saved key;
  - the local multiple-choice verdict;
  - the manual-review fallback;
  - the greedy `{…}` extraction from a reply.

  The network and `JSON.parse` are oracle functions in a `Backend` value;
- the rules inside the screens (module `QuizUi`, `quiz_ui.dfy`):
  - start-of-quiz validation;
  - navigation buttons;
  - type labels;
  - the MM:SS countdown and its automatic submission;
  - result tallies and review marks;
  - the guard that freezes choices after submission;
- the progress panel (module `Progress`, `progress.dfy`):
  - the recent-twenty window;
  - percentages rounded as `Math.round` does;
  - highest score, trend and attempt labels.

Supporting modules:

- `Wrappers`: Option, Result, Min and Max.
- `QuizData`: the entities.
- `Text`: `trim`, `toString` on naturals and `padStart`.
- `Seqs`: reversal.
- `TopicCountsAsWritten`: the finding below.

Time, the quiz id and the date are parameters, never read from a clock. The
question service and the remote grader are the `Backend`'s oracles. Each either
replies or fails.

## Model

| member | source | states |
|---|---|---|
| Generator.Weight | js/quiz-generator.js:27-30 | a topic's weight `1/(timesUsed+1)` lies in (0,1] and is 1 for an unused topic |
| Generator.WeightStrictlyDecreasing | js/quiz-generator.js:28-29 | the more a topic was used, the strictly smaller its weight |
| Generator.TopicWeights | js/quiz-generator.js:27-30 | one weight per requested topic, in order, from that topic's count (0 when absent) |
| Generator.NormalizedSumToOne | js/quiz-generator.js:33-37 | over a non-empty topic list the normalised weights sum to 1 |
| Generator.BumpedCounts | js/quiz-generator.js:77-85 | after the update a topic's count is its old count (0 if absent) plus the number of times it is listed; keys are the old keys plus the listed topics; every other key keeps its value |
| Generator.QuizGenerator.UpdateCoveredTopics | js/quiz-generator.js:77-85 | the loop leaves the stored counts equal to the bumped map, written back whole; nothing else in storage changes |
| Generator.QuizGenerator.GenerateQuiz | js/quiz-generator.js:18-70 | the settings are stored first. On failure the error is returned, and the current quiz and the stored counts are unchanged. On success, a fresh quiz with the service's questions becomes current: N null answers and evaluations, index 0, not completed, limit minutes×60000. The listed topics' counts are bumped |
| Generator.QuizGenerator.constructor | js/quiz-generator.js:6-11 | a new session holds the given client and storage, with no current quiz and no current settings |
| Generator.Quiz.constructor | js/quiz-generator.js:47-58 | a new quiz: all answers and evaluations absent, index 0, not completed, `timeLimit = minutes*60000` |
| Generator.RequestCount | js/quiz-generator.js:43 | `numberOfQuestions || 25`: an absent or zero count becomes 25, any other is kept |
| Generator.LatestAnswerWins | js/quiz-generator.js:98 | setting an answer changes only that index; two answers to one index leave only the later |
| Generator.QuizGenerator.SubmitAnswer | js/quiz-generator.js:92-99 | fails with "No active quiz" without a quiz. Otherwise only `answers[index]` changes, with no completion check. An index outside the batch leaves the batch's answers as they were |
| Generator.QuizGenerator.GetCurrentQuestion | js/quiz-generator.js:105-111 | null without a quiz, undefined for an empty batch, otherwise the question at the index |
| Generator.NavigationInRange | js/quiz-generator.js:117-145 | next/previous keep the index in range. They move by exactly one away from a boundary and stay put at it |
| Generator.NavigationInverse | js/quiz-generator.js:117-145 | away from the boundaries, previous undoes next and next undoes previous |
| Generator.QuizGenerator.NextQuestion | js/quiz-generator.js:117-128 | the index becomes NextIndex. The new question is returned exactly when it moved; otherwise the result is null. Nothing else changes |
| Generator.QuizGenerator.PreviousQuestion | js/quiz-generator.js:134-145 | the index becomes PreviousIndex. The new question is returned exactly when it moved; otherwise the result is null. Nothing else changes |
| Generator.Graded | js/quiz-generator.js:164-189 | an unanswered or already evaluated question keeps its evaluation, and every answered question ends up with one. A question due for grading gets the client's verdict, which for a multiple-choice answer is the local comparison. With an unconfigured client it gets `{correct:false, score:0}` |
| Generator.GradedProperties | js/quiz-generator.js:164-186 | grading keeps the invariant that only answered questions are evaluated; afterwards a question has an evaluation exactly when it has an answer |
| Generator.GradingOrderIndependent | js/quiz-generator.js:164-189 | grading the questions one at a time in any order that covers each once gives the same evaluations |
| Generator.QuizGenerator.GradeAnswers | js/quiz-generator.js:164-189 | the grading loop leaves exactly the graded evaluations. Answers, index and the other fields are unchanged |
| Generator.ScoreBounds | js/quiz-generator.js:192-202 | score ≤ questionsAnswered ≤ totalQuestions |
| Generator.Tally | js/quiz-generator.js:192-202 | the counting loop gives the number of non-null answers and the number of answered questions whose evaluation has `correct` true; score ≤ answered ≤ N |
| Generator.ThreeQuestionScenario | js/quiz-generator.js:151-226 | three multiple-choice questions, the first answered correctly: only it is graded; score 1, answered 1 |
| Generator.QuizGenerator.SubmitQuiz | js/quiz-generator.js:151-226 | fails with "No active quiz" without a quiz. Otherwise it marks the quiz completed and sets the end time and the time taken. It grades as above, counts score and answered, and records them on the quiz. It prepends `{date, topics, score, N, timeTaken, types}` to history, capped at 20, and returns the results |
| Generator.QuizGenerator.GetQuizFromHistory | js/quiz-generator.js:233-240 | fails with "Quiz not found in history" for an id at or past the end. A valid id gives its entry; a negative id gives undefined |
| Generator.RetrySettings | js/quiz-generator.js:259-263 | the entry's topics and types, a 45-minute limit, no count |
| Generator.RetryRequestsDefaultCount | js/quiz-generator.js:255-266 | a retried quiz requests 25 questions on the entry's topics and types |
| Generator.QuizGenerator.RetrySimilarQuiz | js/quiz-generator.js:255-267 | an id past the end fails with "Quiz not found in history" and a negative id with the undefined-entry TypeError, before anything changes. Otherwise the retry settings become the current settings. A failed generation returns its error and leaves the quiz and the storage alone. A successful one makes a fresh quiz current, with the generated questions, the entry's topics and types and a limit of 45×60000 ms, and bumps the entry's topics in the stored counts |
| Storage.Initialized | js/storage.js:18-33 | a default only for each missing entry: `[]`, `{}`, `{theme:'light', defaultTimeLimit:45}`. Present entries, even `null`, are kept |
| Storage.InitializedIdempotent | js/storage.js:18-33 | initialising twice equals initialising once |
| Storage.StorageManager.constructor | js/storage.js:6-13 | the storage after construction is the initialised storage |
| Storage.StorageManager.InitializeStorage | js/storage.js:18-33 | the storage becomes its initialised form |
| Storage.PushRecent | js/storage.js:39-47 | the new history has the entry at the head, then the old prefix; its length is min(old+1, 20) |
| Storage.StorageManager.SaveQuizToHistory | js/storage.js:39-47 | only the history entry changes; it becomes PushRecent of the old history |
| Storage.RecordAllKeepsMostRecent | js/storage.js:39-47 | saving entries one after another gives the newest first, then the old history, cut to 20. This holds for a history of any length, even an imported one longer than 20, as long as at least one entry is saved |
| Storage.RecordManyKeepsTwenty | js/storage.js:39-47 | after at least 20 saves exactly the 20 most recent remain, most recent first |
| Storage.GettersDefault | js/storage.js:53-93 | each getter returns the stored value, or `[]` or `{}` when the entry is missing or null |
| Storage.StorageManager.GetQuizHistory | js/storage.js:53-56 | returns the stored history, or `[]` |
| Storage.StorageManager.GetCoveredTopics | js/storage.js:70-73 | returns the stored counts, or `{}` |
| Storage.StorageManager.GetUserPreferences | js/storage.js:90-93 | returns the stored preferences, or `{}` |
| Storage.SavedTopicsReadBack | js/storage.js:62-73 | reading the counts after saving m gives m |
| Storage.StorageManager.SaveCoveredTopics | js/storage.js:62-64 | only the counts entry changes, replaced wholesale |
| Storage.PreferencesMerge | js/storage.js:79-84 | after a merge, keys of the update take its values, every other existing key is kept, nothing else appears |
| Storage.StorageManager.SaveUserPreferences | js/storage.js:79-84 | only the preferences entry changes, to the old preferences merged with the update |
| Storage.ClearedIsDefault | js/storage.js:98-103 | clearing then initialising gives exactly the default state |
| Storage.StorageManager.ClearAllData | js/storage.js:98-103 | the storage becomes the default state |
| Storage.StorageManager.ExportUserData | js/storage.js:109-118 | the document holds the three getters' values and the given date |
| Storage.StorageManager.ImportUserData | js/storage.js:125-144 | returns true exactly when the text parses and all three fields are truthy. Then all three entries are replaced; otherwise nothing changes |
| Storage.ExportImportRoundTrip | js/storage.js:109-144 | importing a fresh export is accepted and restores equal history, counts and preferences |
| Gemini.GeminiApi.constructor | js/gemini-api.js:2-5 | a new client is not configured and has no key |
| Gemini.GeminiApi.LoadSavedApiKey | js/gemini-api.js:7-15 | returns true and configures with the saved key exactly when a non-empty key is saved; otherwise nothing changes |
| Gemini.GeminiApi.Configure | js/gemini-api.js:17-21 | the key is set, the client is configured and the key is saved |
| Gemini.GeminiApi.IsApiConfigured | js/gemini-api.js:219-221 | returns the configured flag |
| Gemini.QuestionCount | js/gemini-api.js:30 | an absent count defaults to 25 and a present one is kept |
| Gemini.FirstOpen | js/gemini-api.js:110 | the position of the first `{`, or the length when there is none |
| Gemini.LastCloseEnd | js/gemini-api.js:110 | one past the last `}`, or 0 when there is none |
| Gemini.ExtractJsonObject | js/gemini-api.js:110-113 | a match exists exactly when some `{` comes before some `}`. The match runs from the first `{` through the last `}` |
| Gemini.ExtractionIsLeftmostLongest | js/gemini-api.js:110 | the match contains every `{…}` span of the reply |
| Gemini.Generation | js/gemini-api.js:25-121 | an unconfigured client fails with "Gemini API key not configured". A failed exchange passes its error on. A reply with no `{…}` span fails with "Could not parse quiz questions from API response". Success happens exactly when the reply's extracted object can be read as questions, and those questions are the result |
| Gemini.GeminiApi.GenerateQuiz | js/gemini-api.js:25-121 | the method's outcome is Generation of the current flag; unconfigured means failure |
| Gemini.Evaluation | js/gemini-api.js:125-217 | the call fails exactly when unconfigured, multiple-choice included |
| Gemini.McqVerdictIsLocal | js/gemini-api.js:131-138 | a configured client's multiple-choice verdict does not depend on the backend: correct iff the answer equals the correct letter, score 1 or 0, the question's explanation |
| Gemini.RemoteFailureFallsBack | js/gemini-api.js:207-215 | any failure on the remote path yields `{correct:null, score:0}` instead of an error |
| Gemini.GeminiApi.EvaluateAnswer | js/gemini-api.js:125-217 | the method's outcome is Evaluation of the current flag; unconfigured means failure |
| QuizUi.StartNewQuizValidates | js/quiz-ui.js:83-131 | unconfigured prompts for a key. A whitespace-only custom topic is dropped; any other is appended trimmed. An empty topic list, then an empty type list, is refused. Otherwise the settings carry the form's values |
| QuizUi.CustomTopicIsTrimmed | js/quiz-ui.js:98-101 | an appended custom topic neither starts nor ends with whitespace |
| QuizUi.NavStateMatchesMoves | js/quiz-ui.js:233-242 | Previous is disabled exactly where it would not move. Submit replaces Next exactly where Next would not move |
| QuizUi.QuestionTypeLabels | js/quiz-ui.js:359-367 | each question type gets its own label, different from the type name and from the other types' labels |
| QuizUi.OtherTypesUnchanged | js/quiz-ui.js:359-367 | any other type string is shown unchanged |
| QuizUi.FormatClockReadsBack | js/quiz-ui.js:389-393 | the MM:SS text reads back as ⌊ms/60000⌋ before the colon and ⌊(ms mod 60000)/1000⌋ < 60 in the two digits after it |
| QuizUi.RemainingTimeProperties | js/quiz-ui.js:386 | the remaining time is never negative. It is zero exactly from the end time on, and it never grows as time passes |
| QuizUi.QuizTimer.constructor | js/quiz-ui.js:9-10 | no interval installed, remaining time 0 |
| QuizUi.QuizTimer.Start | js/quiz-ui.js:373-384 | any earlier interval is replaced; the end is now plus minutes×60000 |
| QuizUi.QuizTimer.Tick | js/quiz-ui.js:384-400 | the remaining time is clamped at 0 and shown as MM:SS. Submission is requested, and the interval cleared, exactly when the end is reached |
| QuizUi.QuizTimer.Stop | js/quiz-ui.js:431-434 | the interval is cleared |
| QuizUi.TalliesOfSubmission | js/quiz-ui.js:483-485 | for submitted results, correct, incorrect and unanswered are all ≥ 0 and add up to the number of questions |
| QuizUi.ReviewMarks | js/quiz-ui.js:511-518 | one review item per answered question, in order; an item is correct exactly when its evaluation has `correct` true |
| QuizUi.ReviewAgreesWithScore | js/quiz-ui.js:511-518 | the review shows as many correct items as the score |
| QuizUi.SelectOption | js/quiz-ui.js:208-223 | a choice is ignored once the quiz is completed; otherwise it is recorded for the displayed question |
| QuizUi.EnterText | js/quiz-ui.js:226-229 | typed text is recorded for the displayed question, with no completion guard |
| Progress.RecentIsOldestFirst | js/app.js:82 | the window holds min(n, 20) entries, the newest twenty reversed, so the newest quiz is last |
| Progress.PercentRounds | js/app.js:136 | for a non-zero total the percentage p satisfies p − ½ ≤ 100·score/total < p + ½ |
| Progress.PercentInRange | js/app.js:136 | with 0 ≤ score ≤ total and total > 0 the percentage lies in 0..100 |
| Progress.HighestIsMaximum | js/app.js:138 | over defined percentages the highest is ≥ every score and equals one of them |
| Progress.HighestNaN | js/app.js:138 | one NaN score makes the highest NaN |
| Progress.TrendOfHistory | js/app.js:142-156 | fewer than three quizzes give 'Insufficient Data'. Otherwise the newest quiz is compared with the third newest: Improving, Declining or Steady, and NaN on either side reads as Steady |
| Progress.LabelsNumberAttempts | js/app.js:164 | label k is "Attempt " followed by the digits of k+1, and no two labels are equal |
| Progress.ProgressAnalysisShape | js/app.js:77-164 | the zero state appears exactly for an empty history. Otherwise the completed count is min(n, 20), with one score and one label per quiz, oldest first |
| Progress.ProgressHighestDefined | js/app.js:136-138 | if every quiz in the window had questions the highest is defined, and at most 100 when no score exceeds its total |
| TopicCountsAsWritten.ConstructorTopicIsNotCounted | js/quiz-generator.js:80-82 | as written, a first quiz on the topic "constructor" stores a string, the text of the `Object` function followed by "1", where the intended count is 1 |
| TopicCountsAsWritten.ProtoTopicIsNotCounted | js/quiz-generator.js:80-82 | as written, a first quiz on the topic "__proto__" stores nothing: the write reaches the inherited setter, which ignores a string. The intended count is 1 |
| TopicCountsAsWritten.InheritedTopicIsNotCounted | js/quiz-generator.js:80-82 | for every `Object.prototype` member name that is not yet an own key, the first quiz on it never stores the count 1: a string is stored, or nothing for "__proto__" |
| TopicCountsAsWritten.AsWrittenAgreesOffPrototype | js/quiz-generator.js:80-82 | for topics that are none of the twelve `Object.prototype` member names (the standard ones plus `__proto__` and the four legacy accessor helpers), the code as written counts exactly as Bumped does |

## Left out

- Rendering is not modelled: HTML, CodeMirror, Chart.js, AOS, modals, alerts, CSS classes, the theme and `loadTheme`. None of it carries a stateable contract.
- The network is not modelled: `fetch`, prompt texts, and the `candidates[0]…` reply shape. The service's reply, `JSON.parse` of questions and of verdicts, and the remote grader are the `Backend`'s oracles, so a non-OK status or a malformed reply is just a failing or unreadable oracle answer. The texts of the errors the network raises are passed through unseen. The grading oracle is a function of the question and the answer, so grading the same answer twice gives the same verdict, which a real network does not promise. No lemma depends on this.
- localStorage and `JSON.stringify`/`JSON.parse` are not modelled. A storage entry holds the value a read would parse, so text that parses to the wrong type is out of scope. So is text that makes the getters throw (js/storage.js:55).
- Gemini.Generation: a reply whose object has no `questions` array makes the client return `undefined`. The session then throws on `questions.length` before anything but the settings changes. The model has the client fail at once instead, with its own message.
- Storage.ImportDoc: fields are given as already parsed, with None for a missing or falsy field. Imported values of the wrong JSON type are not checked, and the source does not check them either.
- `Promise.all` fan-out: grading runs as a sequential loop. `Generator.GradingOrderIndependent` proves that every order gives the same evaluations, because each task writes only its own index.
- `Date.now()`, `new Date().toISOString()` and the interval are not modelled: the clock, the quiz id and the dates are method parameters. The source takes the quiz id and the start time from two separate clock reads; here they are two separate parameters.
- Float-only cosmetics are left out: the progress bar, the score circle, the average score on the progress panel, and the percentage on the results page. Topic weights use exact reals.
- Progress.Percent: computed on exact rationals. Floating-point rounding near a half is not modelled. A zero total gives NaN (score 0) or Infinity.
- Generator.QuizGenerator.SubmitAnswer: an index at or past N grows the JavaScript array beyond N, and a negative index adds a stray property. The model keeps the N answers of the batch and drops both.
- QuizUi.FormatClockReadsBack: the duration is a natural number of milliseconds. A negative duration, from a clock that went backwards, is not modelled.
- The settings form's `parseInt` of the time limit is not modelled beyond an integer: a NaN limit is out of scope. The count is `Option<int>`, with None for NaN.
- The CodeMirror callback writes to index `question.id - 1` (js/quiz-ui.js:316), which assumes the ids run 1..N in order. It is a UI callback and is not modelled.
- QuizUi.FormatQuestionType: a type string that names an inherited object member ("constructor", "toString") would look up an inherited function, as in the finding below. Only plain strings are modelled.
- The key prompt's save button (js/quiz-ui.js:61-69) is not modelled.
- The history view on the results page (js/quiz-ui.js:596-630) is not modelled.

Some behaviours of the code differ from what one would expect of such an app.
The model follows the code:

- Topic counts are raised when a quiz is generated (js/quiz-generator.js:64), not when it is submitted.
- `submitAnswer` checks neither the index nor completion. The frozen-after-submission guard lives only in the UI's choice handler (js/quiz-ui.js:210).
- Empty topic and type lists are refused only by the UI (js/quiz-ui.js:103-116). `generateQuiz` accepts them.
- `generateQuiz` stores the settings before calling the service, so a failed generation still overwrites `currentSettings`.
- Multiple-choice grading goes through `evaluateAnswer`, which still requires an API key. Without one, submission records `{correct:false, score:0}` for every answered question.
- A failed remote grading gives `{correct:null, score:0}` (js/gemini-api.js:207-215), and `null` counts as not correct. The `{correct:false}` fallback appears only when `evaluateAnswer` throws.
- `submitQuiz` is not idempotent. A second call adds a second history entry, and it grades again only what is still ungraded.
- The normalised topic weights are computed and never used (js/quiz-generator.js:33-37).
- The default count is applied both by `numberOfQuestions || 25` in the session (which also replaces 0) and by the destructuring default in the client (which replaces only an absent count).

## Findings

| source | as written | input that shows it | evidently intended | confidence | as-written member | corrected member |
|---|---|---|---|---|---|---|
| js/quiz-generator.js:80-82 | `coveredTopicMap[topic] \|\| 0` also finds members inherited from `Object.prototype` | a custom topic "constructor" on an empty map stores the text of the `Object` function followed by "1" | an own-key lookup, so the topic's count becomes 1 | not executed; follows from JavaScript property lookup | TopicCountsAsWritten.ConstructorTopicIsNotCounted | Generator.BumpedCounts |
| js/quiz-generator.js:80-82 | for the topic "__proto__" both the read and the write go to the inherited accessor | a custom topic "__proto__" on an empty map leaves the map empty, so the topic is never counted | an own-key count, so the topic's count becomes 1 | not executed; follows from JavaScript property lookup | TopicCountsAsWritten.ProtoTopicIsNotCounted | Generator.BumpedCounts |
