/**
 * QuizGenerator: the quiz session. It owns the current quiz (questions,
 * answers, evaluations, position, completion), asks the API client for a
 * batch, grades at submission and records the outcome in storage; around it
 * sit the topic weights and the topic-count update that feed the next batch.
 */
module Generator {
  import opened Wrappers
  import opened QuizData
  import opened Storage
  import opened Gemini

  /** `settings.numberOfQuestions || 25`. */
  const DefaultRequestCount: int := 25
  /** Minutes given to a quiz retried from history. */
  const RetryTimeLimit: int := 45
  const MsPerMinute: int := 60 * 1000

  const NoActiveQuizMessage := "No active quiz"
  const NotInHistoryMessage := "Quiz not found in history"
  const UndefinedEntryMessage := "Cannot read properties of undefined (reading 'topics')"
  const GradingErrorExplanation := "There was an error evaluating this answer."

  // ---------------------------------------------------------------------
  // Topic weights (computed by generateQuiz and never used afterwards)

  /** `coveredTopicMap[topic] || 0`. */
  function TimesUsed(m: TopicCounts, topic: string): nat {
    if topic in m then m[topic] else 0
  }

  /** `1 / (timesUsed + 1)`: 1 for a topic never used, never reaching 0. */
  function Weight(timesUsed: nat): (w: real)
    ensures 0.0 < w <= 1.0
    ensures timesUsed == 0 ==> w == 1.0
  {
    1.0 / (timesUsed as real + 1.0)
  }

  /** The more a topic has been used, the smaller its weight. */
  lemma WeightStrictlyDecreasing(a: nat, b: nat)
    requires a < b
    ensures Weight(b) < Weight(a)
  {
    var x, y := a as real + 1.0, b as real + 1.0;
    var wa, wb := Weight(a), Weight(b);
    assert wa * x == 1.0;
    assert wb * y == 1.0;
    assert wa == y * (wa * wb) by { assert wa * (y * wb) == wa; }
    assert wb == x * (wa * wb) by { assert wb * (x * wa) == wb; }
    var p := wa * wb;
    assert p > 0.0 && y - x > 0.0;
    assert wa - wb == (y - x) * p;
    assert (y - x) * p > 0.0;
  }

  /** One raw weight per requested topic, in order (duplicates included). */
  function TopicWeights(topics: seq<string>, m: TopicCounts): (ws: seq<real>)
    ensures |ws| == |topics|
    ensures forall k :: 0 <= k < |ws| ==> ws[k] == Weight(TimesUsed(m, topics[k]))
  {
    if topics == [] then [] else [Weight(TimesUsed(m, topics[0]))] + TopicWeights(topics[1..], m)
  }

  function Sum(xs: seq<real>): real {
    if xs == [] then 0.0 else xs[0] + Sum(xs[1..])
  }

  lemma {:induction false} SumOfPositives(xs: seq<real>)
    requires forall k :: 0 <= k < |xs| ==> xs[k] > 0.0
    ensures xs != [] ==> Sum(xs) > 0.0
    ensures xs == [] ==> Sum(xs) == 0.0
  {
    if xs != [] {
      SumOfPositives(xs[1..]);
    }
  }

  /** Every element divided by d. */
  function Scaled(xs: seq<real>, d: real): (ys: seq<real>)
    requires d != 0.0
    ensures |ys| == |xs|
    ensures forall k :: 0 <= k < |xs| ==> ys[k] == xs[k] / d
  {
    if xs == [] then [] else [xs[0] / d] + Scaled(xs[1..], d)
  }

  lemma {:induction false} SumScaled(xs: seq<real>, d: real)
    requires d != 0.0
    ensures Sum(Scaled(xs, d)) == Sum(xs) / d
  {
    if xs != [] {
      SumScaled(xs[1..], d);
      assert Scaled(xs, d)[1..] == Scaled(xs[1..], d);
    }
  }

  /** `weight / totalWeight` for each requested topic. */
  function NormalizedWeights(topics: seq<string>, m: TopicCounts): (ns: seq<real>)
    ensures |ns| == |topics|
  {
    var ws := TopicWeights(topics, m);
    SumOfPositives(ws);
    if ws == [] then [] else Scaled(ws, Sum(ws))
  }

  /** Over a non-empty topic list the normalised weights sum to 1. */
  lemma NormalizedSumToOne(topics: seq<string>, m: TopicCounts)
    requires topics != []
    ensures Sum(NormalizedWeights(topics, m)) == 1.0
  {
    var ws := TopicWeights(topics, m);
    SumOfPositives(ws);
    SumScaled(ws, Sum(ws));
  }

  // ---------------------------------------------------------------------
  // Topic counts

  /**
   * The counts after `updateCoveredTopics(topics)`: each listed topic, in
   * order, goes up by one from its current count or from 0.
   */
  function Bumped(m: TopicCounts, topics: seq<string>): TopicCounts
    decreases topics
  {
    if topics == [] then m
    else Bumped(m[topics[0] := TimesUsed(m, topics[0]) + 1], topics[1..])
  }

  /**
   * A topic's count rises by the number of times it is listed (an absent
   * topic listed once becomes 1); every other key keeps its value.
   */
  lemma {:induction false} BumpedCounts(m: TopicCounts, topics: seq<string>)
    ensures forall k :: k in Bumped(m, topics) <==> k in m || k in topics
    ensures forall k :: TimesUsed(Bumped(m, topics), k) == TimesUsed(m, k) + multiset(topics)[k]
    ensures forall k :: k in m && k !in topics ==> Bumped(m, topics)[k] == m[k]
    decreases topics
  {
    if topics != [] {
      var t, rest := topics[0], topics[1..];
      var m' := m[t := TimesUsed(m, t) + 1];
      BumpedCounts(m', rest);
      assert topics == [t] + rest;
      assert multiset(topics) == multiset{t} + multiset(rest);
      forall k ensures TimesUsed(Bumped(m, topics), k) == TimesUsed(m, k) + multiset(topics)[k] {
        assert TimesUsed(m', k) == TimesUsed(m, k) + (if k == t then 1 else 0);
      }
      forall k | k in m && k !in topics ensures Bumped(m, topics)[k] == m[k] {
        assert TimesUsed(Bumped(m, topics), k) == TimesUsed(m, k);
      }
    }
  }

  // ---------------------------------------------------------------------
  // Requests and retries

  /** `settings.numberOfQuestions || 25`: an absent, NaN or zero count becomes 25. */
  function RequestCount(n: Option<int>): (c: int)
    ensures n.None? || n == Some(0) ==> c == DefaultRequestCount
    ensures n.Some? && n.value != 0 ==> c == n.value
  {
    if n.None? || n.value == 0 then DefaultRequestCount else n.value
  }

  /** The request `generateQuiz` sends for the given settings. */
  function RequestOf(settings: Settings): QuizRequest {
    QuizRequest(settings.topics, settings.questionTypes, Some(RequestCount(settings.numberOfQuestions)))
  }

  /** `retrySimilarQuiz`'s settings: the entry's topics and types, 45 minutes, no count. */
  function RetrySettings(e: HistoryEntry): (s: Settings)
    ensures s.topics == e.topics && s.questionTypes == e.questionTypes
    ensures s.timeLimit == RetryTimeLimit && s.numberOfQuestions.None?
  {
    Settings(e.topics, e.questionTypes, None, RetryTimeLimit)
  }

  /** A retried quiz asks for the default 25 questions on the entry's topics and types. */
  lemma RetryRequestsDefaultCount(e: HistoryEntry)
    ensures RequestOf(RetrySettings(e)) == QuizRequest(e.topics, e.questionTypes, Some(25))
  {
  }

  // ---------------------------------------------------------------------
  // Navigation

  /**
   * The position invariant: a valid index, or 0 for an empty batch (which
   * navigation then never leaves).
   */
  predicate InRange(index: int, n: int) {
    0 <= index && (index < n || index == 0)
  }

  /** The index after `nextQuestion`: one further unless at the last question. */
  function NextIndex(index: int, n: int): int {
    if index < n - 1 then index + 1 else index
  }

  /** The index after `previousQuestion`: one back unless at the first question. */
  function PreviousIndex(index: int): int {
    if index > 0 then index - 1 else index
  }

  /** Both moves keep the position in range and move by one exactly when not at the boundary. */
  lemma NavigationInRange(index: int, n: int)
    requires InRange(index, n)
    ensures InRange(NextIndex(index, n), n) && InRange(PreviousIndex(index), n)
    ensures NextIndex(index, n) == index + 1 || (NextIndex(index, n) == index && index >= n - 1)
    ensures PreviousIndex(index) == index - 1 || (PreviousIndex(index) == index && index == 0)
  {
  }

  /** Away from the boundaries, each move undoes the other. */
  lemma NavigationInverse(index: int, n: int)
    requires InRange(index, n)
    ensures index < n - 1 ==> PreviousIndex(NextIndex(index, n)) == index
    ensures index > 0 ==> NextIndex(PreviousIndex(index), n) == index
  {
  }

  // ---------------------------------------------------------------------
  // Answers

  /** `answers[index] = answer` on the batch's answers: an index outside the batch leaves them as they were. */
  function WithAnswer(answers: seq<Option<string>>, index: int, answer: string): seq<Option<string>> {
    if 0 <= index < |answers| then answers[index := Some(answer)] else answers
  }

  /**
   * Answering sets that one question and nothing else, and answering the
   * same question twice keeps only the later answer.
   */
  lemma LatestAnswerWins(answers: seq<Option<string>>, index: int, first: string, second: string)
    ensures |WithAnswer(answers, index, first)| == |answers|
    ensures forall k :: 0 <= k < |answers| && k != index ==> WithAnswer(answers, index, first)[k] == answers[k]
    ensures 0 <= index < |answers| ==> WithAnswer(answers, index, first)[index] == Some(first)
    ensures WithAnswer(WithAnswer(answers, index, first), index, second) == WithAnswer(answers, index, second)
  {
  }

  // ---------------------------------------------------------------------
  // Grading and scoring

  /** An evaluation exists only where an answer does. */
  predicate EvaluationsFollowAnswers(answers: seq<Option<string>>, evals: seq<Option<Verdict>>)
    requires |answers| == |evals|
  {
    forall i :: 0 <= i < |answers| && evals[i].Some? ==> answers[i].Some?
  }

  /** The verdict `submitQuiz` records when `evaluateAnswer` throws. */
  function FallbackVerdict(): Verdict {
    Verdict(Some(false), 0.0, GradingErrorExplanation)
  }

  /** What grading depends on besides the question and the answer. */
  datatype Grader = Grader(configured: bool, backend: Backend)

  /** Skipped unless the question has an answer and no evaluation yet. */
  predicate NeedsGrading(a: Option<string>, e: Option<Verdict>) {
    e.None? && a.Some?
  }

  /** One grading task of `submitQuiz`: it touches only its own question's evaluation. */
  function GradeItem(g: Grader, q: Question, a: Option<string>, e: Option<Verdict>): Option<Verdict> {
    if !NeedsGrading(a, e) then e
    else
      match Evaluation(g.configured, g.backend, q, a.value)
      case Success(v) => Some(v)
      case Failure(_) => Some(FallbackVerdict())
  }

  /**
   * The evaluations once every grading task has settled. A question that is
   * unanswered or already evaluated keeps its evaluation; every answered
   * question ends up with one. A question due for grading gets the client's
   * verdict, which for a multiple-choice answer is the local comparison, and
   * when the client throws because it is not configured it gets the fallback.
   */
  function Graded(g: Grader, questions: seq<Question>, answers: seq<Option<string>>,
                  evals: seq<Option<Verdict>>): (r: seq<Option<Verdict>>)
    requires |answers| == |questions| && |evals| == |questions|
    ensures |r| == |questions|
    ensures forall i :: 0 <= i < |r| && !NeedsGrading(answers[i], evals[i]) ==> r[i] == evals[i]
    ensures forall i :: 0 <= i < |r| && answers[i].Some? ==> r[i].Some?
    ensures forall i :: 0 <= i < |r| && NeedsGrading(answers[i], evals[i]) && g.configured && questions[i].Mcq?
              ==> r[i] == Some(LocalMcqVerdict(questions[i], answers[i].value))
    ensures forall i :: 0 <= i < |r| && NeedsGrading(answers[i], evals[i]) && g.configured
              ==> r[i] == Some(Evaluation(true, g.backend, questions[i], answers[i].value).value)
    ensures forall i :: 0 <= i < |r| && NeedsGrading(answers[i], evals[i]) && !g.configured
              ==> r[i] == Some(FallbackVerdict())
  {
    seq(|questions|, i requires 0 <= i < |questions| => GradeItem(g, questions[i], answers[i], evals[i]))
  }

  /**
   * Submission keeps the quiz's invariant that only answered questions are
   * evaluated, and afterwards a question has an evaluation exactly when it
   * has an answer.
   */
  lemma GradedProperties(g: Grader, questions: seq<Question>, answers: seq<Option<string>>,
                         evals: seq<Option<Verdict>>)
    requires |answers| == |questions| && |evals| == |questions|
    requires EvaluationsFollowAnswers(answers, evals)
    ensures var r := Graded(g, questions, answers, evals);
      && EvaluationsFollowAnswers(answers, r)
      && (forall i :: 0 <= i < |r| ==> (r[i].Some? <==> answers[i].Some?))
  {
  }

  /** Grading the tasks in the given order, one at a time, each on the state the earlier ones left. */
  function GradeInOrder(g: Grader, questions: seq<Question>, answers: seq<Option<string>>,
                        evals: seq<Option<Verdict>>, order: seq<nat>): (r: seq<Option<Verdict>>)
    requires |answers| == |questions| && |evals| == |questions|
    requires forall k :: 0 <= k < |order| ==> order[k] < |questions|
    ensures |r| == |questions|
    decreases order
  {
    if order == [] then evals
    else
      var j := order[0];
      GradeInOrder(g, questions, answers, evals[j := GradeItem(g, questions[j], answers[j], evals[j])], order[1..])
  }

  predicate Distinct(order: seq<nat>) {
    forall a, b :: 0 <= a < b < |order| ==> order[a] != order[b]
  }

  lemma {:induction false} GradeInOrderPointwise(g: Grader, questions: seq<Question>,
                                                 answers: seq<Option<string>>,
                                                 evals: seq<Option<Verdict>>, order: seq<nat>)
    requires |answers| == |questions| && |evals| == |questions|
    requires forall k :: 0 <= k < |order| ==> order[k] < |questions|
    requires Distinct(order)
    ensures forall i :: 0 <= i < |questions| ==>
      GradeInOrder(g, questions, answers, evals, order)[i]
        == if i in order then GradeItem(g, questions[i], answers[i], evals[i]) else evals[i]
    decreases order
  {
    if order != [] {
      var j := order[0];
      var evals' := evals[j := GradeItem(g, questions[j], answers[j], evals[j])];
      assert forall a, b :: 0 <= a < b < |order[1..]| ==> order[1..][a] != order[1..][b] by {
        forall a, b | 0 <= a < b < |order[1..]| ensures order[1..][a] != order[1..][b] {
          assert order[1..][a] == order[a + 1] && order[1..][b] == order[b + 1];
        }
      }
      GradeInOrderPointwise(g, questions, answers, evals', order[1..]);
      forall i | 0 <= i < |questions|
        ensures GradeInOrder(g, questions, answers, evals, order)[i]
          == if i in order then GradeItem(g, questions[i], answers[i], evals[i]) else evals[i]
      {
        if i == j {
          assert j !in order[1..] by {
            forall b | 0 <= b < |order[1..]| ensures order[1..][b] != j {
              assert order[1..][b] == order[b + 1];
            }
          }
        } else {
          assert i in order <==> i in order[1..] by {
            assert order == [j] + order[1..];
          }
        }
      }
    }
  }

  /**
   * The tasks of `submitQuiz` settle in whatever order the remote grader
   * answers; since each writes only its own index, every order that runs
   * each task once gives the same evaluations.
   */
  lemma GradingOrderIndependent(g: Grader, questions: seq<Question>, answers: seq<Option<string>>,
                                evals: seq<Option<Verdict>>, order: seq<nat>)
    requires |answers| == |questions| && |evals| == |questions|
    requires forall k :: 0 <= k < |order| ==> order[k] < |questions|
    requires Distinct(order) && forall i :: 0 <= i < |questions| ==> i in order
    ensures GradeInOrder(g, questions, answers, evals, order) == Graded(g, questions, answers, evals)
  {
    GradeInOrderPointwise(g, questions, answers, evals, order);
  }

  /** `questionsAnswered`: the number of non-null answers. */
  function CountAnswered(answers: seq<Option<string>>): nat {
    if answers == [] then 0
    else CountAnswered(answers[..|answers| - 1]) + (if answers[|answers| - 1].Some? then 1 else 0)
  }

  /** `totalScore`: answered questions whose evaluation has a true `correct`. */
  function CountCredited(answers: seq<Option<string>>, evals: seq<Option<Verdict>>): nat
    requires |answers| == |evals|
  {
    if answers == [] then 0
    else
      var n := |answers| - 1;
      CountCredited(answers[..n], evals[..n]) + (if answers[n].Some? && Credited(evals[n]) then 1 else 0)
  }

  /** `score <= questionsAnswered <= totalQuestions`. */
  lemma {:induction false} ScoreBounds(answers: seq<Option<string>>, evals: seq<Option<Verdict>>)
    requires |answers| == |evals|
    ensures CountCredited(answers, evals) <= CountAnswered(answers) <= |answers|
  {
    if answers != [] {
      var n := |answers| - 1;
      ScoreBounds(answers[..n], evals[..n]);
    }
  }

  /**
   * Three multiple-choice questions, the first answered with its correct
   * letter and the others left blank: submission grades only the first, and
   * the score and the answered count are both 1.
   */
  lemma ThreeQuestionScenario(g: Grader, q0: Question, q1: Question, q2: Question)
    requires g.configured && q0.Mcq? && q1.Mcq? && q2.Mcq?
    ensures var answers := [Some(q0.correctAnswer), None, None];
      var r := Graded(g, [q0, q1, q2], answers, [None, None, None]);
      && r[0].Some? && r[0].value.correct == Some(true) && r[0].value.score == 1.0
      && r[1].None? && r[2].None?
      && CountCredited(answers, r) == 1 && CountAnswered(answers) == 1
  {
    var answers: seq<Option<string>> := [Some(q0.correctAnswer), None, None];
    var r := Graded(g, [q0, q1, q2], answers, [None, None, None]);
    assert r[0] == Some(LocalMcqVerdict(q0, q0.correctAnswer));
    assert answers[..1][..0] == [] && r[..1][..0] == [];
    assert CountAnswered(answers[..1]) == 1 && CountCredited(answers[..1], r[..1]) == 1;
    assert answers[..2][..1] == answers[..1] && r[..2][..1] == r[..1];
    assert CountAnswered(answers[..2]) == 1 && CountCredited(answers[..2], r[..2]) == 1;
  }

  /** What `submitQuiz` returns. */
  datatype QuizResults = QuizResults(score: nat, totalQuestions: nat, questionsAnswered: nat,
                                     timeTaken: int, evaluations: seq<Option<Verdict>>)

  /** The scoring pass of `submitQuiz`: answered questions, and those among them credited. */
  method Tally(answers: seq<Option<string>>, evals: seq<Option<Verdict>>) returns (score: nat, answered: nat)
    requires |answers| == |evals|
    ensures score == CountCredited(answers, evals) && answered == CountAnswered(answers)
    ensures score <= answered <= |answers|
  {
    score, answered := 0, 0;
    var j := 0;
    while j < |answers|
      invariant 0 <= j <= |answers|
      invariant answered == CountAnswered(answers[..j])
      invariant score == CountCredited(answers[..j], evals[..j])
    {
      assert answers[..j + 1][..j] == answers[..j];
      assert evals[..j + 1][..j] == evals[..j];
      if answers[j].Some? {
        answered := answered + 1;
        if Credited(evals[j]) {
          score := score + 1;
        }
      }
      j := j + 1;
    }
    assert answers[..j] == answers && evals[..j] == evals;
    ScoreBounds(answers, evals);
  }

  // ---------------------------------------------------------------------
  // The quiz object

  /** A quiz attempt. The UI holds the same object, so its updates are visible there. */
  class Quiz {
    const id: int
    const date: string
    const settings: Settings
    const questions: seq<Question>
    const timeStarted: int
    /** Milliseconds. */
    const timeLimit: int
    var currentQuestionIndex: int
    var answers: seq<Option<string>>
    var evaluations: seq<Option<Verdict>>
    var completed: bool
    var timeEnded: Option<int>
    var timeTaken: Option<int>
    var totalScore: Option<nat>
    var questionsAnswered: Option<nat>

    ghost predicate Valid()
      reads this
    {
      && |answers| == |questions| && |evaluations| == |questions|
      && InRange(currentQuestionIndex, |questions|)
      && EvaluationsFollowAnswers(answers, evaluations)
    }

    /** The state of a quiz just created: nothing answered or graded, at the first question. */
    ghost predicate IsNew()
      reads this
    {
      && |answers| == |questions| && |evaluations| == |questions|
      && (forall i :: 0 <= i < |answers| ==> answers[i].None?)
      && (forall i :: 0 <= i < |evaluations| ==> evaluations[i].None?)
      && currentQuestionIndex == 0 && !completed
      && timeEnded.None? && timeTaken.None? && totalScore.None? && questionsAnswered.None?
    }

    constructor (id: int, date: string, settings: Settings, questions: seq<Question>, now: int)
      ensures Valid() && IsNew()
      ensures this.id == id && this.date == date && this.settings == settings
      ensures this.questions == questions && timeStarted == now
      ensures timeLimit == settings.timeLimit * MsPerMinute
    {
      this.id := id;
      this.date := date;
      this.settings := settings;
      this.questions := questions;
      timeStarted := now;
      timeLimit := settings.timeLimit * 60 * 1000;
      currentQuestionIndex := 0;
      answers := seq(|questions|, _ => None);
      evaluations := seq(|questions|, _ => None);
      completed := false;
      timeEnded := None;
      timeTaken := None;
      totalScore := None;
      questionsAnswered := None;
    }
  }

  // ---------------------------------------------------------------------
  // The generator

  class QuizGenerator {
    const api: GeminiApi
    const storage: StorageManager
    var currentQuiz: Quiz?
    var currentSettings: Option<Settings>

    ghost predicate Valid()
      reads this, currentQuiz
    {
      currentQuiz != null ==> currentQuiz.Valid()
    }

    constructor (api: GeminiApi, storage: StorageManager)
      ensures Valid()
      ensures this.api == api && this.storage == storage
      ensures currentQuiz == null && currentSettings.None?
    {
      this.api := api;
      this.storage := storage;
      currentQuiz := null;
      currentSettings := None;
    }

    /**
     * `generateQuiz(settings)`. The settings are kept first, so they are
     * overwritten even when generation fails; on failure the current quiz and
     * the stored counts are left alone. On success a new quiz becomes current
     * and the requested topics' counts go up.
     */
    method GenerateQuiz(settings: Settings, backend: Backend, id: int, date: string, now: int)
      returns (r: Result<Quiz, string>)
      requires Valid()
      modifies this, storage
      ensures Valid()
      ensures currentSettings == Some(settings)
      ensures var g := Generation(api.isConfigured, backend, RequestOf(settings));
        && (g.Failure? ==> r == Failure(g.error) && currentQuiz == old(currentQuiz)
                           && storage.local == old(storage.local))
        && (g.Success? ==> && r.Success? && r.value == currentQuiz && fresh(currentQuiz)
                           && currentQuiz.IsNew() && currentQuiz.questions == g.value
                           && currentQuiz.settings == settings && currentQuiz.id == id
                           && currentQuiz.date == date && currentQuiz.timeStarted == now
                           && currentQuiz.timeLimit == settings.timeLimit * MsPerMinute
                           && storage.local == old(storage.local).(topics :=
                                Stored(Bumped(TopicsOf(old(storage.local)), settings.topics))))
    {
      currentSettings := Some(settings);
      var covered := storage.GetCoveredTopics();
      // Computed as the source does, then never used.
      var normalizedWeights := NormalizedWeights(settings.topics, covered);
      var questions := api.GenerateQuiz(RequestOf(settings), backend);
      if questions.Failure? {
        return Failure(questions.error);
      }
      var quiz := new Quiz(id, date, settings, questions.value, now);
      currentQuiz := quiz;
      UpdateCoveredTopics(settings.topics);
      return Success(quiz);
    }

    /** `updateCoveredTopics(topics)`: read the counts, bump each listed topic, write the map back whole. */
    method UpdateCoveredTopics(topics: seq<string>)
      modifies storage
      ensures storage.local == old(storage.local).(topics :=
                Stored(Bumped(TopicsOf(old(storage.local)), topics)))
    {
      var covered: TopicCounts := storage.GetCoveredTopics();
      var i := 0;
      while i < |topics|
        invariant 0 <= i <= |topics|
        invariant Bumped(covered, topics[i..]) == Bumped(TopicsOf(old(storage.local)), topics)
        invariant storage.local == old(storage.local)
      {
        assert topics[i..][1..] == topics[i + 1..];
        covered := covered[topics[i] := TimesUsed(covered, topics[i]) + 1];
        i := i + 1;
      }
      storage.SaveCoveredTopics(covered);
    }

    /**
     * `submitAnswer(index, answer)`: fails without a quiz; otherwise sets
     * that one answer, with no check of the index or of completion. An index
     * outside the batch leaves the batch's answers as they were.
     */
    method SubmitAnswer(index: int, answer: string) returns (r: Result<(), string>)
      requires Valid()
      modifies currentQuiz
      ensures Valid()
      ensures currentQuiz == null ==> r == Failure(NoActiveQuizMessage)
      ensures currentQuiz != null ==>
        && r.Success?
        && currentQuiz.answers == WithAnswer(old(currentQuiz.answers), index, answer)
        && currentQuiz.evaluations == old(currentQuiz.evaluations)
        && currentQuiz.currentQuestionIndex == old(currentQuiz.currentQuestionIndex)
        && currentQuiz.completed == old(currentQuiz.completed)
        && currentQuiz.timeEnded == old(currentQuiz.timeEnded)
        && currentQuiz.timeTaken == old(currentQuiz.timeTaken)
        && currentQuiz.totalScore == old(currentQuiz.totalScore)
        && currentQuiz.questionsAnswered == old(currentQuiz.questionsAnswered)
    {
      if currentQuiz == null {
        return Failure(NoActiveQuizMessage);
      }
      if 0 <= index < |currentQuiz.answers| {
        currentQuiz.answers := currentQuiz.answers[index := Some(answer)];
      }
      return Success(());
    }

    /** `getCurrentQuestion()`: null without a quiz, undefined for an empty batch. */
    method GetCurrentQuestion() returns (q: Option<Question>)
      requires Valid()
      ensures currentQuiz == null || |currentQuiz.questions| == 0 ==> q.None?
      ensures currentQuiz != null && |currentQuiz.questions| > 0 ==>
        q == Some(currentQuiz.questions[currentQuiz.currentQuestionIndex])
    {
      if currentQuiz == null || currentQuiz.currentQuestionIndex >= |currentQuiz.questions| {
        return None;
      }
      return Some(currentQuiz.questions[currentQuiz.currentQuestionIndex]);
    }

    /** `nextQuestion()`: one step forward and the new question, or null at the last one. */
    method NextQuestion() returns (q: Option<Question>)
      requires Valid()
      modifies currentQuiz
      ensures Valid()
      ensures currentQuiz == null ==> q.None?
      ensures currentQuiz != null ==>
        && currentQuiz.currentQuestionIndex
             == NextIndex(old(currentQuiz.currentQuestionIndex), |currentQuiz.questions|)
        && (q.Some? <==> old(currentQuiz.currentQuestionIndex) < |currentQuiz.questions| - 1)
        && (q.Some? ==> q.value == currentQuiz.questions[currentQuiz.currentQuestionIndex])
        && currentQuiz.answers == old(currentQuiz.answers)
        && currentQuiz.evaluations == old(currentQuiz.evaluations)
        && currentQuiz.completed == old(currentQuiz.completed)
        && currentQuiz.timeEnded == old(currentQuiz.timeEnded)
        && currentQuiz.timeTaken == old(currentQuiz.timeTaken)
        && currentQuiz.totalScore == old(currentQuiz.totalScore)
        && currentQuiz.questionsAnswered == old(currentQuiz.questionsAnswered)
    {
      if currentQuiz == null {
        return None;
      }
      if currentQuiz.currentQuestionIndex < |currentQuiz.questions| - 1 {
        currentQuiz.currentQuestionIndex := currentQuiz.currentQuestionIndex + 1;
        q := GetCurrentQuestion();
        return;
      }
      return None;
    }

    /** `previousQuestion()`: one step back and the new question, or null at the first one. */
    method PreviousQuestion() returns (q: Option<Question>)
      requires Valid()
      modifies currentQuiz
      ensures Valid()
      ensures currentQuiz == null ==> q.None?
      ensures currentQuiz != null ==>
        && currentQuiz.currentQuestionIndex == PreviousIndex(old(currentQuiz.currentQuestionIndex))
        && (q.Some? <==> old(currentQuiz.currentQuestionIndex) > 0)
        && (q.Some? ==> q.value == currentQuiz.questions[currentQuiz.currentQuestionIndex])
        && currentQuiz.answers == old(currentQuiz.answers)
        && currentQuiz.evaluations == old(currentQuiz.evaluations)
        && currentQuiz.completed == old(currentQuiz.completed)
        && currentQuiz.timeEnded == old(currentQuiz.timeEnded)
        && currentQuiz.timeTaken == old(currentQuiz.timeTaken)
        && currentQuiz.totalScore == old(currentQuiz.totalScore)
        && currentQuiz.questionsAnswered == old(currentQuiz.questionsAnswered)
    {
      if currentQuiz == null {
        return None;
      }
      if currentQuiz.currentQuestionIndex > 0 {
        currentQuiz.currentQuestionIndex := currentQuiz.currentQuestionIndex - 1;
        q := GetCurrentQuestion();
        return;
      }
      return None;
    }

    /**
     * `submitQuiz()`: marks the quiz completed, grades every answered and
     * not yet evaluated question (the tasks run one after the other here; see
     * GradingOrderIndependent), counts the score, and saves a summary to
     * history. Nothing stops a second call from saving a second summary.
     */
    method SubmitQuiz(backend: Backend, now: int) returns (r: Result<QuizResults, string>)
      requires Valid()
      modifies currentQuiz, storage
      ensures Valid()
      ensures currentQuiz == null ==> r == Failure(NoActiveQuizMessage) && storage.local == old(storage.local)
      ensures currentQuiz != null ==>
        var evals := Graded(Grader(api.isConfigured, backend), currentQuiz.questions,
                            old(currentQuiz.answers), old(currentQuiz.evaluations));
        var score, answered := CountCredited(old(currentQuiz.answers), evals), CountAnswered(old(currentQuiz.answers));
        var n, taken := |currentQuiz.questions|, now - currentQuiz.timeStarted;
        && currentQuiz.completed
        && currentQuiz.timeEnded == Some(now) && currentQuiz.timeTaken == Some(taken)
        && currentQuiz.answers == old(currentQuiz.answers)
        && currentQuiz.currentQuestionIndex == old(currentQuiz.currentQuestionIndex)
        && currentQuiz.evaluations == evals
        && currentQuiz.totalScore == Some(score) && currentQuiz.questionsAnswered == Some(answered)
        && r == Success(QuizResults(score, n, answered, taken, evals))
        && score <= answered <= n
        && storage.local == old(storage.local).(history := Stored(PushRecent(HistoryOf(old(storage.local)),
             HistoryEntry(currentQuiz.date, currentQuiz.settings.topics, score, n, taken,
                          currentQuiz.settings.questionTypes))))
    {
      if currentQuiz == null {
        return Failure(NoActiveQuizMessage);
      }
      var quiz := currentQuiz;
      quiz.completed := true;
      quiz.timeEnded := Some(now);
      quiz.timeTaken := Some(now - quiz.timeStarted);
      GradeAnswers(quiz, backend);
      var totalScore, answered := Tally(quiz.answers, quiz.evaluations);
      var n := |quiz.questions|;
      quiz.totalScore := Some(totalScore);
      quiz.questionsAnswered := Some(answered);
      storage.SaveQuizToHistory(HistoryEntry(quiz.date, quiz.settings.topics, totalScore, n,
                                             now - quiz.timeStarted, quiz.settings.questionTypes));
      return Success(QuizResults(totalScore, n, answered, now - quiz.timeStarted, quiz.evaluations));
    }

    /**
     * The grading step of `submitQuiz`: every answered question without an
     * evaluation is sent to the evaluator, and a thrown error records the
     * fallback verdict for that question alone.
     */
    method GradeAnswers(quiz: Quiz, backend: Backend)
      requires quiz.Valid()
      modifies quiz
      ensures quiz.Valid()
      ensures quiz.evaluations == Graded(Grader(api.isConfigured, backend), quiz.questions,
                                         old(quiz.answers), old(quiz.evaluations))
      ensures quiz.answers == old(quiz.answers)
      ensures quiz.currentQuestionIndex == old(quiz.currentQuestionIndex)
      ensures quiz.completed == old(quiz.completed) && quiz.timeEnded == old(quiz.timeEnded)
      ensures quiz.timeTaken == old(quiz.timeTaken) && quiz.totalScore == old(quiz.totalScore)
      ensures quiz.questionsAnswered == old(quiz.questionsAnswered)
    {
      ghost var g := Grader(api.isConfigured, backend);
      ghost var before := quiz.evaluations;
      var n := |quiz.questions|;
      var i := 0;
      while i < n
        invariant 0 <= i <= n && |quiz.evaluations| == n && |before| == n
        invariant |quiz.answers| == n
        invariant forall k :: 0 <= k < i ==>
          quiz.evaluations[k] == GradeItem(g, quiz.questions[k], quiz.answers[k], before[k])
        invariant forall k :: i <= k < n ==> quiz.evaluations[k] == before[k]
        invariant quiz.answers == old(quiz.answers)
        invariant quiz.currentQuestionIndex == old(quiz.currentQuestionIndex)
        invariant quiz.completed == old(quiz.completed) && quiz.timeEnded == old(quiz.timeEnded)
        invariant quiz.timeTaken == old(quiz.timeTaken) && quiz.totalScore == old(quiz.totalScore)
        invariant quiz.questionsAnswered == old(quiz.questionsAnswered)
        modifies quiz
      {
        if quiz.evaluations[i].None? && quiz.answers[i].Some? {
          var outcome := api.EvaluateAnswer(quiz.questions[i], quiz.answers[i].value, backend);
          var verdict := if outcome.Success? then outcome.value else FallbackVerdict();
          quiz.evaluations := quiz.evaluations[i := Some(verdict)];
        }
        i := i + 1;
      }
      GradedProperties(g, quiz.questions, quiz.answers, before);
    }

    /**
     * `getQuizFromHistory(quizId)`: throws for an id at or past the end; a
     * negative id reads `undefined` (None) without throwing.
     */
    method GetQuizFromHistory(quizId: int) returns (r: Result<Option<HistoryEntry>, string>)
      ensures var h := HistoryOf(storage.local);
        && (quizId >= |h| ==> r == Failure(NotInHistoryMessage))
        && (0 <= quizId < |h| ==> r == Success(Some(h[quizId])))
        && (quizId < 0 ==> r == Success(None))
    {
      var history := storage.GetQuizHistory();
      if quizId >= |history| {
        return Failure(NotInHistoryMessage);
      }
      if quizId < 0 {
        return Success(None);
      }
      return Success(Some(history[quizId]));
    }

    /**
     * `retrySimilarQuiz(quizId)`: generates a quiz with the history entry's
     * topics and types and a 45-minute limit. A missing entry makes it throw
     * before anything changes.
     */
    method RetrySimilarQuiz(quizId: int, backend: Backend, id: int, date: string, now: int)
      returns (r: Result<Quiz, string>)
      requires Valid()
      modifies this, storage
      ensures Valid()
      ensures var h := HistoryOf(old(storage.local));
        && (!(0 <= quizId < |h|) ==> && r == Failure(if quizId < 0 then UndefinedEntryMessage else NotInHistoryMessage)
                                     && currentSettings == old(currentSettings)
                                     && currentQuiz == old(currentQuiz)
                                     && storage.local == old(storage.local))
        && (0 <= quizId < |h| ==>
              var s := RetrySettings(h[quizId]);
              var g := Generation(api.isConfigured, backend, RequestOf(s));
              && currentSettings == Some(s)
              && (g.Failure? ==> r == Failure(g.error) && currentQuiz == old(currentQuiz)
                                 && storage.local == old(storage.local))
              && (g.Success? ==> && r.Success? && r.value == currentQuiz && fresh(currentQuiz)
                                 && currentQuiz.IsNew() && currentQuiz.questions == g.value
                                 && currentQuiz.settings == s && currentQuiz.id == id
                                 && currentQuiz.date == date && currentQuiz.timeStarted == now
                                 && currentQuiz.timeLimit == RetryTimeLimit * MsPerMinute
                                 && storage.local == old(storage.local).(topics :=
                                      Stored(Bumped(TopicsOf(old(storage.local)), h[quizId].topics)))))
    {
      var previous := GetQuizFromHistory(quizId);
      if previous.Failure? {
        return Failure(previous.error);
      }
      if previous.value.None? {
        return Failure(UndefinedEntryMessage);
      }
      var settings := RetrySettings(previous.value.value);
      r := GenerateQuiz(settings, backend, id, date, now);
    }
  }
}
