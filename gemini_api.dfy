/**
 * GeminiAPI: the client of the remote question generator and grader. The
 * HTTP exchange and `JSON.parse` are outside the model and come in as a
 * `Backend` of oracles; what remains is the configuration flag, the local
 * multiple-choice verdict, the fallback verdict and the extraction of the
 * JSON object from the reply text.
 */
module Gemini {
  import opened Wrappers
  import opened QuizData

  /** The count the prompt asks for when the request carries none. */
  const DefaultQuestionCount: int := 25

  const NotConfiguredMessage := "Gemini API key not configured"
  const QuizParseMessage := "Could not parse quiz questions from API response"
  const QuestionsUnreadableMessage := "quiz questions could not be read from the response JSON"
  const ManualReviewExplanation :=
    "We couldn't automatically evaluate this answer. Please compare with the explanation."

  /** The settings `generateQuiz` builds its prompt from. */
  datatype QuizRequest = QuizRequest(topics: seq<string>, questionTypes: seq<string>,
                                     numberOfQuestions: Option<int>)

  /**
   * The parts of the exchange that are not modelled. `quizReply` and
   * `gradeReply` give the model's reply text, or the message of the error a
   * failed `fetch`, a non-OK status or a malformed envelope raises;
   * `parseQuestions` and `parseVerdict` stand for `JSON.parse` of the
   * extracted object (None when it throws, or when a batch has no
   * `questions` array).
   */
  datatype Backend = Backend(quizReply: QuizRequest -> Result<string, string>,
                             gradeReply: (Question, string) -> Result<string, string>,
                             parseQuestions: string -> Option<seq<Question>>,
                             parseVerdict: string -> Option<Verdict>)

  /** `const { numberOfQuestions = 25 } = settings`: the default replaces only an absent count. */
  function QuestionCount(req: QuizRequest): (n: int)
    ensures req.numberOfQuestions.None? ==> n == DefaultQuestionCount
    ensures req.numberOfQuestions.Some? ==> n == req.numberOfQuestions.value
  {
    req.numberOfQuestions.GetOr(DefaultQuestionCount)
  }

  /** The index of the first `{`, or |text| when there is none. */
  function FirstOpen(text: string): (i: nat)
    ensures i <= |text|
    ensures i < |text| ==> text[i] == '{'
    ensures forall k :: 0 <= k < i ==> text[k] != '{'
  {
    if text == [] || text[0] == '{' then 0 else 1 + FirstOpen(text[1..])
  }

  /** One past the index of the last `}`, or 0 when there is none. */
  function LastCloseEnd(text: string): (j: nat)
    ensures j <= |text|
    ensures j > 0 ==> text[j - 1] == '}'
    ensures forall k :: j <= k < |text| ==> text[k] != '}'
  {
    if text == [] then 0
    else if text[|text| - 1] == '}' then |text|
    else LastCloseEnd(text[..|text| - 1])
  }

  /**
   * `text.match(/\{[\s\S]*\}/)[0]`: the leftmost match starts at the first
   * `{` and, the star being greedy, ends at the last `}`. There is a match
   * exactly when some `{` comes before some `}`.
   */
  function ExtractJsonObject(text: string): (r: Option<string>)
    ensures r.Some? <==> exists i, j :: 0 <= i < j < |text| && text[i] == '{' && text[j] == '}'
    ensures r.Some? ==> FirstOpen(text) < LastCloseEnd(text)
                        && r.value == text[FirstOpen(text)..LastCloseEnd(text)]
  {
    var i, j := FirstOpen(text), LastCloseEnd(text);
    if i < j then
      assert text[i] == '{' && text[j - 1] == '}';
      Some(text[i..j])
    else
      None
  }

  /**
   * The extracted text starts with `{`, ends with `}`, and covers every
   * `{`…`}` span of the reply: no match starts earlier or ends later.
   */
  lemma ExtractionIsLeftmostLongest(text: string, i: nat, j: nat)
    requires i < j < |text| && text[i] == '{' && text[j] == '}'
    ensures var r := ExtractJsonObject(text);
      && r.Some? && r.value[0] == '{' && r.value[|r.value| - 1] == '}'
      && FirstOpen(text) <= i && j < LastCloseEnd(text)
  {
  }

  /** The multiple-choice verdict, computed locally. */
  function LocalMcqVerdict(q: Question, answer: string): Verdict
    requires q.Mcq?
  {
    var isCorrect := answer == q.correctAnswer;
    Verdict(Some(isCorrect), if isCorrect then 1.0 else 0.0, q.explanation)
  }

  /** The verdict returned when remote grading fails: `correct` is null. */
  function ManualReview(): Verdict {
    Verdict(None, 0.0, ManualReviewExplanation)
  }

  /**
   * `evaluateAnswer(question, answer)`: an unconfigured client throws, even
   * for a multiple-choice question; otherwise a multiple-choice question is
   * graded locally, and any failure of the remote path gives the manual-review
   * verdict instead of an error.
   */
  function Evaluation(configured: bool, backend: Backend, q: Question, answer: string)
    : (r: Result<Verdict, string>)
    ensures r.Failure? <==> !configured
    ensures r.Failure? ==> r.error == NotConfiguredMessage
  {
    if !configured then Failure(NotConfiguredMessage)
    else if q.Mcq? then Success(LocalMcqVerdict(q, answer))
    else
      match backend.gradeReply(q, answer)
      case Failure(_) => Success(ManualReview())
      case Success(text) =>
        match ExtractJsonObject(text)
        case None => Success(ManualReview())
        case Some(json) =>
          match backend.parseVerdict(json)
          case None => Success(ManualReview())
          case Some(v) => Success(v)
  }

  /**
   * `generateQuiz(request)`: an unconfigured client throws; a failed
   * exchange passes its error on; a reply with no `{`…`}` span fails to
   * parse; otherwise the questions read from the extracted JSON object, when
   * they can be read.
   */
  function Generation(configured: bool, backend: Backend, req: QuizRequest)
    : (r: Result<seq<Question>, string>)
    ensures !configured ==> r == Failure(NotConfiguredMessage)
    ensures configured && backend.quizReply(req).Failure? ==> r == Failure(backend.quizReply(req).error)
    ensures (configured && backend.quizReply(req).Success?
             && ExtractJsonObject(backend.quizReply(req).value).None?)
              ==> r == Failure(QuizParseMessage)
    ensures r.Success? ==> && configured && backend.quizReply(req).Success?
                           && ExtractJsonObject(backend.quizReply(req).value).Some?
                           && backend.parseQuestions(ExtractJsonObject(backend.quizReply(req).value).value)
                                == Some(r.value)
    ensures (configured && backend.quizReply(req).Success?
             && ExtractJsonObject(backend.quizReply(req).value).Some?
             && backend.parseQuestions(ExtractJsonObject(backend.quizReply(req).value).value).Some?)
              ==> r.Success?
  {
    if !configured then Failure(NotConfiguredMessage)
    else
      match backend.quizReply(req)
      case Failure(message) => Failure(message)
      case Success(text) =>
        match ExtractJsonObject(text)
        case None => Failure(QuizParseMessage)
        case Some(json) =>
          match backend.parseQuestions(json)
          case None => Failure(QuestionsUnreadableMessage)
          case Some(questions) => Success(questions)
  }

  /**
   * A configured client grades a multiple-choice answer without the remote
   * grader: the same verdict whatever the backend, correct exactly when the
   * answer equals the correct letter, score 1 or 0, explanation copied.
   */
  lemma McqVerdictIsLocal(b1: Backend, b2: Backend, q: Question, answer: string)
    requires q.Mcq?
    ensures Evaluation(true, b1, q, answer) == Evaluation(true, b2, q, answer)
    ensures var r := Evaluation(true, b1, q, answer);
      && r.Success?
      && r.value.correct == Some(answer == q.correctAnswer)
      && r.value.score == (if answer == q.correctAnswer then 1.0 else 0.0)
      && r.value.explanation == q.explanation
  {
  }

  /**
   * A configured client never fails on a coding or theory question: when the
   * reply is an error, holds no `{`…`}` span, or does not parse, the verdict
   * is manual review with `correct` null and score 0.
   */
  lemma RemoteFailureFallsBack(backend: Backend, q: Question, answer: string)
    requires !q.Mcq?
    requires || backend.gradeReply(q, answer).Failure?
             || ExtractJsonObject(backend.gradeReply(q, answer).value).None?
             || backend.parseVerdict(ExtractJsonObject(backend.gradeReply(q, answer).value).value).None?
    ensures Evaluation(true, backend, q, answer) == Success(ManualReview())
    ensures ManualReview().correct.None? && ManualReview().score == 0.0
  {
  }

  /** The client; `savedApiKey` is the browser storage entry `geminiApiKey`. */
  class GeminiApi {
    var apiKey: Option<string>
    var isConfigured: bool
    var savedApiKey: Option<string>

    /** A fresh client is not configured, whatever the browser has saved. */
    constructor (saved: Option<string>)
      ensures !isConfigured && apiKey.None? && savedApiKey == saved
    {
      apiKey := None;
      isConfigured := false;
      savedApiKey := saved;
    }

    /** Configures from a saved key when there is a non-empty one; otherwise changes nothing. */
    method LoadSavedApiKey() returns (loaded: bool)
      modifies this
      ensures loaded <==> old(savedApiKey).Some? && old(savedApiKey).value != ""
      ensures savedApiKey == old(savedApiKey)
      ensures loaded ==> isConfigured && apiKey == savedApiKey
      ensures !loaded ==> isConfigured == old(isConfigured) && apiKey == old(apiKey)
    {
      if savedApiKey.Some? && savedApiKey.value != "" {
        apiKey := savedApiKey;
        isConfigured := true;
        return true;
      }
      return false;
    }

    /** Sets the key, marks the client configured and saves the key (even an empty one). */
    method Configure(key: string)
      modifies this
      ensures apiKey == Some(key) && isConfigured && savedApiKey == Some(key)
    {
      apiKey := Some(key);
      isConfigured := true;
      savedApiKey := Some(key);
    }

    method IsApiConfigured() returns (configured: bool)
      ensures configured == isConfigured
    {
      configured := isConfigured;
    }

    method GenerateQuiz(req: QuizRequest, backend: Backend) returns (r: Result<seq<Question>, string>)
      ensures r == Generation(isConfigured, backend, req)
      ensures !isConfigured ==> r.Failure?
    {
      if !isConfigured {
        return Failure(NotConfiguredMessage);
      }
      var reply := backend.quizReply(req);
      if reply.Failure? {
        return Failure(reply.error);
      }
      var json := ExtractJsonObject(reply.value);
      if json.None? {
        return Failure(QuizParseMessage);
      }
      var questions := backend.parseQuestions(json.value);
      if questions.None? {
        return Failure(QuestionsUnreadableMessage);
      }
      return Success(questions.value);
    }

    method EvaluateAnswer(q: Question, answer: string, backend: Backend)
      returns (r: Result<Verdict, string>)
      ensures r == Evaluation(isConfigured, backend, q, answer)
      ensures r.Failure? <==> !isConfigured
    {
      if !isConfigured {
        return Failure(NotConfiguredMessage);
      }
      if q.Mcq? {
        var isCorrect := answer == q.correctAnswer;
        return Success(Verdict(Some(isCorrect), if isCorrect then 1.0 else 0.0, q.explanation));
      }
      var reply := backend.gradeReply(q, answer);
      if reply.Failure? {
        return Success(ManualReview());
      }
      var json := ExtractJsonObject(reply.value);
      if json.None? {
        return Success(ManualReview());
      }
      var verdict := backend.parseVerdict(json.value);
      if verdict.None? {
        return Success(ManualReview());
      }
      return Success(verdict.value);
    }
  }
}
