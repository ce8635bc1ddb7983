/**
 * The rules the quiz screens apply before and around the session: settings
 * validation on start, the navigation buttons, the question-type labels, the
 * MM:SS countdown with its automatic submission, the results tallies, the
 * review marks and the guard that freezes choices after submission.
 */
module QuizUi {
  import opened Wrappers
  import opened QuizData
  import opened Text
  import opened Generator

  // ---------------------------------------------------------------------
  // Starting a quiz

  /** What pressing "start" leads to. */
  datatype StartOutcome =
    | PromptForApiKey
    | NoTopicSelected
    | NoTypeSelected
    | Begin(settings: Settings)

  /** The topic list sent for generation: the checked topics, then the trimmed custom topic if any is left. */
  function SelectedTopics(checked: seq<string>, custom: string): seq<string> {
    var t := Trim(custom);
    if t != [] then checked + [t] else checked
  }

  /**
   * `startNewQuiz`'s checks, in order: an unconfigured client prompts for a
   * key; an empty topic list, then an empty type list, is refused; otherwise
   * the settings are built from the form (`parseInt` failing reads as None
   * for the count).
   */
  function StartNewQuiz(configured: bool, checkedTopics: seq<string>, customTopic: string,
                        checkedTypes: seq<string>, numberOfQuestions: Option<int>, timeLimit: int): StartOutcome
  {
    var topics := SelectedTopics(checkedTopics, customTopic);
    if !configured then PromptForApiKey
    else if topics == [] then NoTopicSelected
    else if checkedTypes == [] then NoTypeSelected
    else Begin(Settings(topics, checkedTypes, numberOfQuestions, timeLimit))
  }

  /**
   * Generation starts only when configured with at least one topic and one
   * type. A custom topic made only of whitespace is dropped; any other is
   * appended, trimmed, after the checked ones.
   */
  lemma StartNewQuizValidates(configured: bool, checkedTopics: seq<string>, customTopic: string,
                              checkedTypes: seq<string>, numberOfQuestions: Option<int>, timeLimit: int)
    ensures var o := StartNewQuiz(configured, checkedTopics, customTopic, checkedTypes, numberOfQuestions, timeLimit);
      var blank := forall k :: 0 <= k < |customTopic| ==> IsJsWhitespace(customTopic[k]);
      && (o == PromptForApiKey <==> !configured)
      && (o == NoTopicSelected <==> configured && checkedTopics == [] && blank)
      && (o == NoTypeSelected <==> configured && (checkedTopics != [] || !blank) && checkedTypes == [])
      && (o.Begin? ==> && o.settings.topics != [] && o.settings.questionTypes == checkedTypes != []
                       && o.settings.numberOfQuestions == numberOfQuestions
                       && o.settings.timeLimit == timeLimit
                       && o.settings.topics[..|checkedTopics|] == checkedTopics
                       && |o.settings.topics| == |checkedTopics| + (if blank then 0 else 1))
      && (o.Begin? && !blank ==> o.settings.topics[|checkedTopics|] == Trim(customTopic))
  {
    TrimEmptyIff(customTopic);
  }

  /** An appended custom topic starts and ends with a non-space character. */
  lemma CustomTopicIsTrimmed(checkedTopics: seq<string>, customTopic: string)
    requires |SelectedTopics(checkedTopics, customTopic)| > |checkedTopics|
    ensures var t := SelectedTopics(checkedTopics, customTopic)[|checkedTopics|];
      t != [] && !IsJsWhitespace(t[0]) && !IsJsWhitespace(t[|t| - 1])
  {
    TrimHasNoOuterWhitespace(customTopic);
  }

  // ---------------------------------------------------------------------
  // Navigation buttons

  /** The button state `updateQuizUI` sets. */
  datatype NavButtons = NavButtons(prevDisabled: bool, nextHidden: bool, submitShown: bool)

  function NavState(index: int, n: int): NavButtons {
    var last := index == n - 1;
    NavButtons(index == 0, last, last)
  }

  /**
   * The buttons agree with the moves: Previous is disabled exactly where it
   * would not move, and Submit replaces Next exactly where Next would not move.
   */
  lemma NavStateMatchesMoves(index: int, n: int)
    requires n > 0 && InRange(index, n)
    ensures NavState(index, n).prevDisabled <==> PreviousIndex(index) == index
    ensures NavState(index, n).submitShown <==> NextIndex(index, n) == index
    ensures NavState(index, n).nextHidden == NavState(index, n).submitShown
  {
  }

  // ---------------------------------------------------------------------
  // Labels

  /** `formatQuestionType`: the three known types get their labels, any other string is shown as is. */
  function FormatQuestionType(t: string): string {
    if t == "mcq" then "Multiple Choice"
    else if t == "coding" then "Coding Challenge"
    else if t == "theory" then "Theory Question"
    else t
  }

  /** Every question's type gets a label of its own, distinct from the other types' labels. */
  lemma QuestionTypeLabels(q1: Question, q2: Question)
    ensures FormatQuestionType(q1.TypeName()) != q1.TypeName()
    ensures FormatQuestionType(q1.TypeName()) == FormatQuestionType(q2.TypeName()) <==> q1.TypeName() == q2.TypeName()
  {
  }

  /** Strings that are not a known type are shown unchanged. */
  lemma OtherTypesUnchanged(t: string)
    requires t != "mcq" && t != "coding" && t != "theory"
    ensures FormatQuestionType(t) == t
  {
  }

  // ---------------------------------------------------------------------
  // The clock

  /** MM:SS for a duration in milliseconds: whole minutes, then whole seconds of the rest, each at least two digits. */
  function FormatClock(ms: nat): string {
    Clock(ms / 60000, (ms % 60000) / 1000)
  }

  /** Minutes and seconds, each padded to two digits, joined by a colon. */
  function Clock(minutes: nat, seconds: nat): string {
    PadStart2(Decimal(minutes)) + ":" + PadStart2(Decimal(seconds))
  }

  /**
   * `s` reads back as `m` minutes and `sec` seconds: a colon with two digits
   * after it, the part before the colon reading as the minutes and the two
   * digits as the seconds.
   */
  predicate ReadsBackAs(s: string, m: nat, sec: nat) {
    && |s| >= 5 && s[|s| - 3] == ':'
    && AllDigits(s[..|s| - 3]) && AllDigits(s[|s| - 2..])
    && ParseDecimal(s[..|s| - 3]) == m && ParseDecimal(s[|s| - 2..]) == sec
  }

  /** The clock text reads back as the duration's whole minutes and whole seconds, the seconds below 60. */
  lemma FormatClockReadsBack(ms: nat)
    ensures (ms % 60000) / 1000 < 60
    ensures ReadsBackAs(FormatClock(ms), ms / 60000, (ms % 60000) / 1000)
  {
    SecondsBelowSixty(ms % 60000);
    JoinedClockReadsBack(ms / 60000, (ms % 60000) / 1000);
  }

  lemma JoinedClockReadsBack(m: nat, sec: nat)
    requires sec < 100
    ensures ReadsBackAs(Clock(m, sec), m, sec)
  {
    DecimalBelowHundred(sec);
    PaddedReadsBack(m);
    PaddedReadsBack(sec);
    ColonSplit(PadStart2(Decimal(m)), PadStart2(Decimal(sec)));
  }

  /** A padded number is at least two digits and reads back as the number. */
  lemma PaddedReadsBack(n: nat)
    ensures var p := PadStart2(Decimal(n)); |p| >= 2 && AllDigits(p) && ParseDecimal(p) == n
  {
    PadStart2Value(Decimal(n));
    ParseDecimalOfDecimal(n);
  }

  lemma SecondsBelowSixty(rest: nat)
    requires rest < 60000
    ensures rest / 1000 < 60
  {
  }

  /** Two digit strings joined by a colon split back into the same two, with the same values. */
  lemma ColonSplit(mm: string, ss: string)
    requires |ss| == 2 && |mm| >= 2 && AllDigits(mm) && AllDigits(ss)
    ensures ReadsBackAs(mm + ":" + ss, ParseDecimal(mm), ParseDecimal(ss))
  {
    JoinParts(mm, ':', ss);
  }

  lemma JoinParts<T>(a: seq<T>, sep: T, b: seq<T>)
    requires |b| == 2
    ensures var s := a + [sep] + b;
      |s| == |a| + 3 && s[..|s| - 3] == a && s[|s| - 3] == sep && s[|s| - 2..] == b
  {
  }

  /** `Math.max(0, endTime - now)`. */
  function RemainingTime(endTime: int, now: int): nat {
    if endTime - now > 0 then endTime - now else 0
  }

  /** The remaining time never goes below zero, reaches zero exactly at the end time, and only shrinks as time passes. */
  lemma RemainingTimeProperties(endTime: int, now: int, later: int)
    requires now <= later
    ensures RemainingTime(endTime, now) == 0 <==> now >= endTime
    ensures now < endTime ==> RemainingTime(endTime, now) == endTime - now
    ensures RemainingTime(endTime, later) <= RemainingTime(endTime, now)
  {
  }

  /** The countdown's state: whether its interval is installed, when it ends, and what it last showed. */
  class QuizTimer {
    var running: bool
    var endTime: int
    var remainingTime: nat

    constructor ()
      ensures !running && remainingTime == 0
    {
      running := false;
      endTime := 0;
      remainingTime := 0;
    }

    /** `startTimer(timeLimit)`: any earlier interval is replaced by one ending `timeLimit` minutes from now. */
    method Start(timeLimit: int, now: int)
      modifies this
      ensures running && endTime == now + timeLimit * MsPerMinute
      ensures remainingTime == old(remainingTime)
    {
      if running {
        running := false;
      }
      endTime := now + timeLimit * 60 * 1000;
      running := true;
    }

    /**
     * One firing of the interval: update the remaining time and its MM:SS
     * text; when it has reached zero, clear the interval and ask for the
     * quiz to be submitted.
     */
    method Tick(now: int) returns (display: string, submit: bool)
      requires running
      modifies this
      ensures remainingTime == RemainingTime(endTime, now) && endTime == old(endTime)
      ensures display == FormatClock(remainingTime)
      ensures submit <==> now >= endTime
      ensures running == !submit
    {
      remainingTime := RemainingTime(endTime, now);
      display := FormatClock(remainingTime);
      submit := false;
      if remainingTime <= 0 {
        running := false;
        submit := true;
      }
    }

    /** The interval cleared when the quiz is submitted by hand. */
    method Stop()
      modifies this
      ensures !running && endTime == old(endTime) && remainingTime == old(remainingTime)
    {
      running := false;
    }
  }

  // ---------------------------------------------------------------------
  // Results

  /** The three counts on the results page. */
  datatype Tallies = Tallies(correct: int, incorrect: int, unanswered: int)

  function TalliesOf(r: QuizResults): Tallies {
    Tallies(r.score, r.questionsAnswered - r.score, r.totalQuestions - r.questionsAnswered)
  }

  /**
   * For results computed by submission the tallies are all non-negative and
   * add up to the number of questions.
   */
  lemma TalliesOfSubmission(answers: seq<Option<string>>, evals: seq<Option<Verdict>>, timeTaken: int)
    requires |answers| == |evals|
    ensures var t := TalliesOf(QuizResults(CountCredited(answers, evals), |answers|, CountAnswered(answers), timeTaken, evals));
      && t.correct >= 0 && t.incorrect >= 0 && t.unanswered >= 0
      && t.correct + t.incorrect + t.unanswered == |answers|
      && t.correct + t.incorrect == CountAnswered(answers)
  {
    ScoreBounds(answers, evals);
  }

  /** One item of the review list. */
  datatype ReviewMark = ReviewMark(index: nat, correct: bool)

  /** `generateReviewContent`: unanswered questions are skipped; an item is marked correct only when its evaluation says so. */
  function ReviewMarks(answers: seq<Option<string>>, evals: seq<Option<Verdict>>): (r: seq<ReviewMark>)
    requires |answers| == |evals|
    ensures |r| == CountAnswered(answers)
    ensures forall k :: 0 <= k < |r| ==>
      r[k].index < |answers| && answers[r[k].index].Some? && r[k].correct == Credited(evals[r[k].index])
    ensures forall k, l :: 0 <= k < l < |r| ==> r[k].index < r[l].index
  {
    if answers == [] then []
    else
      var n := |answers| - 1;
      var earlier := ReviewMarks(answers[..n], evals[..n]);
      if answers[n].Some? then earlier + [ReviewMark(n, Credited(evals[n]))] else earlier
  }

  function CountCorrectMarks(marks: seq<ReviewMark>): nat {
    if marks == [] then 0
    else CountCorrectMarks(marks[..|marks| - 1]) + (if marks[|marks| - 1].correct then 1 else 0)
  }

  /** The review shows as many correct items as the score counts. */
  lemma {:induction false} ReviewAgreesWithScore(answers: seq<Option<string>>, evals: seq<Option<Verdict>>)
    requires |answers| == |evals|
    ensures CountCorrectMarks(ReviewMarks(answers, evals)) == CountCredited(answers, evals)
  {
    if answers != [] {
      var n := |answers| - 1;
      ReviewAgreesWithScore(answers[..n], evals[..n]);
      var earlier := ReviewMarks(answers[..n], evals[..n]);
      if answers[n].Some? {
        assert (earlier + [ReviewMark(n, Credited(evals[n]))])[..|earlier|] == earlier;
      }
    }
  }

  // ---------------------------------------------------------------------
  // Answer input

  /** A click on a choice: ignored once the quiz is completed, otherwise recorded for the displayed question. */
  method SelectOption(gen: QuizGenerator, letter: string)
    requires gen.Valid() && gen.currentQuiz != null
    modifies gen.currentQuiz
    ensures gen.Valid()
    ensures var q := gen.currentQuiz; var i := q.currentQuestionIndex;
      && q.evaluations == old(q.evaluations) && i == old(q.currentQuestionIndex)
      && q.completed == old(q.completed)
      && (old(q.completed) ==> q.answers == old(q.answers))
      && (!old(q.completed) ==> q.answers == if i < |q.questions| then old(q.answers)[i := Some(letter)]
                                             else old(q.answers))
  {
    var quiz := gen.currentQuiz;
    if quiz.completed {
      return;
    }
    var _ := gen.SubmitAnswer(quiz.currentQuestionIndex, letter);
  }

  /** Typing in a code or theory answer box: recorded for the displayed question, with no completion guard. */
  method EnterText(gen: QuizGenerator, text: string)
    requires gen.Valid() && gen.currentQuiz != null
    modifies gen.currentQuiz
    ensures gen.Valid()
    ensures var q := gen.currentQuiz; var i := q.currentQuestionIndex;
      && q.evaluations == old(q.evaluations) && i == old(q.currentQuestionIndex)
      && q.completed == old(q.completed)
      && q.answers == if i < |q.questions| then old(q.answers)[i := Some(text)] else old(q.answers)
  {
    var _ := gen.SubmitAnswer(gen.currentQuiz.currentQuestionIndex, text);
  }
}
