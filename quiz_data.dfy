/**
 * The records the quiz app passes between its parts: questions as the
 * question service returns them, verdicts, quiz settings, the summary kept in
 * history, and user preferences.
 */
module QuizData {
  import opened Wrappers

  datatype McqOption = McqOption(letter: string, text: string)

  datatype SampleCase = SampleCase(input: string, output: string)

  /** One question of a batch, tagged by its `type` field. */
  datatype Question =
    | Mcq(id: int, topic: string, question: string, options: seq<McqOption>,
          correctAnswer: string, explanation: string)
    | Coding(id: int, topic: string, question: string, starterCode: string,
             sampleCases: seq<SampleCase>, explanation: string)
    | Theory(id: int, topic: string, question: string, keyPoints: seq<string>,
             explanation: string)
  {
    /** The question's `type` string as it appears in the service's JSON. */
    function TypeName(): string {
      match this
      case Mcq(_, _, _, _, _, _) => "mcq"
      case Coding(_, _, _, _, _, _) => "coding"
      case Theory(_, _, _, _, _) => "theory"
    }
  }

  /**
   * A grading verdict. `correct` is None for JSON null ("needs manual
   * review"), which every consumer treats as not correct.
   */
  datatype Verdict = Verdict(correct: Option<bool>, score: real, explanation: string)

  /** `evaluation && evaluation.correct`: a verdict exists and its `correct` is true. */
  predicate Credited(e: Option<Verdict>) {
    e.Some? && e.value.correct == Some(true)
  }

  /**
   * Quiz settings. `numberOfQuestions` is None when it is absent or NaN;
   * `timeLimit` is in minutes.
   */
  datatype Settings = Settings(topics: seq<string>, questionTypes: seq<string>,
                               numberOfQuestions: Option<int>, timeLimit: int)

  /** The summary of a submitted quiz that is kept in history. */
  datatype HistoryEntry = HistoryEntry(date: string, topics: seq<string>, score: nat,
                                       totalQuestions: nat, timeTaken: int,
                                       questionTypes: seq<string>)

  /** Topic name to the number of quizzes generated with it. */
  type TopicCounts = map<string, nat>

  datatype PrefValue = PrefText(text: string) | PrefNumber(number: int)

  type Preferences = map<string, PrefValue>
}
