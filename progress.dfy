/**
 * The progress panel: the window of recent quizzes, each quiz's rounded
 * percentage, the highest score, the trend over the last three and the
 * chart's attempt labels.
 */
module Progress {
  import opened Wrappers
  import opened QuizData
  import opened Text
  import opened Seqs

  /** How many of the newest history entries the panel shows. */
  const RecentWindow: nat := 20

  /** `quizzes.slice(0, 20).reverse()`: the newest twenty, oldest first. */
  function Recent(history: seq<HistoryEntry>): seq<HistoryEntry> {
    Reversed(history[..Min(|history|, RecentWindow)])
  }

  /**
   * History is stored newest first, so the window holds the newest twenty
   * entries, reversed: its last element is the newest quiz.
   */
  lemma RecentIsOldestFirst(history: seq<HistoryEntry>)
    ensures |Recent(history)| == Min(|history|, RecentWindow)
    ensures forall k :: 0 <= k < |Recent(history)| ==>
      Recent(history)[k] == history[|Recent(history)| - 1 - k]
  {
    var w := history[..Min(|history|, RecentWindow)];
    forall k | 0 <= k < |w| ensures Reversed(w)[k] == history[|w| - 1 - k] {
      ReversedAt(w, k);
    }
  }

  // ---------------------------------------------------------------------
  // Percentages

  /** A JavaScript number as it arises here: a whole percentage, NaN (0/0) or Infinity (n/0). */
  datatype Percentage = Pct(value: int) | NaN | Infinity

  /**
   * `Math.round((score / total) * 100)`, computed exactly: the result is
   * ⌊100·score/total + 1/2⌋, which is `(200·score + total) div (2·total)`.
   */
  function Percent(score: nat, total: nat): Percentage {
    if total == 0 then (if score == 0 then NaN else Infinity)
    else Pct((200 * score + total) / (2 * total))
  }

  lemma DivBounds(x: nat, d: nat)
    requires d > 0
    ensures d * (x / d) <= x < d * (x / d + 1)
  {
  }

  /**
   * A defined percentage is the nearest whole number to 100·score/total,
   * halves rounding up: p − ½ ≤ 100·score/total < p + ½, multiplied out by 2·total.
   */
  lemma PercentRounds(score: nat, total: nat)
    requires total > 0
    ensures Percent(score, total).Pct?
    ensures var p := Percent(score, total).value;
      2 * total * p <= 200 * score + total < 2 * total * (p + 1)
  {
    DivBounds(200 * score + total, 2 * total);
  }

  lemma MulMonotone(a: nat, b: nat, c: nat)
    requires b <= c
    ensures a * b <= a * c
  {
  }

  /** With `0 <= score <= total` and `total > 0` the percentage lies in 0..100. */
  lemma PercentInRange(score: nat, total: nat)
    requires 0 < total && score <= total
    ensures Percent(score, total).Pct? && 0 <= Percent(score, total).value <= 100
  {
    var x, d := 200 * score + total, 2 * total;
    DivBounds(x, d);
    assert x < d * 101;
    if x / d > 100 {
      MulMonotone(d, 101, x / d);
    }
  }

  // ---------------------------------------------------------------------
  // Highest score and trend

  /** `Math.max(a, b)`: NaN wins over everything, then Infinity. */
  function MaxOf(a: Percentage, b: Percentage): Percentage {
    if a.NaN? || b.NaN? then NaN
    else if a.Infinity? || b.Infinity? then Infinity
    else Pct(Max(a.value, b.value))
  }

  /** `Math.max(...scores)` over a non-empty list. */
  function Highest(ps: seq<Percentage>): Percentage
    requires ps != []
  {
    if |ps| == 1 then ps[0] else MaxOf(Highest(ps[..|ps| - 1]), ps[|ps| - 1])
  }

  predicate AllFinite(ps: seq<Percentage>) {
    forall k :: 0 <= k < |ps| ==> ps[k].Pct?
  }

  /** Over defined percentages the highest is at least every score and is one of them. */
  lemma {:induction false} HighestIsMaximum(ps: seq<Percentage>)
    requires ps != [] && AllFinite(ps)
    ensures Highest(ps).Pct?
    ensures forall k :: 0 <= k < |ps| ==> ps[k].value <= Highest(ps).value
    ensures exists k :: 0 <= k < |ps| && ps[k] == Highest(ps)
  {
    if |ps| > 1 {
      var init := ps[..|ps| - 1];
      HighestIsMaximum(init);
      var k :| 0 <= k < |init| && init[k] == Highest(init);
      if ps[|ps| - 1].value <= Highest(init).value {
        assert ps[k] == Highest(ps);
      } else {
        assert ps[|ps| - 1] == Highest(ps);
      }
    }
  }

  /** A single NaN score makes the highest NaN. */
  lemma {:induction false} HighestNaN(ps: seq<Percentage>, k: nat)
    requires k < |ps| && ps[k].NaN?
    ensures Highest(ps).NaN?
  {
    if |ps| > 1 && k < |ps| - 1 {
      HighestNaN(ps[..|ps| - 1], k);
    }
  }

  /** `a > b` on JavaScript numbers: any comparison with NaN is false. */
  predicate Greater(a: Percentage, b: Percentage) {
    match (a, b)
    case (Pct(x), Pct(y)) => x > y
    case (Infinity, Pct(_)) => true
    case _ => false
  }

  datatype Trend = Improving | Declining | Steady | InsufficientData

  /** The newest score against the third newest; with fewer than three scores there is no trend. */
  function TrendOf(ps: seq<Percentage>): Trend {
    if |ps| < 3 then InsufficientData
    else
      var oldest, newest := ps[|ps| - 3], ps[|ps| - 1];
      if Greater(newest, oldest) then Improving
      else if Greater(oldest, newest) then Declining
      else Steady
  }

  /** `Math.round(q.score / q.totalQuestions * 100)` for each quiz of the window. */
  function Scores(recent: seq<HistoryEntry>): seq<Percentage> {
    seq(|recent|, k requires 0 <= k < |recent| => Percent(recent[k].score, recent[k].totalQuestions))
  }

  function QuizPercent(e: HistoryEntry): Percentage {
    Percent(e.score, e.totalQuestions)
  }

  /**
   * The trend compares the newest quiz in history with the one two before
   * it; a NaN on either side reads as steady.
   */
  lemma TrendOfHistory(history: seq<HistoryEntry>)
    ensures var t := TrendOf(Scores(Recent(history)));
      && (t == InsufficientData <==> |history| < 3)
      && (|history| >= 3 ==>
            var newest, third := QuizPercent(history[0]), QuizPercent(history[2]);
            && (t == Improving <==> Greater(newest, third))
            && (t == Declining <==> Greater(third, newest))
            && (newest.NaN? || third.NaN? ==> t == Steady)
            && (newest.Pct? && third.Pct? ==> (t == Steady <==> newest.value == third.value)))
  {
    RecentIsOldestFirst(history);
    var r := Recent(history);
    if |history| >= 3 {
      assert r[|r| - 1] == history[0];
      assert r[|r| - 3] == history[2];
    }
  }

  // ---------------------------------------------------------------------
  // Labels and the whole panel

  const AttemptPrefix := "Attempt "

  /** `Attempt 1` … `Attempt n`. */
  function Labels(n: nat): seq<string> {
    seq(n, k requires 0 <= k < n => AttemptPrefix + Decimal(k + 1))
  }

  /** Label k names attempt k+1: its number reads back, and no two labels are equal. */
  lemma LabelsNumberAttempts(n: nat)
    ensures |Labels(n)| == n
    ensures forall k :: 0 <= k < n ==>
      var l := Labels(n)[k];
      |l| > |AttemptPrefix| && l[..|AttemptPrefix|] == AttemptPrefix
      && AllDigits(l[|AttemptPrefix|..]) && ParseDecimal(l[|AttemptPrefix|..]) == k + 1
    ensures forall j, k :: 0 <= j < k < n ==> Labels(n)[j] != Labels(n)[k]
  {
    forall k | 0 <= k < n
      ensures var l := Labels(n)[k];
        |l| > |AttemptPrefix| && l[..|AttemptPrefix|] == AttemptPrefix
        && AllDigits(l[|AttemptPrefix|..]) && ParseDecimal(l[|AttemptPrefix|..]) == k + 1
    {
      var l := Labels(n)[k];
      assert l[|AttemptPrefix|..] == Decimal(k + 1);
      ParseDecimalOfDecimal(k + 1);
    }
  }

  /** What the panel shows: the zero state for an empty history, otherwise the metrics. */
  datatype ProgressView =
    | NoQuizzesYet
    | Metrics(completed: nat, scores: seq<Percentage>, highest: Percentage, trend: Trend, labels: seq<string>)

  /** `loadProgressAnalysis`'s computations. */
  function ProgressAnalysis(history: seq<HistoryEntry>): ProgressView {
    var recent := Recent(history);
    if recent == [] then NoQuizzesYet
    else
      var scores := Scores(recent);
      Metrics(|recent|, scores, Highest(scores), TrendOf(scores), Labels(|recent|))
  }

  /**
   * The zero state appears exactly for an empty history; otherwise the
   * completed count is the window's length, at most twenty, with one label
   * and one score per quiz of the window, oldest first.
   */
  lemma ProgressAnalysisShape(history: seq<HistoryEntry>)
    ensures ProgressAnalysis(history).NoQuizzesYet? <==> history == []
    ensures var v := ProgressAnalysis(history);
      v.Metrics? ==>
        && v.completed == Min(|history|, RecentWindow) && 1 <= v.completed <= RecentWindow
        && |v.scores| == v.completed && |v.labels| == v.completed
        && (forall k :: 0 <= k < v.completed ==> v.scores[k] == QuizPercent(history[v.completed - 1 - k]))
  {
    RecentIsOldestFirst(history);
  }

  /**
   * When every quiz in the window had questions the highest score is a
   * defined percentage, and when every score is within its total it is at most 100.
   */
  lemma ProgressHighestDefined(history: seq<HistoryEntry>)
    requires history != []
    requires forall k :: 0 <= k < Min(|history|, RecentWindow) ==> history[k].totalQuestions > 0
    ensures ProgressAnalysis(history).highest.Pct?
    ensures (forall k :: 0 <= k < Min(|history|, RecentWindow) ==> history[k].score <= history[k].totalQuestions)
              ==> 0 <= ProgressAnalysis(history).highest.value <= 100
  {
    var r := Recent(history);
    RecentIsOldestFirst(history);
    var n := |r|;
    assert forall k :: 0 <= k < n ==> r[k] == history[n - 1 - k];
    HighestOfWindow(r);
  }

  /** Over a window of quizzes that all had questions the highest is defined, and at most 100 when no score exceeds its total. */
  lemma HighestOfWindow(recent: seq<HistoryEntry>)
    requires recent != [] && forall k :: 0 <= k < |recent| ==> recent[k].totalQuestions > 0
    ensures Highest(Scores(recent)).Pct?
    ensures (forall k :: 0 <= k < |recent| ==> recent[k].score <= recent[k].totalQuestions)
              ==> 0 <= Highest(Scores(recent)).value <= 100
  {
    var ps := Scores(recent);
    HighestIsMaximum(ps);
    if forall k :: 0 <= k < |recent| ==> recent[k].score <= recent[k].totalQuestions {
      var j :| 0 <= j < |ps| && ps[j] == Highest(ps);
      PercentInRange(recent[j].score, recent[j].totalQuestions);
    }
  }
}
