/** The quiz page of the web app (`src/app/quiz/page.tsx`): reading an
    evaluation's score string as a percentage, the session's average score,
    the colour bands, and the page's "next" and "submit" handlers over the
    learning session. Arithmetic is exact: a division is rounded as
    `Math.round` rounds the exact quotient. */
module Quiz {
  import opened Wrappers
  import opened Strings
  import Gemini
  import Learning

  /** The numbers a score can come out as: an integer, or the non-finite
      values a division by zero yields (`n/0` with `n > 0`, and `0/0`). */
  datatype Number = Finite(n: int) | Infinity | NaN

  /** `Math.round(a / b)` for `b > 0`: the integer nearest to the quotient,
      halves rounded up. */
  function RoundDiv(a: int, b: int): (r: int)
    requires b > 0
    ensures (2 * b) * r - b <= 2 * a < (2 * b) * r + b
  {
    (2 * a + b) / (2 * b)
  }

  /** `Math.round((n / d) * 100)` */
  function RoundedPercent(n: nat, d: nat): (r: Number)
    ensures d == 0 ==> r == (if n == 0 then NaN else Infinity)
    ensures d > 0 ==> r.Finite? && (2 * d) * r.n - d <= 200 * n < (2 * d) * r.n + d
  {
    if d == 0 then (if n == 0 then NaN else Infinity)
    else Finite(RoundDiv(100 * n, d))
  }

  /** A fraction no larger than one is a percentage. */
  lemma ProperFractionIsPercentage(n: nat, d: nat)
    requires 0 < d && n <= d
    ensures RoundedPercent(n, d).Finite? && 0 <= RoundedPercent(n, d).n <= 100
  {
    RoundDivBounds(100 * n, d, 0, 100);
  }

  // ---------------------------------------------------------------- reading a score

  /** The regular expression `(\d+)\/(\d+)` tried at the start of `s`: the
      numerator and denominator digits. Both runs are taken whole, since a
      shorter numerator would be followed by a digit, not a slash. */
  function FractionHere(s: string): (r: Option<(string, string)>)
    ensures r.Some? ==> r.value.0 != [] && r.value.1 != [] && AllDigits(r.value.0) && AllDigits(r.value.1)
    ensures r.Some? ==> StartsWith(s, r.value.0 + "/" + r.value.1)
  {
    var n := LeadingDigits(s);
    if n == [] || |n| == |s| || s[|n|] != '/' then None
    else
      var d := LeadingDigits(s[|n| + 1..]);
      if d == [] then None
      else
        assert s[..|n + "/" + d|] == n + "/" + d by {
          assert s[..|n|] == n;
          assert s[|n| + 1..][..|d|] == d;
        }
        Some((n, d))
  }

  /** Where the regular expression first matches in `s`, searching from `i`. */
  function FractionFrom(s: string, i: nat): (r: Option<nat>)
    requires i <= |s|
    ensures r.Some? ==> i <= r.value < |s|
    decreases |s| - i
  {
    if i == |s| then None
    else if FractionHere(s[i..]).Some? then Some(i)
    else FractionFrom(s, i + 1)
  }

  /** The search finds the leftmost position where the expression matches,
      and finds nothing only when it matches nowhere. */
  lemma {:induction false} FractionFromIsLeftmost(s: string, i: nat)
    requires i <= |s|
    ensures FractionFrom(s, i).Some? ==> FractionHere(s[FractionFrom(s, i).value..]).Some?
    ensures FractionFrom(s, i).Some? ==> forall j :: i <= j < FractionFrom(s, i).value ==> FractionHere(s[j..]).None?
    decreases |s| - i
  {
    if i < |s| && FractionHere(s[i..]).None? {
      assert FractionFrom(s, i) == FractionFrom(s, i + 1);
      FractionFromIsLeftmost(s, i + 1);
    }
  }

  /** Where the expression matches nowhere, the search finds nothing. */
  lemma {:induction false} NoFractionFrom(s: string, i: nat)
    requires i <= |s|
    requires forall j :: i <= j < |s| ==> FractionHere(s[j..]).None?
    ensures FractionFrom(s, i) == None
    decreases |s| - i
  {
    if i < |s| {
      NoFractionFrom(s, i + 1);
    }
  }

  /** `s.match(/(\d+)\/(\d+)/)`: the leftmost match's two digit runs. */
  function FirstFraction(s: string): (r: Option<(string, string)>)
    ensures r.Some? ==> r.value.0 != [] && r.value.1 != [] && AllDigits(r.value.0) && AllDigits(r.value.1)
  {
    var p := FractionFrom(s, 0);
    if p.None? then None else FractionHere(s[p.value..])
  }

  /** A fraction of two digit strings is found whole. */
  lemma FirstFractionOfDigits(n: string, m: string)
    requires n != [] && m != [] && AllDigits(n) && AllDigits(m)
    ensures FirstFraction(n + "/" + m) == Some((n, m))
  {
    var s := n + "/" + m;
    assert s == n + ("/" + m);
    LeadingDigitsOfDigits(n, "/" + m);
    assert s[|n| + 1..] == m;
    LeadingDigitsOfDigits(m, []);
    assert m + [] == m;
    assert s[0..] == s;
  }

  /** A string of digits holds no fraction. */
  lemma NoFractionInDigits(s: string)
    requires AllDigits(s)
    ensures FirstFraction(s) == None
  {
    forall j | 0 <= j < |s|
      ensures FractionHere(s[j..]).None?
    {
      var t := s[j..];
      assert AllDigits(t);
      LeadingDigitsOfDigits(t, []);
      assert t + [] == t;
    }
    NoFractionFrom(s, 0);
  }

  /** The text left after an optional leading sign. */
  function Unsigned(t: string): string
  {
    if t != [] && (t[0] == '-' || t[0] == '+') then t[1..] else t
  }

  /** `parseInt(s)`: leading whitespace, an optional sign, then decimal
      digits; `None` stands for `NaN`. */
  function ParseInt(s: string): (r: Option<int>)
    ensures r.None? <==> LeadingDigits(Unsigned(TrimStart(s))) == []
    ensures r.Some? && (TrimStart(s) == [] || TrimStart(s)[0] != '-') ==> r.value >= 0
  {
    var t := TrimStart(s);
    var digits := LeadingDigits(Unsigned(t));
    if digits == [] then None
    else if t[0] == '-' then Some(-(DigitsValue(digits) as int))
    else Some(DigitsValue(digits))
  }

  /** `parseScore`: the empty string is 0; otherwise the first fraction
      `n/d` as a rounded percentage; otherwise a leading integer counted as
      out of ten; otherwise 0. */
  function ParseScore(s: string): (r: Number)
    ensures s == "" ==> r == Finite(0)
    ensures !r.Finite? ==> FirstFraction(s).Some? && DigitsValue(FirstFraction(s).value.1) == 0
  {
    if s == "" then Finite(0)
    else
      match FirstFraction(s)
      case Some((n, d)) => RoundedPercent(DigitsValue(n), DigitsValue(d))
      case None =>
        match ParseInt(s)
        case None => Finite(0)
        case Some(k) => Finite(10 * k)
  }

  /** Printing a number and reading it back with `parseInt` gives it back. */
  lemma ParseIntOfNumber(k: nat)
    ensures ParseInt(NatToString(k)) == Some(k)
  {
    var s := NatToString(k);
    assert TrimStart(s) == s;
    assert Unsigned(s) == s;
    LeadingDigitsOfDigits(s, []);
    assert s + [] == s;
    NatToStringRoundTrip(k);
  }

  /** A score written `k/d` reads as the rounded percentage `k/d`. */
  lemma FractionScore(k: nat, d: nat)
    ensures ParseScore(NatToString(k) + "/" + NatToString(d)) == RoundedPercent(k, d)
  {
    FirstFractionOfDigits(NatToString(k), NatToString(d));
    NatToStringRoundTrip(k);
    NatToStringRoundTrip(d);
  }

  /** "k/10" with `k` at most ten reads as `10·k` percent. */
  lemma ScoreOutOfTen(k: nat)
    requires k <= 10
    ensures ParseScore(NatToString(k) + "/10") == Finite(10 * k)
  {
    assert NatToString(10) == "10";
    assert NatToString(k) + "/" + NatToString(10) == NatToString(k) + "/10";
    FractionScore(k, 10);
    RoundDivBounds(100 * k, 10, 10 * k, 10 * k);
  }

  /** The evaluation the application falls back on scores 70. */
  lemma MockEvaluationScore()
    ensures ParseScore(Gemini.MockEvaluation.score) == Finite(70)
  {
    assert NatToString(7) == "7";
    assert Gemini.MockEvaluation.score == NatToString(7) + "/10";
    ScoreOutOfTen(7);
  }

  /** A bare number of points reads as that many tenths. */
  lemma BareScore(k: nat)
    ensures ParseScore(NatToString(k)) == Finite(10 * k)
  {
    NoFractionInDigits(NatToString(k));
    ParseIntOfNumber(k);
  }

  // ---------------------------------------------------------------- the session's score

  /** `+` on scores. */
  function Add(a: Number, b: Number): (r: Number)
    ensures a.Finite? && b.Finite? <==> r.Finite?
    ensures r.Finite? ==> r.n == a.n + b.n
    ensures r == NaN <==> a == NaN || b == NaN
  {
    if a == NaN || b == NaN then NaN
    else if a == Infinity || b == Infinity then Infinity
    else Finite(a.n + b.n)
  }

  /** The score strings of the answers that have feedback, in order. */
  function FeedbackScores(answers: seq<Learning.AnswerRecord>): (r: seq<string>)
    ensures |r| <= |answers|
  {
    if answers == [] then []
    else
      var last := answers[|answers| - 1];
      FeedbackScores(answers[..|answers| - 1]) + (if last.feedback.Some? then [last.feedback.value.score] else [])
  }

  /** The sum of the scores read from `scores`. */
  function Total(scores: seq<string>, read: string -> Number): Number
  {
    if scores == [] then Finite(0) else Add(Total(scores[..|scores| - 1], read), read(scores[|scores| - 1]))
  }

  /** `Math.round(total / count)`, the mean of `count` scores. */
  function Mean(total: Number, count: nat): (r: Number)
    requires count > 0
    ensures r.Finite? <==> total.Finite?
    ensures total.Finite? ==> (2 * count) * r.n - count <= 2 * total.n < (2 * count) * r.n + count
  {
    match total
    case Finite(t) => Finite(RoundDiv(t, count))
    case other => other
  }

  /** `calculateTotalScore`: the rounded mean of the feedback scores, 0 when
      no answer has feedback. `answers` are the answers map's values in
      insertion order. */
  function TotalScore(answers: seq<Learning.AnswerRecord>, read: string -> Number): Number
  {
    var scores := FeedbackScores(answers);
    if |scores| == 0 then Finite(0) else Mean(Total(scores, read), |scores|)
  }

  /** A positive multiple of a nonzero integer is at least the factor away from 0. */
  lemma ProductSign(c: int, x: int)
    requires c > 0
    ensures x >= 1 ==> c * x >= c
    ensures x <= -1 ==> c * x <= -c
  {
  }

  /** A rounded quotient lies between the bounds the quotient lies between. */
  lemma RoundDivBounds(a: int, b: int, lo: int, hi: int)
    requires b > 0 && lo * b <= a <= hi * b
    ensures lo <= RoundDiv(a, b) <= hi
  {
    var r := RoundDiv(a, b);
    assert (2 * b) * (r - hi) == (2 * b) * r - 2 * (hi * b);
    assert (2 * b) * (r - lo) == (2 * b) * r - 2 * (lo * b);
    ProductSign(2 * b, r - hi);
    ProductSign(2 * b, r - lo);
  }

  predicate Percentages(scores: seq<string>, read: string -> Number)
  {
    forall i :: 0 <= i < |scores| ==> read(scores[i]).Finite? && 0 <= read(scores[i]).n <= 100
  }

  lemma {:induction false} TotalOfPercentages(scores: seq<string>, read: string -> Number)
    requires Percentages(scores, read)
    ensures Total(scores, read).Finite? && 0 <= Total(scores, read).n <= 100 * |scores|
  {
    if scores != [] {
      TotalOfPercentages(scores[..|scores| - 1], read);
    }
  }

  /** When every feedback score reads as a percentage, so does the
      session's: the mean lies between 0 and 100. */
  lemma TotalScoreIsPercentage(answers: seq<Learning.AnswerRecord>, read: string -> Number)
    requires Percentages(FeedbackScores(answers), read)
    ensures TotalScore(answers, read).Finite? && 0 <= TotalScore(answers, read).n <= 100
  {
    var scores := FeedbackScores(answers);
    TotalOfPercentages(scores, read);
    if |scores| > 0 {
      RoundDivBounds(Total(scores, read).n, |scores|, 0, 100);
    }
  }

  /** With no feedback yet, the score is 0. */
  lemma NoFeedbackScoresZero(answers: seq<Learning.AnswerRecord>, read: string -> Number)
    requires forall i :: 0 <= i < |answers| ==> answers[i].feedback.None?
    ensures TotalScore(answers, read) == Finite(0)
  {
    NoFeedbackNoScores(answers);
  }

  lemma {:induction false} NoFeedbackNoScores(answers: seq<Learning.AnswerRecord>)
    requires forall i :: 0 <= i < |answers| ==> answers[i].feedback.None?
    ensures FeedbackScores(answers) == []
  {
    if answers != [] {
      NoFeedbackNoScores(answers[..|answers| - 1]);
    }
  }

  /** One score of `"k/10"` averages to `10·k`. */
  lemma SingleAnswerScore(answer: Learning.AnswerRecord, k: nat)
    requires k <= 10 && answer.feedback.Some? && answer.feedback.value.score == NatToString(k) + "/10"
    ensures TotalScore([answer], ParseScore) == Finite(10 * k)
  {
    ScoreOutOfTen(k);
    assert [answer][..0] == [];
    var scores := FeedbackScores([answer]);
    assert scores == [answer.feedback.value.score];
    assert scores[..0] == [];
    assert Total(scores, ParseScore) == Finite(10 * k);
  }

  /** The `forEach` of `calculateTotalScore`: adds up the scores of the
      answers with feedback and counts them. */
  method SumFeedback(answers: seq<Learning.AnswerRecord>, read: string -> Number) returns (total: Number, count: nat)
    ensures total == Total(FeedbackScores(answers), read) && count == |FeedbackScores(answers)|
  {
    total := Finite(0);
    count := 0;
    var i := 0;
    while i < |answers|
      invariant 0 <= i <= |answers|
      invariant total == Total(FeedbackScores(answers[..i]), read)
      invariant count == |FeedbackScores(answers[..i])|
    {
      var answer := answers[i];
      var before := FeedbackScores(answers[..i]);
      assert answers[..i + 1][..i] == answers[..i];
      if answer.feedback.Some? {
        var after := before + [answer.feedback.value.score];
        assert FeedbackScores(answers[..i + 1]) == after;
        assert after[..|after| - 1] == before;
        total := Add(total, read(answer.feedback.value.score));
        count := count + 1;
      } else {
        assert FeedbackScores(answers[..i + 1]) == before;
      }
      i := i + 1;
    }
    assert answers[..i] == answers;
  }

  /** `calculateTotalScore` */
  method CalculateTotalScore(answers: seq<Learning.AnswerRecord>) returns (score: Number)
    ensures score == TotalScore(answers, ParseScore)
  {
    var total, count := SumFeedback(answers, ParseScore);
    if count > 0 {
      score := Mean(total, count);
    } else {
      score := Finite(0);
    }
  }

  // ---------------------------------------------------------------- colour bands

  datatype Band = Green | Yellow | Red

  /** The thresholds: 70 and above green, 40 and above yellow, red below;
      comparisons with `NaN` are false, so it is red. */
  function ScoreBand(score: Number): (b: Band)
    ensures b == Green <==> score == Infinity || (score.Finite? && score.n >= 70)
    ensures b == Yellow <==> score.Finite? && 40 <= score.n < 70
    ensures b == Red <==> score == NaN || (score.Finite? && score.n < 40)
  {
    match score
    case Finite(n) => if n >= 70 then Green else if n >= 40 then Yellow else Red
    case Infinity => Green
    case NaN => Red
  }

  function ColorClass(b: Band): string
  {
    match b
    case Green => "bg-green-500/10 text-green-500"
    case Yellow => "bg-yellow-500/10 text-yellow-500"
    case Red => "bg-red-500/10 text-red-500"
  }

  function BorderClass(b: Band): string
  {
    match b
    case Green => "bg-green-500/10 border border-green-500/20"
    case Yellow => "bg-yellow-500/10 border border-yellow-500/20"
    case Red => "bg-red-500/10 border border-red-500/20"
  }

  /** `getScoreColor` */
  function ScoreColor(score: string): string
  {
    ColorClass(ScoreBand(ParseScore(score)))
  }

  /** `getScoreBorderColor` */
  function ScoreBorderColor(score: string): string
  {
    BorderClass(ScoreBand(ParseScore(score)))
  }

  /** Both colourings pick the same band: each determines the other. */
  lemma ColorsAgree(a: string, b: string)
    ensures ScoreColor(a) == ScoreColor(b) <==> ScoreBorderColor(a) == ScoreBorderColor(b)
  {
  }

  /** A higher finite score never lands in a worse band. */
  lemma BandMonotone(x: int, y: int)
    requires x <= y
    ensures ScoreBand(Finite(x)) == Green ==> ScoreBand(Finite(y)) == Green
    ensures ScoreBand(Finite(x)) == Yellow ==> ScoreBand(Finite(y)) != Red
  {
  }

  // ---------------------------------------------------------------- the page's handlers

  /** `questions[currentQuestionIndex]`, undefined outside the list. */
  function CurrentQuestion(state: Learning.State): (q: Option<Gemini.Question>)
    ensures q.Some? <==> 0 <= state.currentQuestionIndex < |state.questions|
    ensures q.Some? ==> q.value in state.questions
  {
    if 0 <= state.currentQuestionIndex < |state.questions| then Some(state.questions[state.currentQuestionIndex])
    else None
  }

  class QuizPage {
    var currentAnswer: string
    var isSubmitting: bool
    const session: Learning.LearningSession

    constructor(s: Learning.LearningSession)
      ensures session == s && currentAnswer == "" && !isSubmitting
    {
      session := s;
      currentAnswer := "";
      isSubmitting := false;
    }

    /** `handleNextQuestion`: clears the typed answer, then completes the
        session on the last question and advances otherwise. */
    method NextQuestion()
      modifies this, session
      ensures currentAnswer == "" && isSubmitting == old(isSubmitting)
      ensures old(session.state.currentQuestionIndex) == |old(session.state.questions)| - 1 ==>
        session.state == old(session.state).(isSessionComplete := true)
      ensures old(session.state.currentQuestionIndex) != |old(session.state.questions)| - 1 ==>
        session.state == old(session.state).(currentQuestionIndex :=
          Learning.NextIndex(old(session.state.currentQuestionIndex), |old(session.state.questions)|))
    {
      currentAnswer := "";
      if session.state.currentQuestionIndex == |session.state.questions| - 1 {
        session.CompleteSession();
      } else {
        session.GoToNextQuestion();
      }
    }

    /** `handleSubmitAnswer`, with the evaluation's outcome given: nothing
        happens without a current question or with a blank answer;
        otherwise the answer is submitted and the page is no longer
        submitting when the evaluation is back. */
    method SubmitAnswer(evaluation: Result<Gemini.Evaluation, Exception>)
      modifies this, session
      ensures currentAnswer == old(currentAnswer)
      ensures CurrentQuestion(old(session.state)).None? || Trim(currentAnswer) == "" ==>
        session.state == old(session.state) && isSubmitting == old(isSubmitting)
      ensures CurrentQuestion(old(session.state)).Some? && Trim(currentAnswer) != "" ==> !isSubmitting
      ensures (CurrentQuestion(old(session.state)).Some? && Trim(currentAnswer) != ""
        && Learning.Truthy(old(session.state.documentSummary))) ==>
        var id := CurrentQuestion(old(session.state)).value.id;
        session.state == old(session.state).(answers := old(session.state.answers)[id :=
          Learning.AnswerRecord(id, currentAnswer, if evaluation.Ok? then Some(evaluation.value) else None, false)])
      ensures !Learning.Truthy(old(session.state.documentSummary)) ==> session.state == old(session.state)
    {
      var question := CurrentQuestion(session.state);
      if question.None? || Trim(currentAnswer) == "" {
        return;
      }
      isSubmitting := true;
      var id := question.value.id;
      var asked := session.BeginAnswer(id, currentAnswer);
      if asked.Some? {
        session.EndAnswer(id, currentAnswer, evaluation);
      }
      isSubmitting := false;
    }
  }
}
