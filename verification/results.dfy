/** The mobile app's results screen (`mobile/screens/ResultsScreen.tsx`):
    the session statistics computed from the evaluated answers, the
    performance label, the per-question review and the redirect away from
    an unfinished session. Averages and percentages are exact reals. */
module Results {
  import opened Wrappers
  import opened Strings
  import Gemini
  import Learning

  /** `s.match(/(\d+)/)` read with `parseInt(…, 10)`: the value of the first
      run of digits. */
  function FirstNumber(s: string): (r: Option<nat>)
    ensures r.None? <==> forall i :: 0 <= i < |s| ==> !IsDigit(s[i])
  {
    if s == [] then None
    else if IsDigit(s[0]) then Some(DigitsValue(LeadingDigits(s)))
    else FirstNumber(s[1..])
  }

  /** Text without digits before the number is skipped. */
  lemma {:induction false} FirstNumberSkips(prefix: string, s: string)
    requires forall i :: 0 <= i < |prefix| ==> !IsDigit(prefix[i])
    ensures FirstNumber(prefix + s) == FirstNumber(s)
  {
    if prefix != [] {
      assert (prefix + s)[1..] == prefix[1..] + s;
      FirstNumberSkips(prefix[1..], s);
    } else {
      assert prefix + s == s;
    }
  }

  /** A printed number followed by a non-digit reads back as that number. */
  lemma FirstNumberOf(k: nat, rest: string)
    requires rest == [] || !IsDigit(rest[0])
    ensures FirstNumber(NatToString(k) + rest) == Some(k)
  {
    var n := NatToString(k);
    LeadingDigitsOfDigits(n, rest);
    NatToStringRoundTrip(k);
  }

  /** The points an answer earned, if it was evaluated and its score holds
      a number. */
  function Points(answer: Learning.AnswerRecord): Option<nat>
  {
    if answer.feedback.Some? then FirstNumber(answer.feedback.value.score) else None
  }

  /** The points of the counted answers, in order. */
  function Counted(answers: seq<Learning.AnswerRecord>): (r: seq<nat>)
    ensures |r| <= |answers|
  {
    if answers == [] then []
    else
      var p := Points(answers[|answers| - 1]);
      Counted(answers[..|answers| - 1]) + (if p.Some? then [p.value] else [])
  }

  function Sum(xs: seq<nat>): nat
  {
    if xs == [] then 0 else Sum(xs[..|xs| - 1]) + xs[|xs| - 1]
  }

  datatype Stats = Stats(totalScore: nat, answeredCount: nat, averageScore: real, maxPossible: nat, percentage: real)

  /** The figures derived from the points total and the number of counted
      answers, each of which counts out of ten. */
  function MakeStats(total: nat, count: nat): (st: Stats)
    ensures st.totalScore == total && st.answeredCount == count && st.maxPossible == 10 * count
    ensures count == 0 ==> st.averageScore == 0.0 && st.percentage == 0.0
    ensures count > 0 ==> st.averageScore * count as real == total as real
    ensures count > 0 ==> st.percentage * st.maxPossible as real == 100.0 * total as real
  {
    var maxPossible := count * 10;
    Stats(total, count, if count > 0 then total as real / count as real else 0.0, maxPossible,
          if maxPossible > 0 then (total as real / maxPossible as real) * 100.0 else 0.0)
  }

  /** The `stats` memo. */
  function StatsOf(answers: seq<Learning.AnswerRecord>): (st: Stats)
    ensures st.totalScore == Sum(Counted(answers)) && st.answeredCount == |Counted(answers)|
  {
    MakeStats(Sum(Counted(answers)), |Counted(answers)|)
  }

  /** Equal products with the same positive factor have equal cofactors. */
  lemma CancelPositive(x: real, y: real, m: real)
    requires m > 0.0 && x * m == y * m
    ensures x == y
  {
    assert (x - y) * m == 0.0;
  }

  /** The percentage is ten times the average. */
  lemma PercentageIsTenfoldAverage(total: nat, count: nat)
    ensures MakeStats(total, count).percentage == 10.0 * MakeStats(total, count).averageScore
  {
    var st := MakeStats(total, count);
    if count > 0 {
      var c, t := count as real, total as real;
      var a, p := st.averageScore, st.percentage;
      var m := 10.0 * c;
      assert st.maxPossible as real == m;
      assert p * m == 100.0 * t;
      assert a * c == t;
      assert (10.0 * a) * m == 100.0 * (a * c);
      CancelPositive(p, 10.0 * a, m);
    }
  }

  predicate OutOfTen(xs: seq<nat>)
  {
    forall i :: 0 <= i < |xs| ==> xs[i] <= 10
  }

  lemma {:induction false} SumOutOfTen(xs: seq<nat>)
    requires OutOfTen(xs)
    ensures Sum(xs) <= 10 * |xs|
  {
    if xs != [] {
      SumOutOfTen(xs[..|xs| - 1]);
    }
  }

  /** When every counted score is at most ten, the percentage is at most 100. */
  lemma PercentageAtMostHundred(answers: seq<Learning.AnswerRecord>)
    requires OutOfTen(Counted(answers))
    ensures 0.0 <= StatsOf(answers).percentage <= 100.0
  {
    SumOutOfTen(Counted(answers));
    PercentageBounds(Sum(Counted(answers)), |Counted(answers)|);
  }

  lemma PercentageBounds(total: nat, count: nat)
    requires total <= 10 * count
    ensures 0.0 <= MakeStats(total, count).percentage <= 100.0
  {
    if count > 0 {
      var m := (10 * count) as real;
      var p := MakeStats(total, count).percentage;
      assert p * m == 100.0 * total as real;
      assert (p - 100.0) * m <= 0.0;
    }
  }

  /** The `forEach` of the `stats` memo. */
  method ComputeStats(answers: seq<Learning.AnswerRecord>) returns (st: Stats)
    ensures st == StatsOf(answers)
  {
    var totalScore := 0;
    var answeredCount := 0;
    var i := 0;
    while i < |answers|
      invariant 0 <= i <= |answers|
      invariant totalScore == Sum(Counted(answers[..i])) && answeredCount == |Counted(answers[..i])|
    {
      var before := Counted(answers[..i]);
      assert answers[..i + 1][..i] == answers[..i];
      var answer := answers[i];
      if answer.feedback.Some? {
        var scoreMatch := FirstNumber(answer.feedback.value.score);
        if scoreMatch.Some? {
          var after := before + [scoreMatch.value];
          assert Counted(answers[..i + 1]) == after;
          assert after[..|after| - 1] == before;
          totalScore := totalScore + scoreMatch.value;
          answeredCount := answeredCount + 1;
        } else {
          assert Counted(answers[..i + 1]) == before;
        }
      } else {
        assert Counted(answers[..i + 1]) == before;
      }
      i := i + 1;
    }
    assert answers[..i] == answers;
    st := MakeStats(totalScore, answeredCount);
  }

  datatype Performance = Performance(level: string, color: string, bgColor: string)

  /** `getPerformanceLevel` */
  function PerformanceLevel(percentage: real): (p: Performance)
    ensures p.level == "Excellent!" <==> percentage >= 80.0
    ensures p.level == "Good Job!" <==> 60.0 <= percentage < 80.0
    ensures p.level == "Keep Practicing" <==> 40.0 <= percentage < 60.0
    ensures p.level == "Needs Improvement" <==> percentage < 40.0
  {
    if percentage >= 80.0 then Performance("Excellent!", "#22c55e", "rgba(34, 197, 94, 0.1)")
    else if percentage >= 60.0 then Performance("Good Job!", "#3b82f6", "rgba(59, 130, 246, 0.1)")
    else if percentage >= 40.0 then Performance("Keep Practicing", "#eab308", "rgba(234, 179, 8, 0.1)")
    else Performance("Needs Improvement", "#ef4444", "rgba(239, 68, 68, 0.1)")
  }

  /** The review's score of one question: the first number of its feedback,
      0 when it has no answer, no feedback or no number. */
  function ReviewScore(answer: Option<Learning.AnswerRecord>): (k: nat)
    ensures answer.None? || answer.value.feedback.None? ==> k == 0
    ensures answer.Some? && Points(answer.value).Some? ==> k == Points(answer.value).value
  {
    if answer.Some? && answer.value.feedback.Some? then
      match FirstNumber(answer.value.feedback.value.score)
      case Some(k) => k
      case None => 0
    else 0
  }

  /** The review's check mark: seven points or more. */
  predicate IsGood(answer: Option<Learning.AnswerRecord>)
  {
    ReviewScore(answer) >= 7
  }

  /** An unanswered or unevaluated question is never marked good. */
  lemma UnevaluatedIsNotGood(answer: Option<Learning.AnswerRecord>)
    requires answer.None? || answer.value.feedback.None?
    ensures !IsGood(answer)
  {
  }

  /** The evaluation the application falls back on ("7/10") is marked good. */
  lemma MockEvaluationIsGood(questionId: nat, text: string)
    ensures IsGood(Some(Learning.AnswerRecord(questionId, text, Some(Gemini.MockEvaluation), false)))
  {
    assert NatToString(7) == "7";
    assert Gemini.MockEvaluation.score == NatToString(7) + "/10";
    FirstNumberOf(7, "/10");
  }

  function Lookup(answers: map<nat, Learning.AnswerRecord>, id: nat): Option<Learning.AnswerRecord>
  {
    if id in answers then Some(answers[id]) else None
  }

  datatype Screen = Screen(stats: Stats, performance: Performance, review: seq<bool>)

  /** `answers` lists the values of the answers map `m`, each once: every
      record sits under its own question id. */
  predicate ListsValues(answers: seq<Learning.AnswerRecord>, m: map<nat, Learning.AnswerRecord>)
  {
    && |answers| == |m|
    && (forall i :: 0 <= i < |answers| ==> answers[i].questionId in m && m[answers[i].questionId] == answers[i])
    && (forall i, j :: 0 <= i < j < |answers| ==> answers[i].questionId != answers[j].questionId)
  }

  /** What the screen shows for a session state; `None` when it navigates
      Home instead. `answers` are the answers map's values in insertion
      order. */
  function Show(state: Learning.State, answers: seq<Learning.AnswerRecord>): (v: Option<Screen>)
    requires ListsValues(answers, state.answers)
    ensures v.None? <==> !state.isSessionComplete || |state.questions| == 0
    ensures v.Some? ==> v.value.stats == StatsOf(answers) && v.value.performance == PerformanceLevel(v.value.stats.percentage)
    ensures v.Some? ==> v.value.stats.answeredCount <= |state.answers|
    ensures v.Some? ==> |v.value.review| == |state.questions|
    ensures v.Some? ==> forall i :: 0 <= i < |state.questions| ==>
      v.value.review[i] == IsGood(Lookup(state.answers, state.questions[i].id))
  {
    if !state.isSessionComplete || |state.questions| == 0 then None
    else
      var stats := StatsOf(answers);
      Some(Screen(stats, PerformanceLevel(stats.percentage),
        seq(|state.questions|, i requires 0 <= i < |state.questions| => IsGood(Lookup(state.answers, state.questions[i].id)))))
  }
}
