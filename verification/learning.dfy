/** The learning session of the mobile app (`LearningProvider` in
    `mobile/context/LearningContext.tsx`): the uploaded document, the
    generated questions, summary and tutorial with their loading flags and
    errors, the answers given so far and the current question. Each
    asynchronous action is split at its `await` into a `Begin…` method (the
    guard and the first state update, returning what is sent to the server)
    and an `End…` method that applies the server's reply; the reply arrives
    as a `Result`. */
module Learning {
  import opened Wrappers
  import Gemini

  datatype QuestionsReply = QuestionsReply(questions: seq<Gemini.Question>, summary: string)

  /** One entry of the answers map. */
  datatype AnswerRecord = AnswerRecord(questionId: nat, answer: string, feedback: Option<Gemini.Evaluation>, isEvaluating: bool)

  /** The state record (`LearningState`). */
  datatype State = State(
    documentContent: Option<string>,
    documentSummary: Option<string>,
    questions: seq<Gemini.Question>,
    isLoadingQuestions: bool,
    questionsError: Option<string>,
    answers: map<nat, AnswerRecord>,
    currentQuestionIndex: int,
    tutorial: Option<Gemini.Tutorial>,
    isLoadingTutorial: bool,
    tutorialError: Option<string>,
    summary: Option<Gemini.Summary>,
    isLoadingSummary: bool,
    summaryError: Option<string>,
    isSessionComplete: bool)

  const InitialState := State(None, None, [], false, None, map[], 0, None, false, None, None, false, None, false)

  const NoDocument := "No document uploaded"
  const QuestionsFailed := "Failed to generate questions"
  const TutorialFailed := "Failed to generate tutorial"
  const SummaryFailed := "Failed to generate summary"

  /** A string field is truthy when it is set and not empty. */
  predicate Truthy(s: Option<string>)
  {
    s.Some? && s.value != ""
  }

  /** `Math.min(i + 1, count - 1)` */
  function NextIndex(i: int, count: nat): (r: int)
    ensures r <= i + 1 && r <= count - 1
    ensures r == i + 1 || r == count - 1
    ensures 0 <= i < count ==> i <= r < count
  {
    if i + 1 < count - 1 then i + 1 else count - 1
  }

  /** `Math.max(i - 1, 0)` */
  function PreviousIndex(i: int): (r: int)
    ensures r >= 0 && r >= i - 1
    ensures r == i - 1 || r == 0
    ensures 0 <= i ==> 0 <= r <= i
  {
    if i - 1 > 0 then i - 1 else 0
  }

  /** With no questions, moving forward from the first index leaves the
      range: the index becomes -1. */
  lemma NextIndexWithoutQuestions()
    ensures NextIndex(0, 0) == -1
  {
  }

  /** `questions.find(q => q.id === id)`: the first question with that id. */
  function FindQuestion(questions: seq<Gemini.Question>, id: nat): (r: Option<Gemini.Question>)
    ensures r.None? <==> forall i :: 0 <= i < |questions| ==> questions[i].id != id
    ensures r.Some? ==> r.value in questions && r.value.id == id
  {
    if questions == [] then None
    else if questions[0].id == id then Some(questions[0])
    else FindQuestion(questions[1..], id)
  }

  /** The question found is the one at the first position holding its id. */
  lemma {:induction false} FindQuestionFirst(questions: seq<Gemini.Question>, id: nat, i: nat)
    requires i < |questions| && questions[i].id == id
    requires forall j :: 0 <= j < i ==> questions[j].id != id
    ensures FindQuestion(questions, id) == Some(questions[i])
  {
    if i > 0 {
      FindQuestionFirst(questions[1..], id, i - 1);
    }
  }

  /** The provider's one piece of React state; every action replaces it
      with an updated copy. */
  class LearningSession {
    var state: State

    constructor()
      ensures state == InitialState
    {
      state := InitialState;
    }

    /** `setDocument`: a new document starts a new quiz; the summary and
        tutorial screens keep what they had. */
    method SetDocument(content: string)
      modifies this
      ensures state == old(state).(documentContent := Some(content), documentSummary := None,
        questions := [], questionsError := None, answers := map[], currentQuestionIndex := 0,
        isSessionComplete := false)
    {
      state := state.(documentContent := Some(content), documentSummary := None,
        questions := [], questionsError := None, answers := map[], currentQuestionIndex := 0,
        isSessionComplete := false);
    }

    /** `clearDocument` */
    method ClearDocument()
      modifies this
      ensures state == InitialState
    {
      state := InitialState;
    }

    /** `resetSession` */
    method ResetSession()
      modifies this
      ensures state == InitialState
    {
      state := InitialState;
    }

    /** `completeSession` */
    method CompleteSession()
      modifies this
      ensures state == old(state).(isSessionComplete := true)
    {
      state := state.(isSessionComplete := true);
    }

    /** `goToNextQuestion` */
    method GoToNextQuestion()
      modifies this
      ensures state == old(state).(currentQuestionIndex := NextIndex(old(state).currentQuestionIndex, |old(state).questions|))
    {
      state := state.(currentQuestionIndex := NextIndex(state.currentQuestionIndex, |state.questions|));
    }

    /** `goToPreviousQuestion` */
    method GoToPreviousQuestion()
      modifies this
      ensures state == old(state).(currentQuestionIndex := PreviousIndex(old(state).currentQuestionIndex))
    {
      state := state.(currentQuestionIndex := PreviousIndex(state.currentQuestionIndex));
    }

    /** `generateQuestions` up to its request: without a document only the
        error is set and nothing is sent; otherwise loading starts. */
    method BeginGenerateQuestions() returns (request: Option<string>)
      modifies this
      ensures request.Some? <==> Truthy(old(state).documentContent)
      ensures request.Some? ==> request == old(state).documentContent
      ensures request.Some? ==> state == old(state).(isLoadingQuestions := true, questionsError := None)
      ensures request.None? ==> state == old(state).(questionsError := Some(NoDocument))
    {
      if !Truthy(state.documentContent) {
        state := state.(questionsError := Some(NoDocument));
        return None;
      }
      state := state.(isLoadingQuestions := true, questionsError := None);
      return state.documentContent;
    }

    /** `generateQuestions` after its request: stores the questions and the
        document summary, or the error message. */
    method EndGenerateQuestions(reply: Result<QuestionsReply, Exception>)
      modifies this
      ensures reply.Ok? ==> state == old(state).(questions := reply.value.questions,
        documentSummary := Some(reply.value.summary), isLoadingQuestions := false)
      ensures reply.Err? ==> state == old(state).(isLoadingQuestions := false,
        questionsError := Some(MessageOr(reply.error, QuestionsFailed)))
    {
      match reply
      case Ok(data) =>
        state := state.(questions := data.questions, documentSummary := Some(data.summary), isLoadingQuestions := false);
      case Err(e) =>
        state := state.(isLoadingQuestions := false, questionsError := Some(MessageOr(e, QuestionsFailed)));
    }

    /** `generateTutorial` up to its request. */
    method BeginGenerateTutorial() returns (request: Option<string>)
      modifies this
      ensures request.Some? <==> Truthy(old(state).documentContent)
      ensures request.Some? ==> request == old(state).documentContent
      ensures request.Some? ==> state == old(state).(isLoadingTutorial := true, tutorialError := None)
      ensures request.None? ==> state == old(state).(tutorialError := Some(NoDocument))
    {
      if !Truthy(state.documentContent) {
        state := state.(tutorialError := Some(NoDocument));
        return None;
      }
      state := state.(isLoadingTutorial := true, tutorialError := None);
      return state.documentContent;
    }

    /** `generateTutorial` after its request. */
    method EndGenerateTutorial(reply: Result<Gemini.Tutorial, Exception>)
      modifies this
      ensures reply.Ok? ==> state == old(state).(tutorial := Some(reply.value), isLoadingTutorial := false)
      ensures reply.Err? ==> state == old(state).(isLoadingTutorial := false,
        tutorialError := Some(MessageOr(reply.error, TutorialFailed)))
    {
      match reply
      case Ok(t) =>
        state := state.(tutorial := Some(t), isLoadingTutorial := false);
      case Err(e) =>
        state := state.(isLoadingTutorial := false, tutorialError := Some(MessageOr(e, TutorialFailed)));
    }

    /** `generateSummary` up to its request. */
    method BeginGenerateSummary() returns (request: Option<string>)
      modifies this
      ensures request.Some? <==> Truthy(old(state).documentContent)
      ensures request.Some? ==> request == old(state).documentContent
      ensures request.Some? ==> state == old(state).(isLoadingSummary := true, summaryError := None)
      ensures request.None? ==> state == old(state).(summaryError := Some(NoDocument))
    {
      if !Truthy(state.documentContent) {
        state := state.(summaryError := Some(NoDocument));
        return None;
      }
      state := state.(isLoadingSummary := true, summaryError := None);
      return state.documentContent;
    }

    /** `generateSummary` after its request. */
    method EndGenerateSummary(reply: Result<Gemini.Summary, Exception>)
      modifies this
      ensures reply.Ok? ==> state == old(state).(summary := Some(reply.value), isLoadingSummary := false)
      ensures reply.Err? ==> state == old(state).(isLoadingSummary := false,
        summaryError := Some(MessageOr(reply.error, SummaryFailed)))
    {
      match reply
      case Ok(s) =>
        state := state.(summary := Some(s), isLoadingSummary := false);
      case Err(e) =>
        state := state.(isLoadingSummary := false, summaryError := Some(MessageOr(e, SummaryFailed)));
    }

    /** `submitAnswer` up to its request: without a document summary or for
        an unknown question nothing happens; otherwise the answer is recorded
        as being evaluated and the question is returned for evaluation. */
    method BeginAnswer(questionId: nat, answer: string) returns (question: Option<Gemini.Question>)
      modifies this
      ensures question.Some? <==> Truthy(old(state).documentSummary) && FindQuestion(old(state).questions, questionId).Some?
      ensures question.None? ==> state == old(state)
      ensures question.Some? ==> question == FindQuestion(old(state).questions, questionId)
      ensures question.Some? ==> state == old(state).(answers := old(state).answers[questionId := AnswerRecord(questionId, answer, None, true)])
    {
      if !Truthy(state.documentSummary) {
        return None;
      }
      question := FindQuestion(state.questions, questionId);
      if question.None? {
        return None;
      }
      state := state.(answers := state.answers[questionId := AnswerRecord(questionId, answer, None, true)]);
    }

    /** `submitAnswer` after its request: the answer gets its feedback, or
        keeps none when the evaluation failed; either way it is no longer
        being evaluated, and no other answer changes. */
    method EndAnswer(questionId: nat, answer: string, evaluation: Result<Gemini.Evaluation, Exception>)
      modifies this
      ensures state == old(state).(answers := old(state).answers[questionId :=
        AnswerRecord(questionId, answer, if evaluation.Ok? then Some(evaluation.value) else None, false)])
    {
      var feedback := if evaluation.Ok? then Some(evaluation.value) else None;
      state := state.(answers := state.answers[questionId := AnswerRecord(questionId, answer, feedback, false)]);
    }
  }
}
