/** What the chat screen derives from the session state on every render:
    the current question and the progress numbers taken from the transcript,
    the answer and correctness counters, and which of the step-specific
    sections is shown. */
module ChatInterface {
  import opened AuthTypes
  import Api
  import Session
  import SessionProperties
  import Transcript
  import ChatInput
  import Text

  // ---------------------------------------------------------------- derived values

  /** `m.type === 'bot' && m.metadata?.questionNumber`: a question whose
      number is truthy (so question number 0 does not count). */
  predicate IsQuestion(m: Message) {
    m.sender == Bot && m.metadata.Some? && TruthyNumber(m.metadata.value.questionNumber)
  }

  /** `m.type === 'user' && m.content.length > 0`. */
  predicate IsAnswer(m: Message) {
    m.sender == User && |m.content| > 0
  }

  /** `m.type === 'bot' && m.metadata?.isCorrect === true`. */
  predicate IsCorrectFeedback(m: Message) {
    m.sender == Bot && m.metadata.Some? && m.metadata.value.isCorrect == Some(true)
  }

  /** `x || 0` for an optional number. */
  function NumberOrZero(o: Option<int>): int {
    if TruthyNumber(o) then o.value else 0
  }

  /** `currentQuestion`: the last element of the filtered list (`pop()`). */
  function CurrentQuestion(ms: seq<Message>): Option<Message> {
    var qs := Transcript.Filter(ms, IsQuestion);
    if qs == [] then None else Some(qs[|qs| - 1])
  }

  /** `questionProgress`: the current question's number, or 0. */
  function QuestionProgress(ms: seq<Message>): int {
    match CurrentQuestion(ms)
    case None => 0
    case Some(m) => if m.metadata.None? then 0 else NumberOrZero(m.metadata.value.questionNumber)
  }

  /** `totalQuestions`: the current question's total, or 0. */
  function TotalQuestions(ms: seq<Message>): int {
    match CurrentQuestion(ms)
    case None => 0
    case Some(m) => if m.metadata.None? then 0 else NumberOrZero(m.metadata.value.totalQuestions)
  }

  function QuestionsAsked(ms: seq<Message>): nat {
    |Transcript.Filter(ms, IsAnswer)|
  }

  function QuestionsCorrect(ms: seq<Message>): nat {
    |Transcript.Filter(ms, IsCorrectFeedback)|
  }

  /** The current question is the last message of the transcript that is a
      question; there is one exactly when some message is a question. */
  lemma {:induction false} CurrentQuestionIsLast(ms: seq<Message>)
    ensures CurrentQuestion(ms).Some? <==> exists i :: 0 <= i < |ms| && IsQuestion(ms[i])
    ensures CurrentQuestion(ms).Some? ==>
      exists i :: 0 <= i < |ms| && ms[i] == CurrentQuestion(ms).value && IsQuestion(ms[i])
        && forall j :: i < j < |ms| ==> !IsQuestion(ms[j])
  {
    Transcript.FilterEmptyIff(ms, IsQuestion);
    if ms != [] {
      var init := ms[..|ms| - 1];
      var last := |ms| - 1;
      assert ms == init + [ms[last]];
      Transcript.FilterSnoc(init, ms[last], IsQuestion);
      if !IsQuestion(ms[last]) {
        CurrentQuestionIsLast(init);
        assert CurrentQuestion(ms) == CurrentQuestion(init);
        if CurrentQuestion(init).Some? {
          var i :| 0 <= i < |init| && init[i] == CurrentQuestion(init).value && IsQuestion(init[i])
            && forall j :: i < j < |init| ==> !IsQuestion(init[j]);
          assert ms[i] == init[i];
          forall j | i < j < |ms| ensures !IsQuestion(ms[j]) {
            if j < last {
              assert ms[j] == init[j];
            }
          }
        }
      }
    }
  }

  /** Progress and total are 0 when no question has been shown, and the
      progress is non-zero exactly when one has. */
  lemma NoQuestionNoProgress(ms: seq<Message>)
    ensures CurrentQuestion(ms).None? ==> QuestionProgress(ms) == 0 && TotalQuestions(ms) == 0
    ensures QuestionProgress(ms) != 0 <==> exists i :: 0 <= i < |ms| && IsQuestion(ms[i])
  {
    CurrentQuestionIsLast(ms);
  }

  /** The counters never exceed the number of messages. */
  lemma CountersBounded(ms: seq<Message>)
    ensures QuestionsAsked(ms) <= |ms| && QuestionsCorrect(ms) <= |ms|
  {
    Transcript.FilterLength(ms, IsAnswer);
    Transcript.FilterLength(ms, IsCorrectFeedback);
  }

  // ---------------------------------------------------------------- the counters under the commands

  /** A delivered question with a non-zero number becomes the current
      question, and the progress shows its number and total. */
  lemma DeliveredQuestionBecomesCurrent(s: Session.Session, sessionId: string,
                                        reply: Api.Reply<QuestionsResponse>)
    requires SessionProperties.Delivered(reply) && reply.data.question.value.questionNumber != 0
    ensures var q := reply.data.question.value;
      var ms := Session.GetNextQuestion(s, sessionId, reply).state.messages;
      && QuestionProgress(ms) == q.questionNumber
      && TotalQuestions(ms) == NumberOrZero(Some(q.totalQuestions))
  {
    var before := Transcript.RemoveTypingIndicator(s.state.messages);
    var m := SessionProperties.QuestionMessage(s.serial, reply);
    SessionProperties.GetNextQuestionEffect(s, sessionId, reply);
    Transcript.FilterSnoc(before, m, IsQuestion);
  }

  /** A question numbered 0 is shown but is not taken as the current one:
      the progress stays what it was. */
  lemma QuestionZeroSkipped(s: Session.Session, sessionId: string, reply: Api.Reply<QuestionsResponse>)
    requires Transcript.NoTypingIndicator(s.state.messages)
    requires SessionProperties.Delivered(reply) && reply.data.question.value.questionNumber == 0
    ensures var ms := Session.GetNextQuestion(s, sessionId, reply).state.messages;
      && CurrentQuestion(ms) == CurrentQuestion(s.state.messages)
      && QuestionProgress(ms) == QuestionProgress(s.state.messages)
  {
    var m := SessionProperties.QuestionMessage(s.serial, reply);
    SessionProperties.GetNextQuestionEffect(s, sessionId, reply);
    Transcript.RemoveWhenAbsent(s.state.messages);
    Transcript.FilterSnoc(s.state.messages, m, IsQuestion);
  }

  /** Every submission that passes the guard with a non-empty answer adds one
      to `questionsAsked`, whatever the server replies. */
  lemma SubmitCountsAnswer(s: Session.Session, answer: string, verify: Api.Reply<VerifyAnswerResponse>)
    requires Transcript.NoTypingIndicator(s.state.messages)
    requires Session.CanSubmit(s.state) && |answer| > 0
    ensures QuestionsAsked(Session.SubmitAnswer(s, answer, verify).state.messages) == QuestionsAsked(s.state.messages) + 1
  {
    var ms := Session.SubmitAnswer(s, answer, verify).state.messages;
    var user := Message(Generated(s.serial), User, answer, false, None);
    var bot: Message;
    if SessionProperties.VerifyFailure(verify).Some? {
      SessionProperties.SubmitAnswerFailureEffect(s, answer, verify);
      bot := Message(Generated(s.serial + 1), Bot, Session.VerifyErrorText(SessionProperties.VerifyFailure(verify).value), false, None);
    } else {
      SessionProperties.SubmitAnswerSuccessEffect(s, answer, verify);
      var v := verify.data.validation;
      bot := Message(Generated(s.serial + 1), Bot, Session.FeedbackText(v), false, Some(Session.FeedbackMetadata(v)));
    }
    assert ms == s.state.messages + [user, bot];
    Transcript.FilterAppend(s.state.messages, [user, bot], IsAnswer);
    Transcript.FilterPair(user, bot, IsAnswer);
  }

  /** `questionsCorrect` goes up by one exactly for an accepted answer the
      server graded correct. */
  lemma SubmitCountsCorrect(s: Session.Session, answer: string, verify: Api.Reply<VerifyAnswerResponse>)
    requires Transcript.NoTypingIndicator(s.state.messages)
    requires Session.CanSubmit(s.state)
    ensures QuestionsCorrect(Session.SubmitAnswer(s, answer, verify).state.messages)
         == QuestionsCorrect(s.state.messages)
            + (if SessionProperties.VerifyFailure(verify).None? && verify.data.validation.isCorrect then 1 else 0)
  {
    var ms := Session.SubmitAnswer(s, answer, verify).state.messages;
    var user := Message(Generated(s.serial), User, answer, false, None);
    var bot: Message;
    if SessionProperties.VerifyFailure(verify).Some? {
      SessionProperties.SubmitAnswerFailureEffect(s, answer, verify);
      bot := Message(Generated(s.serial + 1), Bot, Session.VerifyErrorText(SessionProperties.VerifyFailure(verify).value), false, None);
    } else {
      SessionProperties.SubmitAnswerSuccessEffect(s, answer, verify);
      var v := verify.data.validation;
      bot := Message(Generated(s.serial + 1), Bot, Session.FeedbackText(v), false, Some(Session.FeedbackMetadata(v)));
    }
    assert ms == s.state.messages + [user, bot];
    Transcript.FilterAppend(s.state.messages, [user, bot], IsCorrectFeedback);
    Transcript.FilterPair(user, bot, IsCorrectFeedback);
  }

  // ---------------------------------------------------------------- visibility

  /** The progress bar: in the `auth` step once a question has a total. */
  predicate ShowProgressBar(st: AuthState) {
    st.step == Auth && TotalQuestions(st.messages) > 0
  }

  predicate ShowUpload(st: AuthState) {
    st.step == Upload
  }

  /** The result view needs the score and a (truthy) status as well. */
  predicate ShowResult(st: AuthState) {
    st.step == Result && st.finalScore.Some? && st.authStatus.Some?
  }

  predicate ShowInput(st: AuthState) {
    st.step == Auth
  }

  predicate ShowError(st: AuthState) {
    Truthy(st.error)
  }

  /** The `disabled` property the screen passes to the input. */
  predicate InputDisabledProp(st: AuthState) {
    st.step != Auth
  }

  /** The status handed to the result view: anything but `success` is `failed`. */
  function ResultViewStatus(s: Status): Status {
    if s == Success then Success else Failed
  }

  /** The upload section, the result view and the input are mutually
      exclusive, and the progress bar only accompanies the input. */
  lemma SectionsExclusive(st: AuthState)
    ensures !(ShowUpload(st) && ShowResult(st)) && !(ShowUpload(st) && ShowInput(st))
    ensures !(ShowResult(st) && ShowInput(st))
    ensures ShowProgressBar(st) ==> ShowInput(st)
  {
  }

  const AnswerPlaceholder := "Type your answer here..."

  /** The properties the screen gives the answer box. */
  function InputProps(st: AuthState): ChatInput.Props {
    ChatInput.Props(st.isLoading, Some(InputDisabledProp(st)), Some(AnswerPlaceholder))
  }

  /** The input, when shown, is never disabled by the screen, so it shows
      the screen's placeholder rather than "Please wait...", and it is
      greyed out exactly while a request is in flight. */
  lemma ShownInputEnabled(st: AuthState)
    ensures ShowInput(st) ==> !InputDisabledProp(st)
    ensures ShowInput(st) ==> ChatInput.Placeholder(InputProps(st)) == AnswerPlaceholder
    ensures ShowInput(st) ==> (ChatInput.InputDisabled(InputProps(st)) <==> st.isLoading)
  {
  }

  /** The screen hands an answer to `submitAnswer` only in the `auth` step
      and while nothing is loading (the command itself does not look at the
      loading flag), and only the trimmed, non-empty text; once the command
      accepts it, `questionsAsked` goes up by one. */
  lemma ScreenSubmissionCounted(s: Session.Session, message: string, verify: Api.Reply<VerifyAnswerResponse>)
    requires Transcript.NoTypingIndicator(s.state.messages) && Session.CanSubmit(s.state)
    requires ChatInput.Submission(message, InputProps(s.state)).Some?
    ensures s.state.step == Auth && !s.state.isLoading
    ensures var t := ChatInput.Submission(message, InputProps(s.state)).value;
      && t == Text.Trim(message)
      && QuestionsAsked(Session.SubmitAnswer(s, t, verify).state.messages) == QuestionsAsked(s.state.messages) + 1
  {
    var t := ChatInput.Submission(message, InputProps(s.state)).value;
    SubmitCountsAnswer(s, t, verify);
  }

  /** Between commands, the result view is shown exactly in the `result`
      step, and in every step exactly one of the three sections is shown. */
  lemma ResultShownInResultStep(s: Session.Session)
    requires Session.Invariant(s)
    ensures ShowResult(s.state) <==> s.state.step == Result
    ensures ShowUpload(s.state) || ShowResult(s.state) || ShowInput(s.state)
  {
  }

  /** Between commands, the result view shows the server's verdict as it
      is: a `result` step never holds `in_progress`, so the collapse of any
      other status to `failed` never changes what the server said. */
  lemma ResultViewShowsVerdict(s: Session.Session)
    requires Session.Invariant(s) && ShowResult(s.state)
    ensures s.state.authStatus.value != InProgress
    ensures ResultViewStatus(s.state.authStatus.value) == s.state.authStatus.value
  {
  }
}
