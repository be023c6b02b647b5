/** The session controller of `src/hooks/useAuth.ts` as a reducer: each
    command of the hook is a function from the session before it to the
    session after it, given the replies of the server. The class in module
    UseAuth performs the same commands step by step and is proved to end in
    exactly the state these functions give.

    A `Session` is the hook's `AuthState` together with what lives outside
    it in the browser: the counter standing for fresh message ids, the
    timers still pending, and the log of the transport calls issued. */
module Session {
  import opened AuthTypes
  import opened Api
  import Decimal
  import Transcript

  /** A `setTimeout` continuation not yet run: the final verdict message
      (1000 ms) or the fetch of the next question (1500 ms). */
  datatype Deferred = ShowFinalMessage(content: string) | FetchNextQuestion(sessionId: string)

  datatype Session = Session(
    state: AuthState,
    serial: nat,
    timers: seq<Deferred>,
    calls: seq<ApiCall>)

  // ---------------------------------------------------------------- texts

  const WelcomeText := "Hi! I'm your secure banking assistant. To verify your identity, I'll ask some questions about your recent transactions. Click 'Use Sample Data' below to get started with our demo."
  const UploadRejected := "Failed to process sample data"
  const StartRejected := "Failed to start authentication"
  const NoMoreQuestions := "No more questions available"
  const VerifyRejected := "Failed to verify answer"

  const SummaryLead := "Great! I found "
  const SummaryMiddle := " transactions in your sample data. "
  const SummaryTail := " Let me start the verification process."
  const UploadErrorLead := "Sorry, there was an error processing the sample data: "
  const UploadErrorTail := ". Please try again."
  const StartErrorLead := "Unable to start verification: "
  const QuestionErrorLead := "Error getting question: "
  const VerifyErrorLead := "Error verifying answer: "
  const CorrectLead := " Correct! ("
  const CorrectMiddle := "% confidence) - "
  const SuccessLead := " Authentication successful! You answered correctly with a score of "
  const SuccessTail := "%. Welcome back!"
  const FailureLead := " Authentication failed. You scored "
  const FailureTail := "%. Please try again with a new CSV file."
  const CheckMark := '\U{2705}'
  const CrossMark := '\U{274C}'
  const PartyPopper := '\U{1F389}'

  function SummaryText(r: UploadResponse): string {
    SummaryLead + Decimal.IntToString(r.totalTransactions) + SummaryMiddle + r.summary + SummaryTail
  }

  function UploadErrorText(msg: string): string {
    UploadErrorLead + msg + UploadErrorTail
  }

  function StartErrorText(msg: string): string {
    StartErrorLead + msg
  }

  function QuestionErrorText(msg: string): string {
    QuestionErrorLead + msg
  }

  function VerifyErrorText(msg: string): string {
    VerifyErrorLead + msg
  }

  /** The feedback line for a graded answer. */
  function FeedbackText(v: ValidationResult): string {
    if v.isCorrect then
      [CheckMark] + CorrectLead + Decimal.IntToString(v.confidence) + CorrectMiddle + v.explanation
    else [CrossMark] + " " + v.explanation
  }

  /** The closing line, worded by whether the verdict is `success`. */
  function FinalMessage(a: AuthenticationStatus): string {
    if a.status == Success then [PartyPopper] + SuccessLead + Decimal.IntToString(a.score) + SuccessTail
    else [CrossMark] + FailureLead + Decimal.IntToString(a.score) + FailureTail
  }

  /** The id under which the current question is verified. */
  function QuestionId(questionNumber: int): string {
    "q_" + Decimal.IntToString(questionNumber)
  }

  function QuestionMetadata(q: Question): Metadata {
    Metadata(None, Some(q.questionNumber), Some(q.totalQuestions), None)
  }

  function FeedbackMetadata(v: ValidationResult): Metadata {
    Metadata(Some(v.confidence), None, None, Some(v.isCorrect))
  }

  // ---------------------------------------------------------------- initial state

  /** The welcome message; `initialState` is built once, so every reset
      brings back this same message with this same id. */
  const Welcome := Message(Generated(0), Bot, WelcomeText, false, None)

  function InitialState(userId: string): AuthState {
    AuthState(Upload, userId, None, None, None, None, [Welcome], false, None, None, None)
  }

  function Initial(userId: string): Session {
    Session(InitialState(userId), 1, [], [])
  }

  // ---------------------------------------------------------------- state updaters

  /** `addMessage`: append one message with a fresh id; nothing else changes. */
  function AddMessage(s: Session, sender: Sender, content: string, metadata: Option<Metadata>): Session {
    var m := Message(Generated(s.serial), sender, content, false, metadata);
    s.(state := s.state.(messages := s.state.messages + [m]), serial := s.serial + 1)
  }

  function AddTypingIndicator(s: Session): Session {
    s.(state := s.state.(messages := Transcript.AddTypingIndicator(s.state.messages)))
  }

  function RemoveTypingIndicator(s: Session): Session {
    s.(state := s.state.(messages := Transcript.RemoveTypingIndicator(s.state.messages)))
  }

  function SetLoading(s: Session, loading: bool): Session {
    s.(state := s.state.(isLoading := loading))
  }

  function SetError(s: Session, error: Option<string>): Session {
    s.(state := s.state.(error := error))
  }

  /** Issue a transport call (recorded in the call log). */
  function Call(s: Session, c: ApiCall): Session {
    s.(calls := s.calls + [c])
  }

  // ---------------------------------------------------------------- commands

  /** The `catch` block shared by the commands: drop the placeholder, record
      the error and narrate it in the transcript. */
  function Fail(s: Session, msg: string, text: string): Session {
    AddMessage(SetError(RemoveTypingIndicator(s), Some(msg)), Bot, text, None)
  }

  /** `getNextQuestion(sessionId)`: ask for a question; on success remember
      its id and show it, otherwise narrate the error. The loading flag and
      the step are not touched. */
  function GetNextQuestion(s: Session, sessionId: string, reply: Reply<QuestionsResponse>): Session {
    var s1 := Call(s, GetQuestions(sessionId));
    match Intercept(reply)
    case Thrown(msg) => Fail(s1, msg, QuestionErrorText(msg))
    case Resolved(r) =>
      var s2 := RemoveTypingIndicator(s1);
      if r.success && r.question.Some? then
        var q := r.question.value;
        AddMessage(s2.(state := s2.state.(currentQuestionId := Some(QuestionId(q.questionNumber)))),
                   Bot, q.questionText, Some(QuestionMetadata(q)))
      else Fail(s2, NoMoreQuestions, QuestionErrorText(NoMoreQuestions))
  }

  /** `startAuthentication(dataId)`: open a session and fetch its first
      question; only a successful start moves the wizard to the `auth` step. */
  function StartAuthentication(s: Session, dataId: string,
                               start: Reply<StartAuthResponse>, question: Reply<QuestionsResponse>): Session
  {
    var s1 := Call(AddTypingIndicator(SetLoading(s, true)), StartAuth(dataId, s.state.userId));
    var s2 :=
      match Intercept(start)
      case Thrown(msg) => Fail(s1, msg, StartErrorText(msg))
      case Resolved(r) =>
        if r.success then
          GetNextQuestion(s1.(state := s1.state.(sessionId := Some(r.sessionId), step := Auth)), r.sessionId, question)
        else Fail(s1, StartRejected, StartErrorText(StartRejected));
    SetLoading(s2, false)
  }

  /** `uploadSampleData()`: upload the data, summarise it, and chain into
      `startAuthentication` with the data id the server returned. */
  function UploadSampleData(s: Session, upload: Reply<UploadResponse>,
                            start: Reply<StartAuthResponse>, question: Reply<QuestionsResponse>): Session
  {
    var s1 := Call(AddTypingIndicator(SetError(SetLoading(s, true), None)), UploadCsv(s.state.userId));
    SetLoading(UploadSettled(s1, upload, start, question), false)
  }

  /** What `uploadSampleData` does once the upload request has settled. */
  function UploadSettled(s: Session, upload: Reply<UploadResponse>,
                         start: Reply<StartAuthResponse>, question: Reply<QuestionsResponse>): Session
  {
    match Intercept(upload)
    case Thrown(msg) => Fail(s, msg, UploadErrorText(msg))
    case Resolved(r) =>
      var s1 := RemoveTypingIndicator(s);
      if r.success then
        var s2 := AddMessage(s1.(state := s1.state.(dataId := Some(r.dataId), totalTransactions := Some(r.totalTransactions))),
                             Bot, SummaryText(r), None);
        StartAuthentication(s2, r.dataId, start, question)
      else Fail(s1, UploadRejected, UploadErrorText(UploadRejected))
  }

  /** The guard of `submitAnswer`: a truthy session id and question id. */
  predicate CanSubmit(st: AuthState) {
    Truthy(st.sessionId) && Truthy(st.currentQuestionId)
  }

  /** `submitAnswer(answer)`: without an active question nothing happens;
      otherwise the answer is shown, verified, and either the verdict is
      recorded (and its message deferred) or the next question is deferred. */
  function SubmitAnswer(s: Session, answer: string, verify: Reply<VerifyAnswerResponse>): Session {
    if !CanSubmit(s.state) then s
    else
      var sessionId := s.state.sessionId.value;
      var questionId := s.state.currentQuestionId.value;
      var s1 := Call(AddTypingIndicator(AddMessage(SetError(SetLoading(s, true), None), User, answer, None)),
                     VerifyAnswer(questionId, sessionId, answer));
      SetLoading(VerifySettled(s1, sessionId, verify), false)
  }

  /** What `submitAnswer` does once the verify request has settled: grade
      the answer, then record the verdict or schedule the next question. */
  function VerifySettled(s: Session, sessionId: string, verify: Reply<VerifyAnswerResponse>): Session {
    match Intercept(verify)
    case Thrown(msg) => Fail(s, msg, VerifyErrorText(msg))
    case Resolved(r) =>
      var s1 := RemoveTypingIndicator(s);
      if r.success then Graded(s1, sessionId, r)
      else Fail(s1, VerifyRejected, VerifyErrorText(VerifyRejected))
  }

  /** An accepted verification: the feedback message, then either the
      verdict (its message deferred by 1000 ms) or, while the session is in
      progress, the next question (deferred by 1500 ms). */
  function Graded(s: Session, sessionId: string, r: VerifyAnswerResponse): Session {
    var s1 := AddMessage(s, Bot, FeedbackText(r.validation), Some(FeedbackMetadata(r.validation)));
    var a := r.authenticationStatus;
    if a.status != InProgress then
      s1.(state := s1.state.(step := Result, finalScore := Some(a.score), authStatus := Some(a.status)),
          timers := s1.timers + [ShowFinalMessage(FinalMessage(a))])
    else
      s1.(timers := s1.timers + [FetchNextQuestion(sessionId)])
  }

  /** `resetAuth()`: the initial state with a fresh user id. Pending timers
      and the message-id source belong to the browser and carry on. */
  function ResetAuth(s: Session, userId: string): Session {
    s.(state := InitialState(userId))
  }

  /** Timer `i` fires; a question fetch needs the server's reply. */
  function FireTimer(s: Session, i: nat, question: Reply<QuestionsResponse>): Session
    requires i < |s.timers|
  {
    var s1 := s.(timers := s.timers[..i] + s.timers[i + 1..]);
    match s.timers[i]
    case ShowFinalMessage(content) => AddMessage(s1, Bot, content, None)
    case FetchNextQuestion(sessionId) => GetNextQuestion(s1, sessionId, question)
  }

  // ---------------------------------------------------------------- invariant

  predicate DistinctIds(messages: seq<Message>) {
    forall i, j :: 0 <= i < j < |messages| ==> messages[i].id != messages[j].id
  }

  /** No message carries an id the counter has not yet handed out. */
  predicate IdsBelow(messages: seq<Message>, serial: nat) {
    forall i :: 0 <= i < |messages| && messages[i].id.Generated? ==> messages[i].id.serial < serial
  }

  /** What holds between commands: no placeholder, unique ids, not loading,
      a session id exactly when past the upload step (and a data id before
      it), and a final verdict in the result step. */
  ghost predicate Invariant(s: Session) {
    var st := s.state;
    && Transcript.NoTypingIndicator(st.messages)
    && DistinctIds(st.messages)
    && IdsBelow(st.messages, s.serial) && s.serial >= 1
    && !st.isLoading
    && (st.sessionId.Some? <==> st.step != Upload)
    && (st.sessionId.Some? ==> st.dataId.Some?)
    && (st.step == Result ==> st.finalScore.Some? && st.authStatus.Some? && st.authStatus != Some(InProgress))
  }
}
