/** The records exchanged with the verification service and the client's
    session state, shaped after `src/types/auth.types.ts`. Numbers are
    integers here; timestamps are not modelled. */
module AuthTypes {

  /** An optional field of a TypeScript record (`field?: T`). */
  datatype Option<+T> = None | Some(value: T)

  /** JavaScript truthiness of an optional string: absent and "" are falsy. */
  predicate Truthy(o: Option<string>) {
    o.Some? && o.value != ""
  }

  /** JavaScript truthiness of an optional number (NaN is not modelled). */
  predicate TruthyNumber(o: Option<int>) {
    o.Some? && o.value != 0
  }

  /** `AuthState.step`: the wizard page. */
  datatype Step = Upload | Auth | Result

  /** `AuthenticationStatus.status`. */
  datatype Status = InProgress | Success | Failed

  /** `Message.type`. */
  datatype Sender = Bot | User | System

  datatype Metadata = Metadata(
    confidence: Option<int>,
    questionNumber: Option<int>,
    totalQuestions: Option<int>,
    isCorrect: Option<bool>)

  /** `Message.id`: a token of `generateMessageId()`, which is fresh at each
      call and is told apart here by the order in which it was generated, or
      the fixed id `'typing-indicator'` of the placeholder. */
  datatype MessageId = Generated(serial: nat) | TypingIndicatorId

  /** A transcript entry; `isTyping` stands for the optional flag, absent = false. */
  datatype Message = Message(
    id: MessageId,
    sender: Sender,
    content: string,
    isTyping: bool,
    metadata: Option<Metadata>)

  datatype UploadResponse = UploadResponse(
    success: bool, dataId: string, totalTransactions: int, summary: string)

  datatype StartAuthResponse = StartAuthResponse(success: bool, sessionId: string)

  datatype Question = Question(questionText: string, questionNumber: int, totalQuestions: int)

  /** `question` may be missing from a reply, which the client tests for. */
  datatype QuestionsResponse = QuestionsResponse(success: bool, question: Option<Question>)

  datatype ValidationResult = ValidationResult(isCorrect: bool, confidence: int, explanation: string)

  datatype AuthenticationStatus = AuthenticationStatus(status: Status, score: int)

  datatype VerifyAnswerResponse = VerifyAnswerResponse(
    success: bool, validation: ValidationResult, authenticationStatus: AuthenticationStatus)

  /** `AuthState` as the hook holds it (`questionsAsked` and `questionsCorrect`
      are declared by the type but never present in the hook's state). */
  datatype AuthState = AuthState(
    step: Step,
    userId: string,
    dataId: Option<string>,
    sessionId: Option<string>,
    currentQuestionId: Option<string>,
    totalTransactions: Option<int>,
    messages: seq<Message>,
    isLoading: bool,
    error: Option<string>,
    finalScore: Option<int>,
    authStatus: Option<Status>)
}
