/** The transport client of `src/services/api.ts`, without the network: the
    response interceptor that turns every failed request into an `Error`
    with a user-facing message, the calls the client can make, and the
    request that `verifyAnswer` builds. */
module Api {
  import opened AuthTypes
  import Text

  /** What the client knows of a failed request: axios's `error.code` and
      `error.response` (its status and JSON body). */
  datatype TransportError = TransportError(code: Option<string>, response: Option<ErrorResponse>)
  datatype ErrorResponse = ErrorResponse(status: int, data: Option<ErrorBody>)
  datatype ErrorBody = ErrorBody(message: Option<string>, error: Option<string>)

  /** What the server (or the network) did with one request. */
  datatype Reply<T> = Response(data: T) | Failure(error: TransportError)

  /** How the interceptor settles a request: the response passes through, an
      error becomes a thrown `Error(message)`. */
  datatype Settled<T> = Resolved(value: T) | Thrown(message: string)

  const AbortedCode := "ECONNABORTED"
  const TimeoutMessage := "Request timeout. Please try again."
  const NetworkMessage := "Network error. Please check your connection and ensure your backend allows CORS."
  const ServerErrorMessage := "Server error. Please try again later."
  const NotFoundMessage := "API endpoint not found. Please check your backend configuration."
  const UnexpectedMessage := "An unexpected error occurred"

  /** `a || b` on optional strings: the first truthy one, else the default. */
  function FirstTruthy(a: Option<string>, b: Option<string>, default: string): string {
    if Truthy(a) then a.value else if Truthy(b) then b.value else default
  }

  /** The message of the `Error` the interceptor throws, by the ordered chain
      timeout, no response, status >= 500, status 404, server-supplied text. */
  function Classify(e: TransportError): (msg: string)
    ensures |msg| > 0
  {
    if e.code == Some(AbortedCode) then TimeoutMessage
    else if e.response.None? then NetworkMessage
    else if e.response.value.status >= 500 then ServerErrorMessage
    else if e.response.value.status == 404 then NotFoundMessage
    else
      var data := e.response.value.data;
      if data.None? then UnexpectedMessage
      else FirstTruthy(data.value.message, data.value.error, UnexpectedMessage)
  }

  /** The interceptor pair: success passes the response through unchanged,
      failure never returns normally. */
  function Intercept<T>(reply: Reply<T>): (r: Settled<T>)
    ensures reply.Response? ==> r == Resolved(reply.data)
    ensures reply.Failure? ==> r.Thrown? && r.message == Classify(reply.error) && |r.message| > 0
  {
    match reply
    case Response(data) => Resolved(data)
    case Failure(e) => Thrown(Classify(e))
  }

  /** An aborted request is a timeout, whatever response it may carry. */
  lemma AbortedIsTimeout(e: TransportError, response: Option<ErrorResponse>)
    requires e.code == Some(AbortedCode)
    ensures Classify(e) == Classify(e.(response := response)) == TimeoutMessage
  {
  }

  /** Without a response (and not aborted) the failure is a network one. */
  lemma NoResponseIsNetwork(e: TransportError)
    requires e.code != Some(AbortedCode) && e.response.None?
    ensures Classify(e) == NetworkMessage
  {
  }

  /** Status classes: >= 500 is a server error, whatever the body says;
      404 is a missing endpoint; any other status reports the body's
      `message`, else its `error`, else a generic text. */
  lemma StatusClasses(code: Option<string>, status: int, data: Option<ErrorBody>)
    requires code != Some(AbortedCode)
    ensures var msg := Classify(TransportError(code, Some(ErrorResponse(status, data))));
      && (status >= 500 ==> msg == ServerErrorMessage)
      && (status == 404 ==> msg == NotFoundMessage)
      && (status < 500 && status != 404 && data.Some? && Truthy(data.value.message) ==>
            msg == data.value.message.value)
      && (status < 500 && status != 404 && data.Some? && !Truthy(data.value.message) && Truthy(data.value.error) ==>
            msg == data.value.error.value)
      && (status < 500 && status != 404 && (data.None? || (!Truthy(data.value.message) && !Truthy(data.value.error))) ==>
            msg == UnexpectedMessage)
  {
  }

  /** The five fixed texts are pairwise different, so a caller can tell the
      failure classes apart unless the server's own text repeats one. */
  lemma FixedMessagesDistinct()
    ensures |{TimeoutMessage, NetworkMessage, ServerErrorMessage, NotFoundMessage, UnexpectedMessage}| == 5
  {
    assert |TimeoutMessage| == 34 && |NetworkMessage| == 80 && |ServerErrorMessage| == 37;
    assert |NotFoundMessage| == 64 && |UnexpectedMessage| == 28;
  }

  /** The four calls of `authAPI` the session controller makes, with their
      arguments (what goes on the wire is the server's contract). */
  datatype ApiCall =
    | UploadCsv(userId: string)
    | StartAuth(dataId: string, userId: string)
    | GetQuestions(sessionId: string)
    | VerifyAnswer(questionId: string, sessionId: string, answer: string)

  /** `POST <path>` with JSON body `{session_id, answer}`. */
  datatype VerifyRequest = VerifyRequest(path: string, sessionId: string, answer: string)

  const QuestionsPrefix := "/questions/"
  const VerifySuffix := "/verify"

  /** The request `verifyAnswer` sends: question id in the path, answer trimmed. */
  function VerifyAnswerRequest(questionId: string, sessionId: string, answer: string): (r: VerifyRequest)
    ensures r.sessionId == sessionId && r.answer == Text.Trim(answer)
  {
    VerifyRequest(QuestionsPrefix + questionId + VerifySuffix, sessionId, Text.Trim(answer))
  }

  /** The question id a verify path names, if the path has the verify shape. */
  function QuestionIdOfPath(path: string): (r: Option<string>)
    ensures r.Some? ==> '/' !in r.value
  {
    if |path| >= |QuestionsPrefix| + |VerifySuffix|
       && path[..|QuestionsPrefix|] == QuestionsPrefix
       && path[|path| - |VerifySuffix|..] == VerifySuffix
       && '/' !in path[|QuestionsPrefix|..|path| - |VerifySuffix|]
    then Some(path[|QuestionsPrefix|..|path| - |VerifySuffix|])
    else None
  }

  /** The server can recover the question id from the path of the request,
      for every id without a '/' in it, and the answer it receives is already
      trimmed. */
  lemma VerifyRequestRoundTrip(questionId: string, sessionId: string, answer: string)
    requires '/' !in questionId
    ensures QuestionIdOfPath(VerifyAnswerRequest(questionId, sessionId, answer).path) == Some(questionId)
    ensures Text.Trim(VerifyAnswerRequest(questionId, sessionId, answer).answer)
         == VerifyAnswerRequest(questionId, sessionId, answer).answer
  {
    var p := QuestionsPrefix + questionId + VerifySuffix;
    assert p[..|QuestionsPrefix|] == QuestionsPrefix;
    assert p[|p| - |VerifySuffix|..] == VerifySuffix;
    assert p[|QuestionsPrefix|..|p| - |VerifySuffix|] == questionId;
    Text.TrimIdempotent(answer);
  }
}
