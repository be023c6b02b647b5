/** What the commands of the session controller guarantee: the effect of
    each command on the state, the invariant they all keep, and how the
    wizard step may move. */
module SessionProperties {
  import opened AuthTypes
  import opened Api
  import opened Session
  import Decimal
  import Transcript

  // ---------------------------------------------------------------- what a reply means to the hook

  /** The message of the error the hook catches for an upload reply, if any. */
  function UploadFailure(reply: Reply<UploadResponse>): Option<string> {
    match reply
    case Failure(e) => Some(Classify(e))
    case Response(r) => if r.success then None else Some(UploadRejected)
  }

  function StartFailure(reply: Reply<StartAuthResponse>): Option<string> {
    match reply
    case Failure(e) => Some(Classify(e))
    case Response(r) => if r.success then None else Some(StartRejected)
  }

  /** A question reply that `getNextQuestion` accepts: `success` and a question. */
  predicate Delivered(reply: Reply<QuestionsResponse>) {
    reply.Response? && reply.data.success && reply.data.question.Some?
  }

  function QuestionFailure(reply: Reply<QuestionsResponse>): string {
    if reply.Failure? then Classify(reply.error) else NoMoreQuestions
  }

  function VerifyFailure(reply: Reply<VerifyAnswerResponse>): Option<string> {
    match reply
    case Failure(e) => Some(Classify(e))
    case Response(r) => if r.success then None else Some(VerifyRejected)
  }

  /** The message the hook appends for the outcome of a question fetch. */
  function QuestionMessage(serial: nat, reply: Reply<QuestionsResponse>): Message {
    if Delivered(reply) then
      var q := reply.data.question.value;
      Message(Generated(serial), Bot, q.questionText, false, Some(QuestionMetadata(q)))
    else Message(Generated(serial), Bot, QuestionErrorText(QuestionFailure(reply)), false, None)
  }

  // ---------------------------------------------------------------- ids

  /** Appending a message with the next id keeps the ids distinct and below the counter. */
  lemma AppendFresh(messages: seq<Message>, serial: nat, m: Message)
    requires DistinctIds(messages) && IdsBelow(messages, serial)
    requires m.id == Generated(serial)
    ensures DistinctIds(messages + [m]) && IdsBelow(messages + [m], serial + 1)
  {
  }

  /** Removing the placeholder that was just added restores a clean transcript. */
  lemma TypingRoundTrip(messages: seq<Message>)
    requires Transcript.NoTypingIndicator(messages)
    ensures Transcript.RemoveTypingIndicator(Transcript.AddTypingIndicator(messages)) == messages
  {
    Transcript.RemoveAfterAdd(messages);
    Transcript.RemoveWhenAbsent(messages);
  }

  /** Distinct question numbers give distinct question ids `q_<number>`. */
  lemma QuestionIdInjective(a: int, b: int)
    requires QuestionId(a) == QuestionId(b)
    ensures a == b
  {
    assert Decimal.IntToString(a) == QuestionId(a)[2..];
    assert Decimal.IntToString(b) == QuestionId(b)[2..];
    Decimal.IntToStringInjective(a, b);
  }

  // ---------------------------------------------------------------- getNextQuestion

  /** `getNextQuestion` drops the placeholder and appends exactly one bot
      message: the question, with its number and total, after which its id
      is the current question id; or "Error getting question: …" with the
      error recorded. It never touches the step or the loading flag. */
  lemma GetNextQuestionEffect(s: Session, sessionId: string, reply: Reply<QuestionsResponse>)
    ensures var r := GetNextQuestion(s, sessionId, reply);
      && r.state == s.state.(
           messages := Transcript.RemoveTypingIndicator(s.state.messages) + [QuestionMessage(s.serial, reply)],
           currentQuestionId := (if Delivered(reply) then Some(QuestionId(reply.data.question.value.questionNumber))
                                 else s.state.currentQuestionId),
           error := (if Delivered(reply) then s.state.error else Some(QuestionFailure(reply))))
      && r.serial == s.serial + 1 && r.timers == s.timers
      && r.calls == s.calls + [GetQuestions(sessionId)]
  {
    if reply.Response? && !Delivered(reply) {
      Transcript.RemoveIdempotent(s.state.messages);
    }
  }

  // ---------------------------------------------------------------- startAuthentication

  /** A start the server accepts: the wizard moves to the `auth` step with
      the new session id, the first question is fetched for it, and the
      transcript gains exactly the question (or the error of fetching it). */
  lemma StartSuccessEffect(s: Session, dataId: string, start: Reply<StartAuthResponse>, question: Reply<QuestionsResponse>)
    requires Transcript.NoTypingIndicator(s.state.messages)
    requires StartFailure(start).None?
    ensures var sessionId := start.data.sessionId;
      var r := StartAuthentication(s, dataId, start, question);
      && r.state == s.state.(
           step := Auth, sessionId := Some(sessionId),
           messages := s.state.messages + [QuestionMessage(s.serial, question)],
           currentQuestionId := (if Delivered(question) then Some(QuestionId(question.data.question.value.questionNumber))
                                 else s.state.currentQuestionId),
           error := (if Delivered(question) then s.state.error else Some(QuestionFailure(question))),
           isLoading := false)
      && r.serial == s.serial + 1 && r.timers == s.timers
      && r.calls == s.calls + [StartAuth(dataId, s.state.userId), GetQuestions(sessionId)]
  {
    var t1 := Call(AddTypingIndicator(SetLoading(s, true)), StartAuth(dataId, s.state.userId));
    var t2 := t1.(state := t1.state.(sessionId := Some(start.data.sessionId), step := Auth));
    GetNextQuestionEffect(t2, start.data.sessionId, question);
    TypingRoundTrip(s.state.messages);
  }

  /** A start that fails (in transport or by the server's verdict) leaves
      the step and the session as they were, records the error and narrates
      it in one bot message. */
  lemma StartFailureAtStart(s: Session, dataId: string, start: Reply<StartAuthResponse>, question: Reply<QuestionsResponse>)
    requires Transcript.NoTypingIndicator(s.state.messages)
    requires StartFailure(start).Some?
    ensures var msg := StartFailure(start).value;
      var r := StartAuthentication(s, dataId, start, question);
      && r.state == s.state.(
           messages := s.state.messages + [Message(Generated(s.serial), Bot, StartErrorText(msg), false, None)],
           error := Some(msg), isLoading := false)
      && r.serial == s.serial + 1 && r.timers == s.timers
      && r.calls == s.calls + [StartAuth(dataId, s.state.userId)]
  {
    TypingRoundTrip(s.state.messages);
    if start.Response? {
      Transcript.RemoveWhenAbsent(s.state.messages);
    }
  }

  /** The state in which a successful upload hands over to
      `startAuthentication`: data id and transaction count recorded, error
      cleared, loading, and the summary appended. */
  function Summarised(s: Session, up: UploadResponse): Session {
    Session(s.state.(messages := s.state.messages + [Message(Generated(s.serial), Bot, SummaryText(up), false, None)],
                     dataId := Some(up.dataId), totalTransactions := Some(up.totalTransactions),
                     error := None, isLoading := true),
            s.serial + 1, s.timers, s.calls + [UploadCsv(s.state.userId)])
  }

  /** A successful upload chains into `startAuthentication` from the
      summarised state, and ends with the loading flag down. */
  lemma UploadChainsIntoStart(s: Session, upload: Reply<UploadResponse>,
                              start: Reply<StartAuthResponse>, question: Reply<QuestionsResponse>)
    requires Transcript.NoTypingIndicator(s.state.messages)
    requires UploadFailure(upload).None?
    ensures UploadSampleData(s, upload, start, question)
         == SetLoading(StartAuthentication(Summarised(s, upload.data), upload.data.dataId, start, question), false)
  {
    TypingRoundTrip(s.state.messages);
    var s1 := Call(AddTypingIndicator(SetError(SetLoading(s, true), None)), UploadCsv(s.state.userId));
    var s2 := RemoveTypingIndicator(s1);
    var s4 := AddMessage(s2.(state := s2.state.(dataId := Some(upload.data.dataId), totalTransactions := Some(upload.data.totalTransactions))),
                         Bot, SummaryText(upload.data), None);
    assert s4 == Summarised(s, upload.data);
  }

  // ---------------------------------------------------------------- uploadSampleData

  /** The loading flag is down when the upload command finishes, on every path. */
  lemma UploadClearsLoading(s: Session, upload: Reply<UploadResponse>,
                            start: Reply<StartAuthResponse>, question: Reply<QuestionsResponse>)
    ensures !UploadSampleData(s, upload, start, question).state.isLoading
  {
  }

  /** A failed upload leaves the step (and everything but the error) as it
      was and appends one bot message narrating the failure. */
  lemma UploadFailureEffect(s: Session, upload: Reply<UploadResponse>,
                            start: Reply<StartAuthResponse>, question: Reply<QuestionsResponse>)
    requires Transcript.NoTypingIndicator(s.state.messages)
    requires UploadFailure(upload).Some?
    ensures var msg := UploadFailure(upload).value;
      var r := UploadSampleData(s, upload, start, question);
      && r.state == s.state.(
           messages := s.state.messages + [Message(Generated(s.serial), Bot, UploadErrorText(msg), false, None)],
           error := Some(msg), isLoading := false)
      && r.serial == s.serial + 1 && r.timers == s.timers
      && r.calls == s.calls + [UploadCsv(s.state.userId)]
  {
    TypingRoundTrip(s.state.messages);
    if upload.Response? {
      Transcript.RemoveWhenAbsent(s.state.messages);
    }
  }

  /** A successful upload records the data id, appends the summary and
      starts the session; if the start fails, the step stays, the error is
      recorded and one more bot message narrates it. */
  lemma StartFailureEffect(s: Session, upload: Reply<UploadResponse>,
                           start: Reply<StartAuthResponse>, question: Reply<QuestionsResponse>)
    requires Transcript.NoTypingIndicator(s.state.messages)
    requires UploadFailure(upload).None? && StartFailure(start).Some?
    ensures var up := upload.data;
      var msg := StartFailure(start).value;
      var r := UploadSampleData(s, upload, start, question);
      && r.state == s.state.(
           messages := s.state.messages + [Message(Generated(s.serial), Bot, SummaryText(up), false, None),
                                           Message(Generated(s.serial + 1), Bot, StartErrorText(msg), false, None)],
           dataId := Some(up.dataId), totalTransactions := Some(up.totalTransactions),
           error := Some(msg), isLoading := false)
      && r.serial == s.serial + 2 && r.timers == s.timers
      && r.calls == s.calls + [UploadCsv(s.state.userId), StartAuth(up.dataId, s.state.userId)]
  {
    var up := upload.data;
    TypingRoundTrip(s.state.messages);
    var s1 := Call(AddTypingIndicator(SetError(SetLoading(s, true), None)), UploadCsv(s.state.userId));
    var s2 := RemoveTypingIndicator(s1);
    var s4 := AddMessage(s2.(state := s2.state.(dataId := Some(up.dataId), totalTransactions := Some(up.totalTransactions))),
                         Bot, SummaryText(up), None);
    assert s4.state.messages == s.state.messages + [Message(Generated(s.serial), Bot, SummaryText(up), false, None)];
    assert UploadSampleData(s, upload, start, question) == SetLoading(StartAuthentication(s4, up.dataId, start, question), false);
    StartFailureAtStart(s4, up.dataId, start, question);
  }

  /** Upload and start both succeed: the wizard is in the `auth` step with
      the new session, and after the summary comes the first question (or
      the error of fetching it). */
  lemma UploadAndStartEffect(s: Session, upload: Reply<UploadResponse>,
                             start: Reply<StartAuthResponse>, question: Reply<QuestionsResponse>)
    requires Transcript.NoTypingIndicator(s.state.messages)
    requires UploadFailure(upload).None? && StartFailure(start).None?
    ensures var up := upload.data;
      var sessionId := start.data.sessionId;
      var r := UploadSampleData(s, upload, start, question);
      && r.state.step == Auth
      && r.state.sessionId == Some(sessionId)
      && r.state.dataId == Some(up.dataId)
      && r.state.totalTransactions == Some(up.totalTransactions)
      && r.state.messages == s.state.messages + [Message(Generated(s.serial), Bot, SummaryText(up), false, None),
                                                 QuestionMessage(s.serial + 1, question)]
      && r.state.currentQuestionId == (if Delivered(question) then Some(QuestionId(question.data.question.value.questionNumber))
                                       else s.state.currentQuestionId)
      && r.state.error == (if Delivered(question) then None else Some(QuestionFailure(question)))
      && !r.state.isLoading
      && r.state.userId == s.state.userId
      && r.state.finalScore == s.state.finalScore && r.state.authStatus == s.state.authStatus
      && r.serial == s.serial + 2 && r.timers == s.timers
      && r.calls == s.calls + [UploadCsv(s.state.userId), StartAuth(up.dataId, s.state.userId), GetQuestions(sessionId)]
  {
    var up := upload.data;
    TypingRoundTrip(s.state.messages);
    var s1 := Call(AddTypingIndicator(SetError(SetLoading(s, true), None)), UploadCsv(s.state.userId));
    var s2 := RemoveTypingIndicator(s1);
    var s4 := AddMessage(s2.(state := s2.state.(dataId := Some(up.dataId), totalTransactions := Some(up.totalTransactions))),
                         Bot, SummaryText(up), None);
    assert s4.state.messages == s.state.messages + [Message(Generated(s.serial), Bot, SummaryText(up), false, None)];
    assert UploadSampleData(s, upload, start, question) == SetLoading(StartAuthentication(s4, up.dataId, start, question), false);
    StartSuccessEffect(s4, up.dataId, start, question);
  }

  /** The step after an upload: `auth` exactly when upload and start both succeed. */
  lemma UploadStep(s: Session, upload: Reply<UploadResponse>,
                   start: Reply<StartAuthResponse>, question: Reply<QuestionsResponse>)
    ensures UploadSampleData(s, upload, start, question).state.step
         == if UploadFailure(upload).None? && StartFailure(start).None? then Auth else s.state.step
  {
    if UploadFailure(upload).None? && StartFailure(start).None? {
      var s1 := Call(AddTypingIndicator(SetError(SetLoading(s, true), None)), UploadCsv(s.state.userId));
      var s4 := AddMessage(RemoveTypingIndicator(s1).(state := RemoveTypingIndicator(s1).state.(
                  dataId := Some(upload.data.dataId), totalTransactions := Some(upload.data.totalTransactions))),
                Bot, SummaryText(upload.data), None);
      var t1 := Call(AddTypingIndicator(SetLoading(s4, true)), StartAuth(upload.data.dataId, s.state.userId));
      var t2 := t1.(state := t1.state.(sessionId := Some(start.data.sessionId), step := Auth));
      GetNextQuestionEffect(t2, start.data.sessionId, question);
    } else if UploadFailure(upload).None? {
      var s1 := Call(AddTypingIndicator(SetError(SetLoading(s, true), None)), UploadCsv(s.state.userId));
      var s4 := AddMessage(RemoveTypingIndicator(s1).(state := RemoveTypingIndicator(s1).state.(
                  dataId := Some(upload.data.dataId), totalTransactions := Some(upload.data.totalTransactions))),
                Bot, SummaryText(upload.data), None);
      assert s4.state.step == s.state.step;
    }
  }

  // ---------------------------------------------------------------- submitAnswer

  /** Without a truthy session id and question id the command does nothing
      at all (the loading flag is not consulted). */
  lemma SubmitAnswerNoOp(s: Session, answer: string, verify: Reply<VerifyAnswerResponse>)
    requires !CanSubmit(s.state)
    ensures SubmitAnswer(s, answer, verify) == s
  {
  }

  /** The verify call is made exactly when the guard passes. */
  lemma SubmitAnswerCallsIff(s: Session, answer: string, verify: Reply<VerifyAnswerResponse>)
    ensures SubmitAnswer(s, answer, verify).calls == s.calls <==> !CanSubmit(s.state)
  {
    if CanSubmit(s.state) {
      assert |SubmitAnswer(s, answer, verify).calls| == |s.calls| + 1;
    }
  }

  /** A failed verification narrates the error after the user's answer and
      leaves everything else (the step, the question) as it was. */
  lemma SubmitAnswerFailureEffect(s: Session, answer: string, verify: Reply<VerifyAnswerResponse>)
    requires Transcript.NoTypingIndicator(s.state.messages)
    requires CanSubmit(s.state) && VerifyFailure(verify).Some?
    ensures var msg := VerifyFailure(verify).value;
      var r := SubmitAnswer(s, answer, verify);
      && r.state == s.state.(
           messages := s.state.messages + [Message(Generated(s.serial), User, answer, false, None),
                                           Message(Generated(s.serial + 1), Bot, VerifyErrorText(msg), false, None)],
           error := Some(msg), isLoading := false)
      && r.serial == s.serial + 2 && r.timers == s.timers
      && r.calls == s.calls + [VerifyAnswer(s.state.currentQuestionId.value, s.state.sessionId.value, answer)]
  {
    var user := Message(Generated(s.serial), User, answer, false, None);
    TypingRoundTrip(s.state.messages + [user]);
    if verify.Response? {
      Transcript.RemoveWhenAbsent(s.state.messages + [user]);
    }
  }

  /** A graded answer: the user's answer, then the feedback carrying the
      confidence and correctness. A verdict other than `in_progress` moves
      to the `result` step with the score and status and defers the closing
      message; `in_progress` keeps the step and defers the fetch of the next
      question for the stored session id. The question id stays set. */
  lemma SubmitAnswerSuccessEffect(s: Session, answer: string, verify: Reply<VerifyAnswerResponse>)
    requires Transcript.NoTypingIndicator(s.state.messages)
    requires CanSubmit(s.state) && VerifyFailure(verify).None?
    ensures var v := verify.data.validation;
      var a := verify.data.authenticationStatus;
      var r := SubmitAnswer(s, answer, verify);
      && r.state == s.state.(
           messages := s.state.messages + [Message(Generated(s.serial), User, answer, false, None),
                                           Message(Generated(s.serial + 1), Bot, FeedbackText(v), false, Some(FeedbackMetadata(v)))],
           error := None, isLoading := false,
           step := (if a.status != InProgress then Result else s.state.step),
           finalScore := (if a.status != InProgress then Some(a.score) else s.state.finalScore),
           authStatus := (if a.status != InProgress then Some(a.status) else s.state.authStatus))
      && r.serial == s.serial + 2
      && r.calls == s.calls + [VerifyAnswer(s.state.currentQuestionId.value, s.state.sessionId.value, answer)]
      && r.timers == s.timers + [if a.status != InProgress then ShowFinalMessage(FinalMessage(a))
                                 else FetchNextQuestion(s.state.sessionId.value)]
  {
    var user := Message(Generated(s.serial), User, answer, false, None);
    TypingRoundTrip(s.state.messages + [user]);
    var s1 := Call(AddTypingIndicator(AddMessage(SetError(SetLoading(s, true), None), User, answer, None)),
                   VerifyAnswer(s.state.currentQuestionId.value, s.state.sessionId.value, answer));
    var s3 := RemoveTypingIndicator(s1);
    assert s3.state.messages == s.state.messages + [user];
    assert s3.serial == s.serial + 1;
  }

  /** After an `in_progress` grading the same question can be answered
      again: the question id stays set and nothing is loading, so until the
      deferred fetch fires the guard lets a second answer to it through,
      and that answer is verified against the same question id. */
  lemma InProgressAllowsResubmit(s: Session, answer: string, verify: Reply<VerifyAnswerResponse>,
                                 again: string, verify2: Reply<VerifyAnswerResponse>)
    requires Transcript.NoTypingIndicator(s.state.messages)
    requires CanSubmit(s.state) && VerifyFailure(verify).None?
    requires verify.data.authenticationStatus.status == InProgress
    ensures var r := SubmitAnswer(s, answer, verify);
      && CanSubmit(r.state) && !r.state.isLoading
      && r.state.currentQuestionId == s.state.currentQuestionId
      && SubmitAnswer(r, again, verify2).calls
         == r.calls + [VerifyAnswer(s.state.currentQuestionId.value, s.state.sessionId.value, again)]
  {
    SubmitAnswerSuccessEffect(s, answer, verify);
  }

  /** The user's answer is appended before the placeholder: in the middle of
      the command the transcript ends with the answer and then the
      placeholder. */
  lemma AnswerBeforePlaceholder(s: Session, answer: string)
    requires Transcript.NoTypingIndicator(s.state.messages)
    ensures var ms := AddTypingIndicator(AddMessage(s, User, answer, None)).state.messages;
      && ms == s.state.messages + [Message(Generated(s.serial), User, answer, false, None), Transcript.TypingIndicator]
  {
    var user := Message(Generated(s.serial), User, answer, false, None);
    Transcript.RemoveWhenAbsent(s.state.messages + [user]);
  }

  lemma SubmitClearsLoading(s: Session, answer: string, verify: Reply<VerifyAnswerResponse>)
    requires CanSubmit(s.state)
    ensures !SubmitAnswer(s, answer, verify).state.isLoading
  {
  }

  /** The step after a submission: `result` exactly on an accepted verdict
      other than `in_progress`. */
  lemma SubmitStep(s: Session, answer: string, verify: Reply<VerifyAnswerResponse>)
    ensures SubmitAnswer(s, answer, verify).state.step
         == if CanSubmit(s.state) && VerifyFailure(verify).None? && verify.data.authenticationStatus.status != InProgress
            then Result else s.state.step
  {
  }

  /** The closing message is worded for success exactly when the status is `success`. */
  lemma FinalMessageWording(a: AuthenticationStatus)
    ensures FinalMessage(a)[0] == PartyPopper <==> a.status == Success
  {
  }

  // ---------------------------------------------------------------- timers and reset

  function WithoutTimer(timers: seq<Deferred>, i: nat): seq<Deferred>
    requires i < |timers|
  {
    timers[..i] + timers[i + 1..]
  }

  /** The deferred closing message is appended as one bot message. */
  lemma FireFinalMessageEffect(s: Session, i: nat, question: Reply<QuestionsResponse>)
    requires i < |s.timers| && s.timers[i].ShowFinalMessage?
    ensures var r := FireTimer(s, i, question);
      && r.state == s.state.(messages := s.state.messages + [Message(Generated(s.serial), Bot, s.timers[i].content, false, None)])
      && r.serial == s.serial + 1
      && r.timers == WithoutTimer(s.timers, i) && r.calls == s.calls
  {
  }

  /** The deferred fetch asks for the next question of the session it was
      scheduled for, whatever the state holds by then. */
  lemma FireFetchEffect(s: Session, i: nat, question: Reply<QuestionsResponse>)
    requires i < |s.timers| && s.timers[i].FetchNextQuestion?
    requires Transcript.NoTypingIndicator(s.state.messages)
    ensures var r := FireTimer(s, i, question);
      && r.state == s.state.(
           messages := s.state.messages + [QuestionMessage(s.serial, question)],
           currentQuestionId := (if Delivered(question) then Some(QuestionId(question.data.question.value.questionNumber))
                                 else s.state.currentQuestionId),
           error := (if Delivered(question) then s.state.error else Some(QuestionFailure(question))))
      && r.serial == s.serial + 1
      && r.timers == WithoutTimer(s.timers, i)
      && r.calls == s.calls + [GetQuestions(s.timers[i].sessionId)]
  {
    var s1 := s.(timers := WithoutTimer(s.timers, i));
    GetNextQuestionEffect(s1, s.timers[i].sessionId, question);
    Transcript.RemoveWhenAbsent(s.state.messages);
  }

  /** A timer never moves the wizard: neither the closing message nor a
      question fetch touches the step. */
  lemma FireStep(s: Session, i: nat, question: Reply<QuestionsResponse>)
    requires i < |s.timers|
    ensures FireTimer(s, i, question).state.step == s.state.step
  {
    if s.timers[i].FetchNextQuestion? {
      GetNextQuestionEffect(s.(timers := WithoutTimer(s.timers, i)), s.timers[i].sessionId, question);
    }
  }

  /** `resetAuth` restores the initial state with the given user id: the
      welcome message alone, the `upload` step, not loading, every optional
      field cleared. Pending timers are not cancelled. */
  lemma ResetEffect(s: Session, userId: string)
    ensures var r := ResetAuth(s, userId);
      && r.state.messages == [Welcome] && r.state.step == Upload && !r.state.isLoading
      && r.state.userId == userId
      && r.state.dataId.None? && r.state.sessionId.None? && r.state.currentQuestionId.None?
      && r.state.totalTransactions.None? && r.state.error.None?
      && r.state.finalScore.None? && r.state.authStatus.None?
      && r.timers == s.timers && r.serial == s.serial && r.calls == s.calls
  {
  }

  /** A question fetch scheduled before a reset still runs after it: the
      fresh `upload` screen shows the welcome message followed by the
      question, and a current question id is set although there is no
      session id. */
  lemma StaleFetchAfterReset(s: Session, userId: string, i: nat, question: Reply<QuestionsResponse>)
    requires i < |s.timers| && s.timers[i].FetchNextQuestion? && Delivered(question)
    ensures var r := FireTimer(ResetAuth(s, userId), i, question);
      && r.state.step == Upload && r.state.sessionId.None?
      && r.state.currentQuestionId == Some(QuestionId(question.data.question.value.questionNumber))
      && r.state.messages == [Welcome, QuestionMessage(s.serial, question)]
      && r.calls == s.calls + [GetQuestions(s.timers[i].sessionId)]
  {
    FireFetchEffect(ResetAuth(s, userId), i, question);
  }

  /** Only `resetAuth` brings the wizard back to `upload`: no other command
      ends there unless it started there. */
  lemma OnlyResetReturnsToUpload(s: Session, answer: string, i: nat,
                                 upload: Reply<UploadResponse>, start: Reply<StartAuthResponse>,
                                 question: Reply<QuestionsResponse>, verify: Reply<VerifyAnswerResponse>)
    requires s.state.step != Upload
    ensures UploadSampleData(s, upload, start, question).state.step != Upload
    ensures SubmitAnswer(s, answer, verify).state.step != Upload
    ensures i < |s.timers| ==> FireTimer(s, i, question).state.step != Upload
  {
    UploadStep(s, upload, start, question);
    SubmitStep(s, answer, verify);
    if i < |s.timers| {
      FireStep(s, i, question);
    }
  }

  // ---------------------------------------------------------------- the invariant

  lemma InitialInvariant(userId: string)
    ensures Invariant(Initial(userId))
  {
  }

  lemma ResetKeepsInvariant(s: Session, userId: string)
    requires Invariant(s)
    ensures Invariant(ResetAuth(s, userId))
  {
  }

  /** The escape hatch `addMessage` keeps the invariant. */
  lemma AddMessageKeepsInvariant(s: Session, sender: Sender, content: string, metadata: Option<Metadata>)
    requires Invariant(s)
    ensures Invariant(AddMessage(s, sender, content, metadata))
  {
    AppendFresh(s.state.messages, s.serial, Message(Generated(s.serial), sender, content, false, metadata));
  }

  lemma AppendTwoFresh(messages: seq<Message>, serial: nat, m1: Message, m2: Message)
    requires DistinctIds(messages) && IdsBelow(messages, serial)
    requires m1.id == Generated(serial) && m2.id == Generated(serial + 1)
    ensures DistinctIds(messages + [m1, m2]) && IdsBelow(messages + [m1, m2], serial + 2)
  {
    AppendFresh(messages, serial, m1);
    AppendFresh(messages + [m1], serial + 1, m2);
    assert messages + [m1] + [m2] == messages + [m1, m2];
  }

  lemma UploadFailureKeepsInvariant(s: Session, upload: Reply<UploadResponse>,
                                    start: Reply<StartAuthResponse>, question: Reply<QuestionsResponse>)
    requires Invariant(s) && UploadFailure(upload).Some?
    ensures Invariant(UploadSampleData(s, upload, start, question))
  {
    var m := Message(Generated(s.serial), Bot, UploadErrorText(UploadFailure(upload).value), false, None);
    UploadFailureEffect(s, upload, start, question);
    AppendFresh(s.state.messages, s.serial, m);
  }

  lemma StartFailureKeepsInvariant(s: Session, upload: Reply<UploadResponse>,
                                   start: Reply<StartAuthResponse>, question: Reply<QuestionsResponse>)
    requires Invariant(s) && UploadFailure(upload).None? && StartFailure(start).Some?
    ensures Invariant(UploadSampleData(s, upload, start, question))
  {
    var m1 := Message(Generated(s.serial), Bot, SummaryText(upload.data), false, None);
    var m2 := Message(Generated(s.serial + 1), Bot, StartErrorText(StartFailure(start).value), false, None);
    StartFailureEffect(s, upload, start, question);
    AppendTwoFresh(s.state.messages, s.serial, m1, m2);
  }

  lemma UploadAndStartKeepInvariant(s: Session, upload: Reply<UploadResponse>,
                                    start: Reply<StartAuthResponse>, question: Reply<QuestionsResponse>)
    requires Invariant(s) && UploadFailure(upload).None? && StartFailure(start).None?
    ensures Invariant(UploadSampleData(s, upload, start, question))
  {
    var m1 := Message(Generated(s.serial), Bot, SummaryText(upload.data), false, None);
    var m2 := QuestionMessage(s.serial + 1, question);
    UploadAndStartEffect(s, upload, start, question);
    InvariantAfterTwo(s, UploadSampleData(s, upload, start, question), m1, m2);
  }

  /** A state reached from an invariant one by appending two messages with
      the next two ids, into an active session, is again invariant. */
  lemma InvariantAfterTwo(s: Session, r: Session, m1: Message, m2: Message)
    requires Invariant(s)
    requires m1.id == Generated(s.serial) && m2.id == Generated(s.serial + 1)
    requires r.state.messages == s.state.messages + [m1, m2] && r.serial == s.serial + 2
    requires !r.state.isLoading && r.state.step == Auth
    requires r.state.sessionId.Some? && r.state.dataId.Some?
    ensures Invariant(r)
  {
    AppendTwoFresh(s.state.messages, s.serial, m1, m2);
  }

  lemma UploadKeepsInvariant(s: Session, upload: Reply<UploadResponse>,
                             start: Reply<StartAuthResponse>, question: Reply<QuestionsResponse>)
    requires Invariant(s)
    ensures Invariant(UploadSampleData(s, upload, start, question))
  {
    if UploadFailure(upload).Some? {
      UploadFailureKeepsInvariant(s, upload, start, question);
    } else if StartFailure(start).Some? {
      StartFailureKeepsInvariant(s, upload, start, question);
    } else {
      UploadAndStartKeepInvariant(s, upload, start, question);
    }
  }

  lemma SubmitFailureKeepsInvariant(s: Session, answer: string, verify: Reply<VerifyAnswerResponse>)
    requires Invariant(s) && CanSubmit(s.state) && VerifyFailure(verify).Some?
    ensures Invariant(SubmitAnswer(s, answer, verify))
  {
    var m1 := Message(Generated(s.serial), User, answer, false, None);
    var m2 := Message(Generated(s.serial + 1), Bot, VerifyErrorText(VerifyFailure(verify).value), false, None);
    SubmitAnswerFailureEffect(s, answer, verify);
    AppendTwoFresh(s.state.messages, s.serial, m1, m2);
  }

  lemma SubmitSuccessKeepsInvariant(s: Session, answer: string, verify: Reply<VerifyAnswerResponse>)
    requires Invariant(s) && CanSubmit(s.state) && VerifyFailure(verify).None?
    ensures Invariant(SubmitAnswer(s, answer, verify))
  {
    var v := verify.data.validation;
    var m1 := Message(Generated(s.serial), User, answer, false, None);
    var m2 := Message(Generated(s.serial + 1), Bot, FeedbackText(v), false, Some(FeedbackMetadata(v)));
    SubmitAnswerSuccessEffect(s, answer, verify);
    AppendTwoFresh(s.state.messages, s.serial, m1, m2);
  }

  lemma SubmitKeepsInvariant(s: Session, answer: string, verify: Reply<VerifyAnswerResponse>)
    requires Invariant(s)
    ensures Invariant(SubmitAnswer(s, answer, verify))
  {
    if CanSubmit(s.state) {
      if VerifyFailure(verify).Some? {
        SubmitFailureKeepsInvariant(s, answer, verify);
      } else {
        SubmitSuccessKeepsInvariant(s, answer, verify);
      }
    }
  }

  lemma FireKeepsInvariant(s: Session, i: nat, question: Reply<QuestionsResponse>)
    requires Invariant(s) && i < |s.timers|
    ensures Invariant(FireTimer(s, i, question))
  {
    if s.timers[i].ShowFinalMessage? {
      FireFinalMessageEffect(s, i, question);
      AppendFresh(s.state.messages, s.serial, Message(Generated(s.serial), Bot, s.timers[i].content, false, None));
    } else {
      FireFetchEffect(s, i, question);
      GetNextQuestionEffect(s.(timers := WithoutTimer(s.timers, i)), s.timers[i].sessionId, question);
      AppendFresh(s.state.messages, s.serial, QuestionMessage(s.serial, question));
    }
  }
}
