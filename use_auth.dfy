/** The `useAuth` hook as an object: one field per entry of its `AuthState`,
    plus the browser-side state the hook relies on (the source of fresh
    message ids, the pending timers, the transport calls issued). Each
    command performs the hook's `setState` updates one by one, in the
    source's order, and ends in exactly the state the matching function of
    module Session computes; the public commands keep `Session.Invariant`. */
module UseAuth {
  import opened AuthTypes
  import opened Api
  import Transcript
  import Session
  import SessionProperties

  class AuthController {
    var step: Step
    var userId: string
    var dataId: Option<string>
    var sessionId: Option<string>
    var currentQuestionId: Option<string>
    var totalTransactions: Option<int>
    var messages: seq<Message>
    var isLoading: bool
    var error: Option<string>
    var finalScore: Option<int>
    var authStatus: Option<Status>
    var serial: nat
    var timers: seq<Session.Deferred>
    var calls: seq<ApiCall>

    /** The hook's `state`. */
    function State(): AuthState
      reads this
    {
      AuthState(step, userId, dataId, sessionId, currentQuestionId, totalTransactions,
                messages, isLoading, error, finalScore, authStatus)
    }

    function Model(): Session.Session
      reads this
    {
      Session.Session(State(), serial, timers, calls)
    }

    ghost predicate Valid()
      reads this
    {
      Session.Invariant(Model())
    }

    /** The hook mounted: `initialState` with the given user id. */
    constructor (userId: string)
      ensures Model() == Session.Initial(userId)
      ensures Valid()
    {
      step := Upload;
      this.userId := userId;
      dataId := None;
      sessionId := None;
      currentQuestionId := None;
      totalTransactions := None;
      messages := [Session.Welcome];
      isLoading := false;
      error := None;
      finalScore := None;
      authStatus := None;
      serial := 1;
      timers := [];
      calls := [];
      new;
      SessionProperties.InitialInvariant(userId);
    }

    // ------------------------------------------------------------ updaters

    /** `addMessage` (also returned by the hook). */
    method AddMessage(sender: Sender, content: string, metadata: Option<Metadata>)
      modifies this
      ensures Model() == Session.AddMessage(old(Model()), sender, content, metadata)
      ensures old(Valid()) ==> Valid()
    {
      ghost var s0 := Model();
      messages := messages + [Message(Generated(serial), sender, content, false, metadata)];
      serial := serial + 1;
      if Session.Invariant(s0) {
        SessionProperties.AddMessageKeepsInvariant(s0, sender, content, metadata);
      }
    }

    method AddTypingIndicator()
      modifies this
      ensures Model() == Session.AddTypingIndicator(old(Model()))
    {
      messages := Transcript.AddTypingIndicator(messages);
    }

    method RemoveTypingIndicator()
      modifies this
      ensures Model() == Session.RemoveTypingIndicator(old(Model()))
    {
      messages := Transcript.RemoveTypingIndicator(messages);
    }

    method SetLoading(loading: bool)
      modifies this
      ensures Model() == Session.SetLoading(old(Model()), loading)
    {
      isLoading := loading;
    }

    method SetError(e: Option<string>)
      modifies this
      ensures Model() == Session.SetError(old(Model()), e)
    {
      error := e;
    }

    /** The shared `catch` block. */
    method Fail(msg: string, text: string)
      modifies this
      ensures Model() == Session.Fail(old(Model()), msg, text)
    {
      RemoveTypingIndicator();
      SetError(Some(msg));
      AddMessage(Bot, text, None);
    }

    // ------------------------------------------------------------ commands

    /** `getNextQuestion(sessionId)`, with the server's reply. */
    method GetNextQuestion(sid: string, reply: Reply<QuestionsResponse>)
      modifies this
      ensures Model() == Session.GetNextQuestion(old(Model()), sid, reply)
    {
      calls := calls + [GetQuestions(sid)];
      match Intercept(reply) {
        case Thrown(msg) =>
          Fail(msg, Session.QuestionErrorText(msg));
        case Resolved(r) =>
          RemoveTypingIndicator();
          if r.success && r.question.Some? {
            var q := r.question.value;
            currentQuestionId := Some(Session.QuestionId(q.questionNumber));
            AddMessage(Bot, q.questionText, Some(Session.QuestionMetadata(q)));
          } else {
            Fail(Session.NoMoreQuestions, Session.QuestionErrorText(Session.NoMoreQuestions));
          }
      }
    }

    /** `startAuthentication(dataId)`, with the replies to the start and to
        the first question. */
    method StartAuthentication(did: string, start: Reply<StartAuthResponse>, question: Reply<QuestionsResponse>)
      modifies this
      ensures Model() == Session.StartAuthentication(old(Model()), did, start, question)
    {
      ghost var s0 := Model();
      SetLoading(true);
      AddTypingIndicator();
      calls := calls + [StartAuth(did, userId)];
      ghost var s1 := Model();
      assert s1 == Session.Call(Session.AddTypingIndicator(Session.SetLoading(s0, true)), StartAuth(did, s0.state.userId));
      match Intercept(start) {
        case Thrown(msg) =>
          Fail(msg, Session.StartErrorText(msg));
        case Resolved(r) =>
          if r.success {
            sessionId := Some(r.sessionId);
            step := Auth;
            assert Model() == s1.(state := s1.state.(sessionId := Some(r.sessionId), step := Auth));
            GetNextQuestion(r.sessionId, question);
          } else {
            Fail(Session.StartRejected, Session.StartErrorText(Session.StartRejected));
          }
      }
      ghost var s2 := Model();
      SetLoading(false);
      assert Model() == Session.SetLoading(s2, false);
    }

    /** `uploadSampleData()`, with the replies to the upload, the start and
        the first question. */
    method UploadSampleData(upload: Reply<UploadResponse>, start: Reply<StartAuthResponse>,
                            question: Reply<QuestionsResponse>)
      requires Valid()
      modifies this
      ensures Model() == Session.UploadSampleData(old(Model()), upload, start, question)
      ensures Valid()
    {
      ghost var s0 := Model();
      SetLoading(true);
      SetError(None);
      AddTypingIndicator();
      calls := calls + [UploadCsv(userId)];
      assert Model() == Session.Call(Session.AddTypingIndicator(Session.SetError(Session.SetLoading(s0, true), None)),
                                     UploadCsv(s0.state.userId));
      UploadSettled(upload, start, question);
      ghost var s2 := Model();
      SetLoading(false);
      assert Model() == Session.SetLoading(s2, false);
      SessionProperties.UploadKeepsInvariant(s0, upload, start, question);
    }

    /** The upload request has settled. */
    method UploadSettled(upload: Reply<UploadResponse>, start: Reply<StartAuthResponse>,
                         question: Reply<QuestionsResponse>)
      modifies this
      ensures Model() == Session.UploadSettled(old(Model()), upload, start, question)
    {
      match Intercept(upload) {
        case Thrown(msg) =>
          Fail(msg, Session.UploadErrorText(msg));
        case Resolved(r) =>
          RemoveTypingIndicator();
          ghost var s1 := Model();
          if r.success {
            dataId := Some(r.dataId);
            totalTransactions := Some(r.totalTransactions);
            assert Model() == s1.(state := s1.state.(dataId := Some(r.dataId), totalTransactions := Some(r.totalTransactions)));
            AddMessage(Bot, Session.SummaryText(r), None);
            StartAuthentication(r.dataId, start, question);
          } else {
            Fail(Session.UploadRejected, Session.UploadErrorText(Session.UploadRejected));
          }
      }
    }

    /** `submitAnswer(answer)`, with the reply to the verification. */
    method SubmitAnswer(answer: string, verify: Reply<VerifyAnswerResponse>)
      requires Valid()
      modifies this
      ensures Model() == Session.SubmitAnswer(old(Model()), answer, verify)
      ensures Valid()
    {
      ghost var s0 := Model();
      SessionProperties.SubmitKeepsInvariant(s0, answer, verify);
      if !(Truthy(sessionId) && Truthy(currentQuestionId)) {
        return;
      }
      var sid := sessionId.value;
      var qid := currentQuestionId.value;
      SetLoading(true);
      SetError(None);
      AddMessage(User, answer, None);
      AddTypingIndicator();
      calls := calls + [VerifyAnswer(qid, sid, answer)];
      assert Model() == Session.Call(Session.AddTypingIndicator(Session.AddMessage(Session.SetError(Session.SetLoading(s0, true), None),
                                                                                   User, answer, None)),
                                     VerifyAnswer(qid, sid, answer));
      VerifySettled(sid, verify);
      ghost var s2 := Model();
      SetLoading(false);
      assert Model() == Session.SetLoading(s2, false);
    }

    /** The verify request has settled. */
    method VerifySettled(sid: string, verify: Reply<VerifyAnswerResponse>)
      modifies this
      ensures Model() == Session.VerifySettled(old(Model()), sid, verify)
    {
      match Intercept(verify) {
        case Thrown(msg) =>
          Fail(msg, Session.VerifyErrorText(msg));
        case Resolved(r) =>
          RemoveTypingIndicator();
          if r.success {
            Graded(sid, r);
          } else {
            Fail(Session.VerifyRejected, Session.VerifyErrorText(Session.VerifyRejected));
          }
      }
    }

    /** The verification was accepted. */
    method Graded(sid: string, r: VerifyAnswerResponse)
      modifies this
      ensures Model() == Session.Graded(old(Model()), sid, r)
    {
      AddMessage(Bot, Session.FeedbackText(r.validation), Some(Session.FeedbackMetadata(r.validation)));
      ghost var s1 := Model();
      var a := r.authenticationStatus;
      if a.status != InProgress {
        step := Result;
        finalScore := Some(a.score);
        authStatus := Some(a.status);
        timers := timers + [Session.ShowFinalMessage(Session.FinalMessage(a))];
        assert Model() == s1.(state := s1.state.(step := Result, finalScore := Some(a.score), authStatus := Some(a.status)),
                              timers := s1.timers + [Session.ShowFinalMessage(Session.FinalMessage(a))]);
      } else {
        timers := timers + [Session.FetchNextQuestion(sid)];
        assert Model() == s1.(timers := s1.timers + [Session.FetchNextQuestion(sid)]);
      }
    }

    /** `resetAuth()`, with the freshly generated user id. */
    method ResetAuth(newUserId: string)
      requires Valid()
      modifies this
      ensures Model() == Session.ResetAuth(old(Model()), newUserId)
      ensures Valid()
    {
      SessionProperties.ResetKeepsInvariant(Model(), newUserId);
      step := Upload;
      userId := newUserId;
      dataId := None;
      sessionId := None;
      currentQuestionId := None;
      totalTransactions := None;
      messages := [Session.Welcome];
      isLoading := false;
      error := None;
      finalScore := None;
      authStatus := None;
    }

    /** Pending timer `i` fires; a question fetch gets the server's reply. */
    method FireTimer(i: nat, question: Reply<QuestionsResponse>)
      requires Valid() && i < |timers|
      modifies this
      ensures Model() == Session.FireTimer(old(Model()), i, question)
      ensures Valid()
    {
      ghost var s0 := Model();
      var t := timers[i];
      timers := timers[..i] + timers[i + 1..];
      match t {
        case ShowFinalMessage(content) =>
          AddMessage(Bot, content, None);
        case FetchNextQuestion(sid) =>
          GetNextQuestion(sid, question);
      }
      SessionProperties.FireKeepsInvariant(s0, i, question);
    }
  }
}
