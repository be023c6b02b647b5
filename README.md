# Chat authentication client, modelled in Dafny

The client of a chat-style identity check runs in the browser. The user
uploads a sample of their bank transactions. The server opens an
authentication session and asks questions about those transactions. The
user types answers, and the server grades each one until it reaches a
verdict.

This project models the client side of that exchange:

- **The session controller** (`src/hooks/useAuth.ts`). It is the class
  `UseAuth.AuthController`, with one field per entry of the hook's
  `AuthState`. The browser-side state the hook relies on is also held in
  fields: a counter standing for fresh message ids, the pending
  `setTimeout` continuations, and the log of transport calls issued.
  - Every command performs the hook's `setState` updates one by one, in
    the source's order.
  - Each command is proved to end in exactly the state the matching
    function of module `Session` computes. `Session` is the same
    controller written as a reducer.
  - The properties are lemmas about those functions (module
    `SessionProperties`): each command's effect, how the step may move,
    and an invariant every public command keeps.
- **The transport client's response interceptor** (`src/services/api.ts`,
  module `Api`). It maps every failed request to one user-facing
  message. The module also models the request that `verifyAnswer` builds.
- **The "bot is typing" placeholder** (module `Transcript`). The hook
  adds it before a request and filters it out after.
- **The chat screen** (`src/components/ChatInterface.tsx`, module
  `ChatInterface`). It covers the current question and the progress
  numbers derived from the transcript, and which section is visible in
  which step.
- **The progress bar** (`src/components/ProgressBar.tsx`, module
  `ProgressBar`). It covers the step indicators, the fill percentage and
  the label.
- **The answer box** (`src/components/ChatInput.tsx`). It is the class
  `ChatInput.AnswerBox`, holding the one `message` state field, with
  pure functions for its guard, button and placeholder logic.

Three support modules complete the model:

- `AuthTypes` holds the records of `src/types/auth.types.ts`.
- `Decimal` renders integers the way template literals do.
- `Text` implements `String.prototype.trim` with the ECMAScript white-space
  set.

A command runs atomically. The server's replies are its parameters, of
type `Api.Reply`, which is either a response body or a transport error. A
deferred continuation runs when the command `FireTimer` picks it. Between
commands the loading flag is therefore always down, and this is part of
`Session.Invariant`.

Behaviours of the code a caller may not expect:

- `submitAnswer` checks only for a truthy session id and question id
  (useAuth.ts:232). It consults neither the loading flag nor the step. It is
  the answer box, not the command, that refuses input while loading
  (`ChatInterface.ScreenSubmissionCounted`).
- After an `in_progress` grading the question id stays set and the loading
  flag drops before the next question arrives 1500 ms later. In that window
  the same question can be answered again
  (`SessionProperties.InProgressAllowsResubmit`).
- `resetAuth` does not cancel pending timers, so a question fetch scheduled
  before a reset still lands afterwards (`SessionProperties.StaleFetchAfterReset`).
  The transcript is a single message only until then.
- A reset takes the new user id as a parameter. The model does not promise
  that it differs from the old one; the source draws it from the clock and
  a random number.

## Model

| member | source | states |
|---|---|---|
| Api.Intercept | src/services/api.ts:22-57 | a response passes through unchanged; every failure becomes a thrown error whose message is the classified, non-empty text |
| Api.Classify | src/services/api.ts:36-56 | every failure maps to a non-empty message by the ordered chain timeout, no response, server error, missing endpoint, server-supplied text |
| Api.AbortedIsTimeout | src/services/api.ts:36-38 | an aborted request is reported as a timeout whatever response it carries |
| Api.NoResponseIsNetwork | src/services/api.ts:41-44 | a failure without a response (not aborted) is reported as a network error |
| Api.StatusClasses | src/services/api.ts:47-56 | status >= 500 is a server error, 404 a missing endpoint, any other status reports the body's `message`, else its `error`, else the generic text |
| Api.FixedMessagesDistinct | src/services/api.ts:36-55 | the five fixed error texts are pairwise different |
| Api.VerifyAnswerRequest | src/services/api.ts:106-109 | the request carries the session id and the trimmed answer |
| Api.VerifyRequestRoundTrip | src/services/api.ts:106-109 | the question id can be read back from the request path for every id without '/', and the answer sent is already trimmed |
| Decimal.NatToString | src/hooks/useAuth.ts:143 | a number is rendered as a non-empty digit string without a leading zero |
| Decimal.IntToString | src/hooks/useAuth.ts:143 | the rendering is non-empty and starts with '-' exactly for negative numbers |
| Decimal.NatToStringRoundTrip | src/hooks/useAuth.ts:143 | reading the rendered digits back gives the number |
| Decimal.IntToStringInjective | src/hooks/useAuth.ts:206 | different integers render differently |
| Text.TrimStart | src/services/api.ts:108 | the result is a suffix of the input, what was dropped is all white space, and it does not start with white space |
| Text.TrimEnd | src/services/api.ts:108 | the result is a prefix of the input, what was dropped is all white space, and it does not end with white space |
| Text.TrimOffset | src/services/api.ts:108 | the number of leading white-space characters: all of them are white space and the next one is not |
| Text.Trim | src/components/ChatInput.tsx:30 | the result is no longer than the input and neither starts nor ends with white space |
| Text.TrimInfix | src/components/ChatInput.tsx:30 | the trimmed text is the input with white-space-only borders removed on both sides |
| Text.TrimIdempotent | src/services/api.ts:108 | trimming twice is trimming once |
| Text.TrimEmptyIff | src/components/ChatInput.tsx:30-32 | the trimmed text is empty exactly when the input is all white space |
| Transcript.RemoveTypingIndicatorSpec | src/hooks/useAuth.ts:56-61 | the filter leaves no placeholder, keeps only messages it was given and never lengthens the transcript |
| Transcript.RemoveKeepsReal | src/hooks/useAuth.ts:56-61 | every message that is not the placeholder survives the filter |
| Transcript.RemoveKeepsOrder | src/hooks/useAuth.ts:56-61 | a surviving message lands at the position given by the number of real messages before it, so order is kept |
| Transcript.RemoveDistributes | src/hooks/useAuth.ts:56-61 | filtering distributes over concatenation |
| Transcript.RemoveIsFilter | src/hooks/useAuth.ts:56-61 | dropping the placeholder is the general message filter with the test "not the placeholder" |
| Transcript.RemoveWhenAbsent | src/hooks/useAuth.ts:56-61 | a transcript without a placeholder is unchanged |
| Transcript.RemoveIdempotent | src/hooks/useAuth.ts:56-61 | removing twice is removing once |
| Transcript.RemoveAfterAdd | src/hooks/useAuth.ts:39-61 | removing right after adding gives what removing alone gives |
| Transcript.RemoveAfterAppend | src/hooks/useAuth.ts:25-61 | appending a real message commutes with the filter |
| Transcript.AddTypingIndicatorSingle | src/hooks/useAuth.ts:39-54 | after adding there is exactly one placeholder, it is last, and the rest is the old transcript without a placeholder |
| SessionProperties.QuestionIdInjective | src/hooks/useAuth.ts:206 | distinct question numbers give distinct ids `q_<number>` |
| SessionProperties.GetNextQuestionEffect | src/hooks/useAuth.ts:196-229 | the new state in full: the placeholder goes and exactly one bot message is appended, the question with its number and total, which becomes the current question id, or the fetch error, which is recorded; every other field, the step and the loading flag among them, is untouched |
| SessionProperties.StartSuccessEffect | src/hooks/useAuth.ts:164-194 | an accepted start moves to `auth` with the new session id, fetches the first question for it, appends exactly that question or its error, and ends not loading |
| SessionProperties.StartFailureAtStart | src/hooks/useAuth.ts:164-194 | a failed start leaves step and session as they were, records the error, narrates it in one bot message and ends not loading |
| SessionProperties.UploadChainsIntoStart | src/hooks/useAuth.ts:130-161 | a successful upload records the data id and count, appends the summary and hands over to `startAuthentication`, then drops the loading flag |
| SessionProperties.UploadClearsLoading | src/hooks/useAuth.ts:159-161 | the loading flag is down after an upload on every path |
| SessionProperties.UploadFailureEffect | src/hooks/useAuth.ts:130-158 | a failed upload records the error, appends one bot message narrating it, logs the upload call and ends not loading; step and session are untouched |
| SessionProperties.StartFailureEffect | src/hooks/useAuth.ts:134-194 | upload accepted but start failed: data recorded, summary then the start error appended, step unchanged |
| SessionProperties.UploadAndStartEffect | src/hooks/useAuth.ts:134-229 | upload and start accepted: step `auth`, session and data recorded, summary then first question (or its error) appended, calls upload, start, fetch in that order |
| SessionProperties.UploadStep | src/hooks/useAuth.ts:134-181 | after an upload the step is `auth` exactly when upload and start both succeeded, otherwise unchanged |
| SessionProperties.SubmitAnswerNoOp | src/hooks/useAuth.ts:232 | without a truthy session id and question id nothing at all changes |
| SessionProperties.SubmitAnswerCallsIff | src/hooks/useAuth.ts:232-250 | the verify call is issued exactly when the guard passes |
| SessionProperties.AnswerBeforePlaceholder | src/hooks/useAuth.ts:238-244 | the user's answer is appended before the placeholder |
| SessionProperties.SubmitAnswerFailureEffect | src/hooks/useAuth.ts:297-307 | a failed verification appends the answer and the error message, records the error and changes nothing else |
| SessionProperties.SubmitAnswerSuccessEffect | src/hooks/useAuth.ts:254-296 | the new state in full: a graded answer appends the answer and the feedback with confidence and correctness and clears the error; a final verdict moves to `result` with score and status and defers the closing message, `in_progress` defers the next fetch for the stored session id; the question id and every other field stay |
| SessionProperties.InProgressAllowsResubmit | src/hooks/useAuth.ts:231-310 | after an `in_progress` grading the question id stays set and nothing is loading, so until the deferred fetch fires a second answer to the same question passes the guard and is verified against the same id |
| SessionProperties.SubmitClearsLoading | src/hooks/useAuth.ts:308-310 | the loading flag is down after a submission on every path |
| SessionProperties.SubmitStep | src/hooks/useAuth.ts:272-278 | the step becomes `result` exactly on an accepted verdict other than `in_progress` |
| SessionProperties.FinalMessageWording | src/hooks/useAuth.ts:281-283 | the closing message is worded for success exactly when the status is `success` |
| SessionProperties.FireFinalMessageEffect | src/hooks/useAuth.ts:285-290 | the new state in full: the deferred closing message is appended as one bot message with the next id, the timer is consumed, and nothing else changes |
| SessionProperties.FireFetchEffect | src/hooks/useAuth.ts:293-295 | the new state in full: the deferred fetch asks for the next question of the session it was scheduled for, whatever the state holds by then, appends the question or its error, and consumes the timer |
| SessionProperties.FireStep | src/hooks/useAuth.ts:285-295 | no timer changes the step |
| SessionProperties.ResetEffect | src/hooks/useAuth.ts:313-318 | reset gives the welcome message alone, the `upload` step, the new user id and every optional field cleared; timers, the id counter and the call log are kept |
| SessionProperties.StaleFetchAfterReset | src/hooks/useAuth.ts:293-318 | a fetch scheduled before a reset shows its question on the fresh upload screen and sets a question id without a session id |
| SessionProperties.OnlyResetReturnsToUpload | src/hooks/useAuth.ts:71-311 | no command but reset ends in `upload` unless it started there |
| SessionProperties.InitialInvariant | src/hooks/useAuth.ts:8-20 | the initial state satisfies the invariant |
| SessionProperties.AddMessageKeepsInvariant | src/hooks/useAuth.ts:25-37 | appending a message with a fresh id keeps ids distinct |
| SessionProperties.UploadKeepsInvariant | src/hooks/useAuth.ts:71-162 | the upload command keeps the invariant |
| SessionProperties.SubmitKeepsInvariant | src/hooks/useAuth.ts:231-311 | the submit command keeps the invariant |
| SessionProperties.ResetKeepsInvariant | src/hooks/useAuth.ts:313-318 | reset keeps the invariant |
| SessionProperties.FireKeepsInvariant | src/hooks/useAuth.ts:285-295 | firing a timer keeps the invariant |
| UseAuth.AuthController.constructor | src/hooks/useAuth.ts:8-23 | the hook starts in `initialState` with the given user id, and the invariant holds |
| UseAuth.AuthController.AddMessage | src/hooks/useAuth.ts:25-37 | one message with a fresh id is appended; nothing else changes |
| UseAuth.AuthController.AddTypingIndicator | src/hooks/useAuth.ts:39-54 | the transcript becomes the filtered one plus the placeholder |
| UseAuth.AuthController.RemoveTypingIndicator | src/hooks/useAuth.ts:56-61 | the transcript becomes the filtered one |
| UseAuth.AuthController.SetLoading | src/hooks/useAuth.ts:63-65 | only the loading flag changes |
| UseAuth.AuthController.SetError | src/hooks/useAuth.ts:67-69 | only the error changes |
| UseAuth.AuthController.Fail | src/hooks/useAuth.ts:151-158 | the shared catch block: placeholder dropped, error recorded, failure narrated |
| UseAuth.AuthController.GetNextQuestion | src/hooks/useAuth.ts:196-229 | ends in the state `Session.GetNextQuestion` gives |
| UseAuth.AuthController.StartAuthentication | src/hooks/useAuth.ts:164-194 | ends in the state `Session.StartAuthentication` gives |
| UseAuth.AuthController.UploadSampleData | src/hooks/useAuth.ts:71-162 | ends in the state `Session.UploadSampleData` gives and keeps the invariant |
| UseAuth.AuthController.UploadSettled | src/hooks/useAuth.ts:130-158 | the settled upload ends in the state `Session.UploadSettled` gives |
| UseAuth.AuthController.SubmitAnswer | src/hooks/useAuth.ts:231-311 | ends in the state `Session.SubmitAnswer` gives and keeps the invariant |
| UseAuth.AuthController.VerifySettled | src/hooks/useAuth.ts:252-307 | the settled verification ends in the state `Session.VerifySettled` gives |
| UseAuth.AuthController.Graded | src/hooks/useAuth.ts:254-296 | an accepted verification ends in the state `Session.Graded` gives |
| UseAuth.AuthController.ResetAuth | src/hooks/useAuth.ts:313-318 | ends in the state `Session.ResetAuth` gives and keeps the invariant |
| UseAuth.AuthController.FireTimer | src/hooks/useAuth.ts:285-295 | ends in the state `Session.FireTimer` gives and keeps the invariant |
| Transcript.FilterLength | src/components/ChatInterface.tsx:27-31 | a filter never lengthens the transcript |
| Transcript.FilterAppend | src/components/ChatInterface.tsx:27-31 | filtering distributes over concatenation |
| Transcript.FilterEmptyIff | src/components/ChatInterface.tsx:20-22 | a filter yields nothing exactly when no message satisfies the test |
| ChatInterface.CurrentQuestionIsLast | src/components/ChatInterface.tsx:20-22 | the current question is the last bot message with a truthy question number, and there is one exactly when some message qualifies |
| ChatInterface.NoQuestionNoProgress | src/components/ChatInterface.tsx:24-25 | progress and total are 0 without a current question; progress is non-zero exactly when one exists |
| ChatInterface.CountersBounded | src/components/ChatInterface.tsx:27-31 | `questionsAsked` and `questionsCorrect` never exceed the number of messages |
| ChatInterface.DeliveredQuestionBecomesCurrent | src/components/ChatInterface.tsx:20-25 | a delivered question with a non-zero number becomes current, and progress and total show its number and total |
| ChatInterface.QuestionZeroSkipped | src/components/ChatInterface.tsx:20-24 | a question numbered 0 is not taken as current; the progress stays |
| ChatInterface.SubmitCountsAnswer | src/components/ChatInterface.tsx:27-28 | an accepted non-empty answer raises `questionsAsked` by one, whatever the server replies |
| ChatInterface.SubmitCountsCorrect | src/components/ChatInterface.tsx:30-31 | `questionsCorrect` rises by one exactly for an accepted answer graded correct |
| ChatInterface.ResultViewShowsVerdict | src/components/ChatInterface.tsx:89-92 | between commands a shown result never holds `in_progress`, so the view receives the server's verdict unchanged |
| ChatInterface.SectionsExclusive | src/components/ChatInterface.tsx:59-112 | upload section, result view and input are mutually exclusive; the progress bar appears only with the input |
| ChatInterface.ShownInputEnabled | src/components/ChatInterface.tsx:105-111 | when shown, the input is never disabled by the screen, shows the screen's placeholder, and is greyed out exactly while loading |
| ChatInterface.ResultShownInResultStep | src/components/ChatInterface.tsx:78-105 | between commands the result view shows exactly in the `result` step, and one section always shows |
| ChatInterface.ScreenSubmissionCounted | src/components/ChatInterface.tsx:105-110 | the screen submits only in `auth`, only while not loading, only the trimmed text, and each accepted submission is counted once |
| ProgressBar.IndicatorsNumbered | src/components/ProgressBar.tsx:44-45 | exactly `totalSteps` indicators (none if it is not positive), numbered 1.. in order |
| ProgressBar.IndicatorClasses | src/components/ProgressBar.tsx:46-57 | each indicator is completed, current or pending exactly as its number is below, at or above the current step |
| ProgressBar.AtMostOneCurrent | src/components/ProgressBar.tsx:45-47 | at most one indicator is current, and one is exactly when the current step is within 1..totalSteps |
| ProgressBar.CompletedPrefix | src/components/ProgressBar.tsx:45-47 | completed indicators form a prefix and pending ones a suffix |
| ProgressBar.CompletedCount | src/components/ProgressBar.tsx:44-46 | the number of completed indicators is `currentStep - 1` clamped to the number of indicators |
| ProgressBar.PercentageBounds | src/components/ProgressBar.tsx:17 | the percentage is 0 without steps, within 0..100 while the step is within range, and 100 at the last step |
| ProgressBar.CorrectLabelDefaults | src/components/ProgressBar.tsx:14-26 | the label shows exactly when a positive count of questions asked is given; missing counts default to 0 |
| ChatInput.AnswerBox.constructor | src/components/ChatInput.tsx:19 | the text starts empty |
| ChatInput.AnswerBox.OnChange | src/components/ChatInput.tsx:52 | the typed value replaces the text |
| ChatInput.AnswerBox.HandleSubmit | src/components/ChatInput.tsx:28-36 | hands over the trimmed text when the guard passes, and clears the text exactly then; otherwise nothing changes |
| ChatInput.AnswerBox.HandleKeyPress | src/components/ChatInput.tsx:38-43 | Enter without Shift submits; any other key changes nothing |
| ChatInput.SubmissionIsTrimmed | src/components/ChatInput.tsx:30-33 | what reaches `onSubmit` is the trimmed text: non-empty, no surrounding white space, fixed by trimming |
| ChatInput.SubmissionGuard | src/components/ChatInput.tsx:32 | something is submitted exactly when the text is not all white space, nothing is loading and the box is not disabled |
| ChatInput.EnabledInputSubmitsText | src/components/ChatInput.tsx:28-36 | with the box enabled, the text alone decides: all white space submits nothing, otherwise its trim |
| ChatInput.SendButtonMatchesGuard | src/components/ChatInput.tsx:70 | the send button is disabled exactly when a submit would do nothing |
| ChatInput.InputAppearance | src/components/ChatInput.tsx:54-55 | the input is disabled exactly when `disabled` or loading; disabled shows "Please wait...", enabled the given or default placeholder |
| ChatInput.Utf16LengthBounds | src/components/ChatInput.tsx:60 | the UTF-16 length is between the character count and twice it, and equals it inside the Basic Multilingual Plane |
| ChatInput.CharCountThreshold | src/components/ChatInput.tsx:60 | the counter appears once the text exceeds 100 characters, and inside the Basic Multilingual Plane exactly then |

## Left out

- The network and axios: base URL, timeout, headers and logging
  (api.ts:10-34) are left out. The request helpers are reduced to the call
  they issue (`Api.ApiCall`) and the reply they yield (`Api.Reply`).
- `getSessionStatus` (api.ts:115-118): no part of the controller calls it.
- The CSV upload request: the hard-coded sample file, `Blob` and `File`
  (useAuth.ts:78-128), and the form fields are left out. The upload call
  records only the user id.
- Interleaving at `await` points: each command runs to completion before
  the next one. A second command started while a request is in flight is
  not modelled, and neither are React's stale closures. The timer
  continuation does use the session id captured when it was scheduled.
- Timestamps, and the randomness of `generateUserId` and
  `generateMessageId`: a message id is the order in which it was
  generated, which assumes random ids never collide. A new user id is a
  parameter.
- Floating-point numbers: confidence, score and question numbers are
  integers, so `Math.round` (useAuth.ts:259) is the identity here. NaN
  truthiness and the rendering of non-integers or of numbers of 1e21 and
  beyond are not modelled.
- ProgressBar.PercentageBounds: the percentage is computed on exact
  rationals, not on IEEE doubles, so rounding of the division is not
  modelled.
- The `instanceof Error` fallbacks in the catch blocks: the interceptor
  and the hook always throw `Error`, so the fallback texts ('Failed to get
  question', 'Failed to submit answer', …) are unreachable in the model.
  Response bodies with missing or mistyped fields are not modelled: the
  reply datatypes require every field. In the source they surface as a
  TypeError message or as 'undefined' in the text.
- The `isTyping` flag passed through the returned `addMessage`: the model's
  `AddMessage` always appends a message that is not typing.
- Presentation: scrolling, focus (the `useEffect` blocks), icons, class
  names, the `currentStep/totalSteps` and `n/500` texts, `MessageBubble`,
  `AuthResult`, `DebugPanel` and the upload button component.
- The wiring of the upload section: `ChatInterface.tsx` reads `uploadFile`
  from the hook, which returns `uploadSampleData` instead, and passes it
  as `onFileSelect` where the component expects `onDataSelect`. The model
  takes the upload button to run `uploadSampleData`.
- `questionsAsked` and `questionsCorrect` are declared in the `AuthState`
  type but never held by the hook. The screen derives them from the
  transcript, and so does the model.
