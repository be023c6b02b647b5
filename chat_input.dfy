/** The answer box: one piece of component state, the text being typed,
    which every keystroke overwrites and a successful submit clears; the
    guard that decides whether the text is handed to `onSubmit`; and the
    enabled/disabled and placeholder logic of the input and the button. */
module ChatInput {
  import opened AuthTypes
  import Text

  /** The component's properties; `disabled` and `placeholder` may be
      omitted and then take their defaults. */
  datatype Props = Props(isLoading: bool, disabled: Option<bool>, placeholder: Option<string>)

  const DefaultPlaceholder := "Type your answer..."
  const WaitPlaceholder := "Please wait..."
  const CounterThreshold := 100

  function Disabled(p: Props): bool {
    if p.disabled.Some? then p.disabled.value else false
  }

  function PlaceholderProp(p: Props): string {
    if p.placeholder.Some? then p.placeholder.value else DefaultPlaceholder
  }

  /** What `handleSubmit` hands to `onSubmit` for the text `message`, if
      anything: the trimmed text, when it is non-empty and neither the
      session is loading nor the input disabled. */
  function Submission(message: string, p: Props): Option<string> {
    var trimmed := Text.Trim(message);
    if trimmed != [] && !p.isLoading && !Disabled(p) then Some(trimmed) else None
  }

  /** `e.key === 'Enter' && !e.shiftKey`. */
  predicate IsSubmitKey(key: string, shiftKey: bool) {
    key == "Enter" && !shiftKey
  }

  /** The send button's `disabled`. */
  predicate SendButtonDisabled(message: string, p: Props) {
    Text.Trim(message) == [] || p.isLoading || Disabled(p)
  }

  /** The text input's `disabled`. */
  predicate InputDisabled(p: Props) {
    Disabled(p) || p.isLoading
  }

  function Placeholder(p: Props): string {
    if Disabled(p) then WaitPlaceholder else PlaceholderProp(p)
  }

  /** `message.length`: JavaScript counts UTF-16 code units, so a character
      outside the Basic Multilingual Plane counts twice. */
  function Utf16Length(s: string): nat {
    if s == [] then 0 else Utf16Length(s[..|s| - 1]) + (if s[|s| - 1] as int > 0xFFFF then 2 else 1)
  }

  predicate ShowCharCount(message: string) {
    Utf16Length(message) > CounterThreshold
  }

  class AnswerBox {
    /** The `message` state. */
    var message: string

    constructor ()
      ensures message == []
    {
      message := [];
    }

    /** The input's `onChange`: the typed value replaces the text. */
    method OnChange(value: string)
      modifies this
      ensures message == value
    {
      message := value;
    }

    /** `handleSubmit`: returns what is passed to `onSubmit` (nothing when
        the guard fails) and clears the text only after a submission. */
    method HandleSubmit(p: Props) returns (submitted: Option<string>)
      modifies this
      ensures submitted == Submission(old(message), p)
      ensures message == if submitted.Some? then [] else old(message)
    {
      var trimmed := Text.Trim(message);
      if trimmed != [] && !p.isLoading && !Disabled(p) {
        submitted := Some(trimmed);
        message := [];
      } else {
        submitted := None;
      }
    }

    /** `handleKeyPress`: Enter without Shift submits; any other key leaves
        everything as it was. */
    method HandleKeyPress(key: string, shiftKey: bool, p: Props) returns (submitted: Option<string>)
      modifies this
      ensures submitted == if IsSubmitKey(key, shiftKey) then Submission(old(message), p) else None
      ensures message == if submitted.Some? then [] else old(message)
    {
      if key == "Enter" && !shiftKey {
        submitted := HandleSubmit(p);
      } else {
        submitted := None;
      }
    }
  }

  // ---------------------------------------------------------------- properties

  /** What reaches `onSubmit` is the trimmed text: non-empty, without
      surrounding white space, and unchanged by a second trim. */
  lemma SubmissionIsTrimmed(message: string, p: Props)
    ensures Submission(message, p).Some? ==>
      var t := Submission(message, p).value;
      && t == Text.Trim(message) && t != []
      && !Text.IsSpace(t[0]) && !Text.IsSpace(t[|t| - 1])
      && Text.Trim(t) == t
  {
    Text.TrimIdempotent(message);
  }

  /** The guard: something is submitted exactly when the text is not all
      white space, the session is not loading and the input is not disabled. */
  lemma SubmissionGuard(message: string, p: Props)
    ensures Submission(message, p).Some? <==> !Text.AllSpace(message) && !p.isLoading && !Disabled(p)
  {
    Text.TrimEmptyIff(message);
  }

  /** The send button is disabled exactly when a submit would do nothing. */
  lemma SendButtonMatchesGuard(message: string, p: Props)
    ensures SendButtonDisabled(message, p) <==> Submission(message, p).None?
  {
  }

  /** The input is disabled exactly when `disabled` or `isLoading` holds;
      a disabled input shows "Please wait...", an enabled one the given
      placeholder or the default. */
  lemma InputAppearance(p: Props)
    ensures InputDisabled(p) <==> (p.disabled == Some(true) || p.isLoading)
    ensures Disabled(p) ==> Placeholder(p) == WaitPlaceholder
    ensures !Disabled(p) ==> Placeholder(p) == (if p.placeholder.Some? then p.placeholder.value else DefaultPlaceholder)
  {
  }

  /** An enabled input can still refuse a submission only for lack of text:
      when the input accepts typing, the button follows the text alone. */
  lemma EnabledInputSubmitsText(message: string, p: Props)
    requires !InputDisabled(p)
    ensures Submission(message, p) == if Text.AllSpace(message) then None else Some(Text.Trim(message))
  {
    Text.TrimEmptyIff(message);
  }

  /** The counted length is between the number of characters and twice it,
      and equals it when no character lies outside the Basic Multilingual
      Plane. */
  lemma {:induction false} Utf16LengthBounds(s: string)
    ensures |s| <= Utf16Length(s) <= 2 * |s|
    ensures (forall i :: 0 <= i < |s| ==> s[i] as int <= 0xFFFF) ==> Utf16Length(s) == |s|
  {
    if s != [] {
      var init := s[..|s| - 1];
      Utf16LengthBounds(init);
      if forall i :: 0 <= i < |s| ==> s[i] as int <= 0xFFFF {
        assert forall i :: 0 <= i < |init| ==> init[i] == s[i];
      }
    }
  }

  /** The counter appears once the text has more than 100 characters, and
      for text inside the Basic Multilingual Plane exactly then. */
  lemma CharCountThreshold(s: string)
    ensures |s| > CounterThreshold ==> ShowCharCount(s)
    ensures (forall i :: 0 <= i < |s| ==> s[i] as int <= 0xFFFF) ==> (ShowCharCount(s) <==> |s| > CounterThreshold)
  {
    Utf16LengthBounds(s);
  }
}
