/** The transcript helpers of the session hook (`addTypingIndicator`,
    `removeTypingIndicator`): list transforms over the message sequence that
    keep at most one "bot is typing" placeholder, identified by its id. */
module Transcript {
  import opened AuthTypes

  /** The placeholder entry: an empty bot message flagged as typing. */
  const TypingIndicator := Message(TypingIndicatorId, Bot, "", true, None)

  predicate IsTypingIndicator(m: Message) {
    m.id == TypingIndicatorId
  }

  predicate NoTypingIndicator(messages: seq<Message>) {
    forall i :: 0 <= i < |messages| ==> !IsTypingIndicator(messages[i])
  }

  function CountTypingIndicators(messages: seq<Message>): nat {
    if messages == [] then 0
    else (if IsTypingIndicator(messages[0]) then 1 else 0) + CountTypingIndicators(messages[1..])
  }

  /** `messages.filter(p)`: the messages satisfying `p`, in order. */
  function Filter(ms: seq<Message>, p: Message -> bool): seq<Message> {
    if ms == [] then []
    else (if p(ms[0]) then [ms[0]] else []) + Filter(ms[1..], p)
  }

  lemma {:induction false} FilterLength(ms: seq<Message>, p: Message -> bool)
    ensures |Filter(ms, p)| <= |ms|
  {
    if ms != [] {
      FilterLength(ms[1..], p);
    }
  }

  /** Filtering distributes over concatenation. */
  lemma {:induction false} FilterAppend(a: seq<Message>, b: seq<Message>, p: Message -> bool)
    ensures Filter(a + b, p) == Filter(a, p) + Filter(b, p)
  {
    if a != [] {
      assert (a + b)[0] == a[0];
      assert (a + b)[1..] == a[1..] + b;
      FilterAppend(a[1..], b, p);
    } else {
      assert a + b == b;
    }
  }

  lemma FilterSingle(m: Message, p: Message -> bool)
    ensures Filter([m], p) == if p(m) then [m] else []
  {
    assert [m][1..] == [];
  }

  /** Filtering a transcript with one more message at its end. */
  lemma FilterSnoc(ms: seq<Message>, m: Message, p: Message -> bool)
    ensures Filter(ms + [m], p) == Filter(ms, p) + (if p(m) then [m] else [])
  {
    FilterAppend(ms, [m], p);
    FilterSingle(m, p);
  }

  /** Filtering a two-message tail. */
  lemma FilterPair(a: Message, b: Message, p: Message -> bool)
    ensures Filter([a, b], p) == (if p(a) then [a] else []) + (if p(b) then [b] else [])
  {
    assert [a, b] == [a] + [b];
    FilterAppend([a], [b], p);
    FilterSingle(a, p);
    FilterSingle(b, p);
  }

  /** The kept list is empty exactly when no message satisfies `p`. */
  lemma {:induction false} FilterEmptyIff(ms: seq<Message>, p: Message -> bool)
    ensures Filter(ms, p) == [] <==> forall i :: 0 <= i < |ms| ==> !p(ms[i])
  {
    if ms != [] {
      var tail := ms[1..];
      FilterEmptyIff(tail, p);
      if Filter(ms, p) == [] {
        forall i | 0 <= i < |ms| ensures !p(ms[i]) {
          if 0 < i {
            assert ms[i] == tail[i - 1];
          }
        }
      } else if !p(ms[0]) {
        var i :| 0 <= i < |tail| && p(tail[i]);
        assert ms[i + 1] == tail[i];
      }
    }
  }

  /** `messages.filter(m => m.id !== 'typing-indicator')`. */
  function RemoveTypingIndicator(messages: seq<Message>): seq<Message> {
    if messages == [] then []
    else (if IsTypingIndicator(messages[0]) then [] else [messages[0]])
         + RemoveTypingIndicator(messages[1..])
  }

  predicate IsReal(m: Message) {
    !IsTypingIndicator(m)
  }

  /** Dropping the placeholder is the filter that keeps every real message. */
  lemma {:induction false} RemoveIsFilter(messages: seq<Message>)
    ensures RemoveTypingIndicator(messages) == Filter(messages, IsReal)
  {
    if messages != [] {
      RemoveIsFilter(messages[1..]);
    }
  }

  /** Filter out any existing placeholder, then append a fresh one. */
  function AddTypingIndicator(messages: seq<Message>): seq<Message> {
    RemoveTypingIndicator(messages) + [TypingIndicator]
  }

  /** The filter leaves no placeholder, keeps only messages it was given and
      never lengthens the transcript. */
  lemma {:induction false} RemoveTypingIndicatorSpec(messages: seq<Message>)
    ensures var r := RemoveTypingIndicator(messages);
      && |r| <= |messages| && NoTypingIndicator(r)
      && (forall m :: m in r ==> m in messages)
  {
    if messages != [] {
      RemoveTypingIndicatorSpec(messages[1..]);
      var r := RemoveTypingIndicator(messages);
      var rest := RemoveTypingIndicator(messages[1..]);
      forall m | m in r ensures m in messages {
        if m !in rest {
          assert m == messages[0];
        } else {
          assert m in messages[1..];
        }
      }
    }
  }

  /** Filtering distributes over concatenation. */
  lemma {:induction false} RemoveDistributes(a: seq<Message>, b: seq<Message>)
    ensures RemoveTypingIndicator(a + b) == RemoveTypingIndicator(a) + RemoveTypingIndicator(b)
  {
    if a != [] {
      assert (a + b)[0] == a[0];
      assert (a + b)[1..] == a[1..] + b;
      RemoveDistributes(a[1..], b);
    } else {
      assert a + b == b;
    }
  }

  /** A transcript without a placeholder is left as it is. */
  lemma {:induction false} RemoveWhenAbsent(messages: seq<Message>)
    requires NoTypingIndicator(messages)
    ensures RemoveTypingIndicator(messages) == messages
  {
    if messages != [] {
      RemoveWhenAbsent(messages[1..]);
    }
  }

  /** Removing twice is removing once. */
  lemma RemoveIdempotent(messages: seq<Message>)
    ensures RemoveTypingIndicator(RemoveTypingIndicator(messages)) == RemoveTypingIndicator(messages)
  {
    RemoveTypingIndicatorSpec(messages);
    RemoveWhenAbsent(RemoveTypingIndicator(messages));
  }

  /** Removing right after adding leaves what removing alone leaves. */
  lemma RemoveAfterAdd(messages: seq<Message>)
    ensures RemoveTypingIndicator(AddTypingIndicator(messages)) == RemoveTypingIndicator(messages)
  {
    RemoveDistributes(RemoveTypingIndicator(messages), [TypingIndicator]);
    RemoveIdempotent(messages);
    assert RemoveTypingIndicator([TypingIndicator]) == [];
  }

  /** Appending a real message commutes with the filter. */
  lemma RemoveAfterAppend(messages: seq<Message>, m: Message)
    requires !IsTypingIndicator(m)
    ensures RemoveTypingIndicator(messages + [m]) == RemoveTypingIndicator(messages) + [m]
  {
    RemoveDistributes(messages, [m]);
    assert RemoveTypingIndicator([m]) == [m];
  }

  lemma {:induction false} CountWhenAbsent(messages: seq<Message>)
    requires NoTypingIndicator(messages)
    ensures CountTypingIndicators(messages) == 0
  {
    if messages != [] {
      CountWhenAbsent(messages[1..]);
    }
  }

  lemma {:induction false} CountDistributes(a: seq<Message>, b: seq<Message>)
    ensures CountTypingIndicators(a + b) == CountTypingIndicators(a) + CountTypingIndicators(b)
  {
    if a != [] {
      assert (a + b)[0] == a[0];
      assert (a + b)[1..] == a[1..] + b;
      CountDistributes(a[1..], b);
    } else {
      assert a + b == b;
    }
  }

  /** After adding the placeholder there is exactly one, it is last, and the
      other messages are the earlier ones without a placeholder, in order. */
  lemma AddTypingIndicatorSingle(messages: seq<Message>)
    ensures var r := AddTypingIndicator(messages);
      && CountTypingIndicators(r) == 1
      && r[|r| - 1] == TypingIndicator
      && r[..|r| - 1] == RemoveTypingIndicator(messages)
      && NoTypingIndicator(r[..|r| - 1])
  {
    var kept := RemoveTypingIndicator(messages);
    RemoveTypingIndicatorSpec(messages);
    CountDistributes(kept, [TypingIndicator]);
    CountWhenAbsent(kept);
    assert AddTypingIndicator(messages)[..|kept|] == kept;
  }

  /** Order preservation: a real message at position `i` lands at position
      "number of real messages before it" in the filtered transcript; as
      that number grows with `i`, the relative order is kept. */
  lemma RemoveKeepsOrder(messages: seq<Message>, i: nat)
    requires i < |messages| && !IsTypingIndicator(messages[i])
    ensures var k := |RemoveTypingIndicator(messages[..i])|;
      k < |RemoveTypingIndicator(messages)| && RemoveTypingIndicator(messages)[k] == messages[i]
  {
    assert messages == messages[..i] + messages[i..];
    RemoveDistributes(messages[..i], messages[i..]);
    assert messages[i..][0] == messages[i];
  }

  /** Every real message survives the filter (the filter drops placeholders only). */
  lemma RemoveKeepsReal(messages: seq<Message>, m: Message)
    requires m in messages && !IsTypingIndicator(m)
    ensures m in RemoveTypingIndicator(messages)
  {
    var i :| 0 <= i < |messages| && messages[i] == m;
    RemoveKeepsOrder(messages, i);
  }
}
