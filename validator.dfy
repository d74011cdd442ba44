/** The request checks run before a chat turn: the session identifier and
    the message must be non-blank strings, and are passed on trimmed. */
module Validator {
  import opened Wrappers
  import opened Text
  import opened Constants

  /** A request field as it arrives: missing (or null), a string, or some
      other JSON value. */
  datatype RequestValue = Missing | Str(value: string) | NotString

  /** The shared check: a string that is not blank once trimmed, passed on
      trimmed; anything else is refused. (`!value` refuses the empty string
      before the type test; the blank test refuses it as well.) */
  function NonBlank(f: RequestValue): Option<string> {
    if f.Str? && Trim(f.value) != "" then Some(Trim(f.value)) else None
  }

  /** `validateChatMessage`: the session identifier is checked first, then
      the message; on success both are handed on trimmed. */
  function ValidateChatMessage(sessionId: RequestValue, message: RequestValue): Result<(string, string), string> {
    match NonBlank(sessionId)
    case None => Err(InvalidSession)
    case Some(id) =>
      match NonBlank(message)
      case None => Err(InvalidMessage)
      case Some(text) => Ok((id, text))
  }

  /** `validateSessionId`, on the path parameter. */
  function ValidateSessionId(sessionId: RequestValue): Result<string, string> {
    match NonBlank(sessionId)
    case None => Err(InvalidSession)
    case Some(id) => Ok(id)
  }

  /** A field passes exactly when it is a string with a character that is
      not white space, and what is passed on is that string trimmed, which
      is never blank and neither starts nor ends with white space. */
  lemma NonBlankSpec(f: RequestValue)
    ensures NonBlank(f).Some? <==> f.Str? && exists i :: 0 <= i < |f.value| && !IsWhitespace(f.value[i])
    ensures NonBlank(f).Some? ==>
              && NonBlank(f).value == Trim(f.value)
              && NonBlank(f).value != ""
              && !IsWhitespace(NonBlank(f).value[0])
              && !IsWhitespace(NonBlank(f).value[|NonBlank(f).value| - 1])
  {
    if f.Str? {
      TrimEmptyIff(f.value);
      TrimSpec(f.value);
    }
  }

  /** What the downstream code can rely on: the pair handed on passes the
      check again unchanged, so nothing past the validator sees a blank
      identifier or message. */
  lemma ValidatedIsStable(sessionId: RequestValue, message: RequestValue)
    requires ValidateChatMessage(sessionId, message).Ok?
    ensures var (id, text) := ValidateChatMessage(sessionId, message).value;
            ValidateChatMessage(Str(id), Str(text)) == Ok((id, text))
            && id != "" && text != ""
  {
    TrimIdempotent(sessionId.value);
    TrimIdempotent(message.value);
  }

  /** The identifier is checked before the message: a bad identifier is
      reported whatever the message is. */
  lemma SessionCheckedFirst(sessionId: RequestValue, message: RequestValue)
    ensures NonBlank(sessionId).None? ==> ValidateChatMessage(sessionId, message) == Err(InvalidSession)
    ensures NonBlank(sessionId).Some? && NonBlank(message).None? ==>
              ValidateChatMessage(sessionId, message) == Err(InvalidMessage)
  {
  }

  /** The path check agrees with the identifier part of the body check. */
  lemma SessionChecksAgree(sessionId: RequestValue, message: RequestValue)
    requires NonBlank(message).Some?
    ensures ValidateSessionId(sessionId).Ok? <==> ValidateChatMessage(sessionId, message).Ok?
    ensures ValidateSessionId(sessionId).Ok? ==>
              ValidateSessionId(sessionId).value == ValidateChatMessage(sessionId, message).value.0
  {
  }

  /** Blank, missing and non-string identifiers are refused. */
  lemma ValidatorExamples()
    ensures ValidateSessionId(Missing) == Err(InvalidSession)
    ensures ValidateSessionId(NotString) == Err(InvalidSession)
    ensures ValidateSessionId(Str(" \t")) == Err(InvalidSession)
    ensures ValidateChatMessage(Str(" abc "), Str(" hi")) == Ok(("abc", "hi"))
  {
    assert Trim(" \t") == "" by {
      assert TrimStart(" \t") == TrimStart("\t");
    }
    assert Trim(" abc ") == "abc" by {
      assert TrimStart(" abc ") == "abc ";
      assert TrimEnd("abc ") == "abc";
    }
    assert Trim(" hi") == "hi" by {
      assert TrimStart(" hi") == "hi";
      assert TrimEnd("hi") == "hi";
    }
  }
}
