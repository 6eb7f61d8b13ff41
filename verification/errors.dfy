/** The provider error type of pkg/tts/errors.go and its message text. */
module Errors {
  import opened Wrappers

  /**
   * A provider error. `err` is the text of the wrapped error, `None` when
   * it is nil. The code is carried but not part of the message.
   */
  datatype TtsError = TtsError(provider: string, code: string, message: string, err: Option<string>)

  /** The "[provider] " tag every message starts with. */
  function Tag(provider: string): string
  {
    "[" + provider + "] "
  }

  /** TTSError.Error: the tag and the message, then ": " and the wrapped error's text when there is one. */
  function ErrorText(e: TtsError): (text: string)
    ensures |text| >= |e.provider| + 3 + |e.message|
    ensures text[..|e.provider| + 3] == Tag(e.provider)
  {
    if e.err.Some? then
      "[" + e.provider + "] " + e.message + ": " + e.err.value
    else
      "[" + e.provider + "] " + e.message
  }

  /** Without a wrapped error the text is exactly the tag and the message. */
  lemma ErrorTextWithoutCause(provider: string, code: string, message: string)
    ensures ErrorText(TtsError(provider, code, message, None)) == Tag(provider) + message
  {
  }

  /** With a wrapped error the text is the tag, the message, ": " and the wrapped text. */
  lemma ErrorTextWithCause(provider: string, code: string, message: string, cause: string)
    ensures ErrorText(TtsError(provider, code, message, Some(cause))) == Tag(provider) + message + ": " + cause
  {
  }

  /** The text without a wrapped error is a strict prefix of the text with one. */
  lemma CauseExtendsText(provider: string, code: string, message: string, cause: string)
    ensures ErrorText(TtsError(provider, code, message, None)) < ErrorText(TtsError(provider, code, message, Some(cause)))
  {
    var short := ErrorText(TtsError(provider, code, message, None));
    var long := ErrorText(TtsError(provider, code, message, Some(cause)));
    assert long == short + (": " + cause);
  }

  /** The code never shows in the text. */
  lemma CodeNotShown(e: TtsError, code: string)
    ensures ErrorText(e.(code := code)) == ErrorText(e)
  {
  }
}
