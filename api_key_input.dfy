/** The API-key form: the key and error-text state, the blank-then-prefix validation
    run on submit, and the clearing of the error on every edit. */
module ApiKeyInput {
  import Text
  import opened Options

  const BlankKeyError := "Please enter your OpenAI API key"
  const FormatError := "Invalid API key format. OpenAI API keys start with \"sk-\""
  const KeyPrefix := "sk-"

  /** The error a submit shows for `key`, or `None` when the key is accepted. The blank
      test comes first, so a whitespace-only key always gets the blank-key error; the
      prefix test looks at the key as typed, not trimmed. */
  function KeyError(key: string): (r: Option<string>)
    ensures r == Some(BlankKeyError) <==> Text.IsBlank(key)
    ensures r == Some(FormatError) <==> !Text.IsBlank(key) && !(KeyPrefix <= key)
    ensures r == None <==> !Text.IsBlank(key) && KeyPrefix <= key
  {
    if Text.Trim(key) == [] then Some(BlankKeyError)
    else if !(KeyPrefix <= key) then Some(FormatError)
    else None
  }

  /** A key that starts with whitespace is never accepted: either it is blank, or its
      first character cannot begin `sk-`. */
  lemma LeadingWhitespaceRejected(key: string)
    requires |key| > 0 && Text.IsWhitespace(key[0])
    ensures KeyError(key).Some?
    ensures !Text.IsBlank(key) ==> KeyError(key) == Some(FormatError)
  {
  }

  /** The key `" sk-x"` is rejected with the format error, not the blank-key error. */
  lemma SpacedKeyGetsFormatError()
    ensures KeyError(" sk-x") == Some(FormatError)
  {
    assert !Text.IsWhitespace(" sk-x"[1]);
  }

  class KeyForm {
    var apiKey: string
    /** The error text shown under the input; empty when there is none. */
    var error: string

    constructor ()
      ensures apiKey == "" && error == ""
    {
      apiKey := "";
      error := "";
    }

    /** `onChange`: the key takes the new value and any error is cleared. */
    method Edit(value: string)
      modifies this
      ensures apiKey == value && error == ""
    {
      apiKey := value;
      error := "";
    }

    /** `handleSubmit`: a rejected key sets its error and `onSubmit` is not called; an
        accepted key clears the error and is passed to `onSubmit` unchanged. The result
        is the argument `onSubmit` was called with, if it was called. */
    method HandleSubmit() returns (submitted: Option<string>)
      modifies this
      ensures apiKey == old(apiKey)
      ensures submitted.Some? <==> KeyError(apiKey).None?
      ensures submitted.Some? ==> submitted.value == apiKey && error == ""
      ensures submitted.None? ==> error == KeyError(apiKey).value
    {
      if Text.Trim(apiKey) == [] {
        error := BlankKeyError;
        return None;
      }
      if !(KeyPrefix <= apiKey) {
        error := FormatError;
        return None;
      }
      error := "";
      submitted := Some(apiKey);
    }
  }
}
