/** The message box under the conversation: its text state, the submit guard, the
    Enter-versus-Shift+Enter rule and the send button's disabled state. */
module ChatInput {
  import Text
  import opened Options

  /** The guard `message.trim() && !disabled`: the box holds a non-whitespace
      character and the parent has not disabled it. */
  function ShouldSend(message: string, disabled: bool): (r: bool)
    ensures r <==> !disabled && exists i :: 0 <= i < |message| && !Text.IsWhitespace(message[i])
  {
    Text.Trim(message) != [] && !disabled
  }

  /** The send button's `disabled={!message.trim() || disabled}`: disabled exactly when a
      submit would be refused. */
  function SendButtonDisabled(message: string, disabled: bool): (r: bool)
    ensures r <==> !ShouldSend(message, disabled)
  {
    Text.Trim(message) == [] || disabled
  }

  /** A key press submits the form only for Enter without Shift; Shift+Enter is left
      to the textarea, which inserts a line break. */
  predicate SubmitsOnKey(key: string, shiftKey: bool)
  {
    key == "Enter" && !shiftKey
  }

  class Composer {
    /** The textarea's contents. */
    var message: string

    constructor ()
      ensures message == ""
    {
      message := "";
    }

    /** `onChange`: the box takes whatever the textarea now holds. */
    method Edit(value: string)
      modifies this
      ensures message == value
    {
      message := value;
    }

    /** `handleSubmit`: when the guard holds, `onSend` receives the message exactly as
        typed and the box is emptied; otherwise nothing is sent and the box keeps its
        text. The result is the argument `onSend` was called with, if it was called. */
    method HandleSubmit(disabled: bool) returns (sent: Option<string>)
      modifies this
      ensures sent.Some? <==> ShouldSend(old(message), disabled)
      ensures sent.Some? ==> sent.value == old(message) && message == ""
      ensures sent.None? ==> message == old(message)
    {
      if Text.Trim(message) != [] && !disabled {
        sent := Some(message);
        message := "";
      } else {
        sent := None;
      }
    }

    /** `handleKeyDown`: Enter without Shift prevents the default line break and
        submits; any other key, Shift+Enter included, leaves everything unchanged. */
    method HandleKeyDown(key: string, shiftKey: bool, disabled: bool) returns (prevented: bool, sent: Option<string>)
      modifies this
      ensures prevented <==> SubmitsOnKey(key, shiftKey)
      ensures sent.Some? <==> SubmitsOnKey(key, shiftKey) && ShouldSend(old(message), disabled)
      ensures sent.Some? ==> sent.value == old(message) && message == ""
      ensures sent.None? ==> message == old(message)
    {
      prevented := key == "Enter" && !shiftKey;
      if prevented {
        sent := HandleSubmit(disabled);
      } else {
        sent := None;
      }
    }
  }
}
