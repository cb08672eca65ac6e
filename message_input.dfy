/**
 * The message input (`MessageInput`): one text field, overwritten as the user types and cleared after a
 * submit that passes the guard. Its only inputs are the send callback and `loading`; there is no
 * `disabled` input, so the message count never gates a submit.
 */
module MessageInput {
  import opened Wrappers
  import opened Text

  /** The guard of `handleSubmit`: the text is not blank and no send is in flight. */
  predicate WouldSend(message: string, loading: bool) {
    !IsBlank(message) && !loading
  }

  class InputField {
    var message: string

    constructor ()
      ensures message == ""
    {
      message := "";
    }

    /** `onChange`: the field holds what was typed. */
    method OnChange(text: string)
      modifies this
      ensures message == text
    {
      message := text;
    }

    /**
     * `handleSubmit`: when the guard holds, the text as typed (untrimmed) is handed to `onSendMessage`
     * and the field is cleared; otherwise nothing is sent and the field keeps its text.
     */
    method HandleSubmit(loading: bool) returns (sent: Option<string>)
      modifies this
      ensures WouldSend(old(message), loading) ==> sent == Some(old(message)) && message == ""
      ensures !WouldSend(old(message), loading) ==> sent == None && message == old(message)
    {
      if !IsBlank(message) && !loading {
        sent := Some(message);
        message := "";
      } else {
        sent := None;
      }
    }

    /** The send button's `disabled`: exactly when a submit would send nothing. */
    function SendButtonDisabled(loading: bool): (disabled: bool)
      reads this
      ensures disabled <==> !WouldSend(message, loading)
    {
      loading || IsBlank(message)
    }

    /** The text box's `disabled`: only while a send is in flight. */
    function TextBoxDisabled(loading: bool): (disabled: bool)
      ensures disabled == loading
    {
      loading
    }
  }

  /** A sent message is never blank and, since a blank text is one of whitespace only, holds a visible character. */
  lemma {:induction false} SentTextVisible(message: string, loading: bool)
    requires WouldSend(message, loading)
    ensures message != [] && exists i :: 0 <= i < |message| && !IsWhitespace(message[i])
  {
    BlankIffAllWhitespace(message);
  }

  /** A whitespace-only text is never sent, however short or long. */
  lemma {:induction false} WhitespaceNeverSent(message: string, loading: bool)
    requires forall i :: 0 <= i < |message| ==> IsWhitespace(message[i])
    ensures !WouldSend(message, loading)
  {
    BlankIffAllWhitespace(message);
  }
}
