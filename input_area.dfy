/** The message box of frontend-new/src/components/InputArea.jsx: its one
    state field `input` and the guard that decides when `onSend` fires. */
module InputArea {
  import opened Base
  import opened Text

  /** `input.trim() && !isLoading` */
  predicate CanSend(input: string, isLoading: bool)
  {
    Trim(input) != "" && !isLoading
  }

  /** The send button's `disabled={!input.trim() || isLoading}`. */
  predicate SendDisabled(input: string, isLoading: bool)
  {
    Trim(input) == "" || isLoading
  }

  /** The button is disabled exactly when the text is blank (nothing
      but JavaScript whitespace) or a reply is outstanding, which is exactly
      when pressing it would not send. */
  lemma SendDisabledIff(input: string, isLoading: bool)
    ensures SendDisabled(input, isLoading) <==> AllSpace(input) || isLoading
    ensures SendDisabled(input, isLoading) <==> !CanSend(input, isLoading)
  {
    TrimEmptyIff(input);
  }

  /** Pressing Enter sends, Shift+Enter inserts a newline. */
  predicate SubmitsOnKey(key: string, shiftKey: bool)
  {
    key == "Enter" && !shiftKey
  }

  class InputBox {
    var input: string

    constructor()
      ensures input == ""
    {
      input := "";
    }

    /** `handleInput`: the box holds what was typed. */
    method HandleInput(value: string)
      modifies this
      ensures input == value
    {
      input := value;
    }

    /** `handleSend`: `sent` is the text passed to `onSend`, untrimmed. */
    method HandleSend(isLoading: bool) returns (sent: Option<string>)
      modifies this
      ensures sent.Some? <==> CanSend(old(input), isLoading)
      ensures sent.Some? ==> sent.value == old(input) && input == ""
      ensures sent.None? ==> input == old(input)
    {
      if Trim(input) != "" && !isLoading {
        sent := Some(input);
        input := "";
      } else {
        sent := None;
      }
    }

    /** `handleKeyDown`: `prevented` says whether the default (a newline
        in the text area) was suppressed. */
    method HandleKeyDown(key: string, shiftKey: bool, isLoading: bool) returns (sent: Option<string>, prevented: bool)
      modifies this
      ensures prevented == SubmitsOnKey(key, shiftKey)
      ensures sent.Some? <==> prevented && CanSend(old(input), isLoading)
      ensures sent.Some? ==> sent.value == old(input) && input == ""
      ensures sent.None? ==> input == old(input)
    {
      if key == "Enter" && !shiftKey {
        prevented := true;
        sent := HandleSend(isLoading);
      } else {
        prevented := false;
        sent := None;
      }
    }
  }
}
