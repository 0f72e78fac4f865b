/**
 * The chat input box: the text being typed and the gate that decides whether
 * it may be sent.
 */
module MessageInput {
  import opened Wrappers
  import opened Text

  /** `canSend`: something other than whitespace typed, not loading, not disabled. */
  predicate CanSend(message: string, isLoading: bool, disabled: bool)
    ensures CanSend(message, isLoading, disabled) <==> !AllWhitespace(message) && !isLoading && !disabled
  {
    TrimEmptyIffBlank(message);
    Trim(message) != "" && !isLoading && !disabled
  }

  /** An emptied box cannot be sent again. */
  lemma EmptyBoxCannotSend(isLoading: bool, disabled: bool)
    ensures !CanSend("", isLoading, disabled)
  {
  }

  class InputBox {
    /** The textarea's contents. */
    var message: string

    constructor ()
      ensures message == ""
    {
      message := "";
    }

    /** The textarea's change handler. */
    method Change(text: string)
      modifies this
      ensures message == text
    {
      message := text;
    }

    /**
     * `handleSend`: when the gate is open, hands the message to `onSend`
     * untrimmed and empties the box; otherwise does nothing.
     */
    method HandleSend(isLoading: bool, disabled: bool) returns (sent: Option<string>)
      modifies this
      ensures CanSend(old(message), isLoading, disabled) ==> sent == Some(old(message)) && message == ""
      ensures !CanSend(old(message), isLoading, disabled) ==> sent == None && message == old(message)
      ensures sent.Some? ==> !CanSend(message, isLoading, disabled)
    {
      if !CanSend(message, isLoading, disabled) {
        return None;
      }
      sent := Some(message);
      message := "";
      EmptyBoxCannotSend(isLoading, disabled);
    }

    /**
     * `handleKeyDown`: Enter without Shift is taken over (its default is
     * prevented) and sends; any other key, Shift+Enter included, is left alone.
     */
    method HandleKeyDown(key: string, shiftKey: bool, isLoading: bool, disabled: bool)
      returns (defaultPrevented: bool, sent: Option<string>)
      modifies this
      ensures defaultPrevented <==> key == "Enter" && !shiftKey
      ensures !defaultPrevented ==> sent == None && message == old(message)
      ensures defaultPrevented && CanSend(old(message), isLoading, disabled) ==> sent == Some(old(message)) && message == ""
      ensures defaultPrevented && !CanSend(old(message), isLoading, disabled) ==> sent == None && message == old(message)
    {
      defaultPrevented := key == "Enter" && !shiftKey;
      if !defaultPrevented {
        return defaultPrevented, None;
      }
      sent := HandleSend(isLoading, disabled);
    }
  }
}
