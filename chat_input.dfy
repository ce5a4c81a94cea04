/** The message box of the chat page (frontend/src/components/chat/ChatInput.tsx): the input
    text is component state; `isLoading` and `recordSupported` come from the page. */
module ChatInput {
  import opened Options
  import Text
  import ChatPage

  /** The send button's `disabled`: blank input or a stream in flight. */
  predicate SendDisabled(input: string, isLoading: bool) {
    Text.Trim(input) == [] || isLoading
  }

  /** The send button is disabled exactly when the page would refuse the text, so whatever
      the box forwards the page accepts. */
  lemma SendDisabledMatchesPage(input: string, isLoading: bool)
    ensures SendDisabled(input, isLoading) <==> !ChatPage.AcceptsSend(input, isLoading)
    ensures SendDisabled(input, isLoading) <==>
      isLoading || forall i :: 0 <= i < |input| ==> Text.IsJsSpace(input[i])
  {
    Text.TrimEmptyIff(input);
  }

  /** The record button's `disabled`. */
  predicate RecordDisabled(recordSupported: bool, isLoading: bool) {
    !recordSupported || isLoading
  }

  /** The record button is disabled only when speech is unsupported or a stream is in
      flight; when it is enabled the page sends exactly the non-blank transcripts, and when
      loading disables it the page would refuse any transcript as well. */
  lemma RecordButtonMatchesPage(recordSupported: bool, isLoading: bool, transcript: string)
    ensures recordSupported ==> (RecordDisabled(recordSupported, isLoading) <==> isLoading)
    ensures !recordSupported ==> RecordDisabled(recordSupported, isLoading)
    ensures !RecordDisabled(recordSupported, isLoading) ==>
      (ChatPage.AcceptsSend(transcript, isLoading) <==> exists i :: 0 <= i < |transcript| && !Text.IsJsSpace(transcript[i]))
    ensures RecordDisabled(recordSupported, isLoading) && recordSupported ==> !ChatPage.AcceptsSend(transcript, isLoading)
  {
    Text.TrimEmptyIff(transcript);
  }

  /** The textarea's key rule: Enter submits, Shift+Enter inserts a new line. */
  predicate KeySubmits(key: string, shift: bool) {
    key == "Enter" && !shift
  }

  class ChatInputBox {
    var input: string

    constructor ()
      ensures input == ""
    {
      input := "";
    }

    /** `onChange`. */
    method Edit(value: string)
      modifies this
      ensures input == value
    {
      input := value;
    }

    /** `handleSubmit`: forwards the untrimmed input and clears the box, or does nothing. */
    method Submit(isLoading: bool) returns (sent: Option<string>)
      modifies this
      ensures sent == if SendDisabled(old(input), isLoading) then None else Some(old(input))
      ensures input == if sent.Some? then "" else old(input)
    {
      if Text.Trim(input) != [] && !isLoading {
        sent := Some(input);
        input := "";
      } else {
        sent := None;
      }
    }

    /** `onKeyDown` on the textarea. */
    method KeyDown(key: string, shift: bool, isLoading: bool) returns (sent: Option<string>)
      modifies this
      ensures !KeySubmits(key, shift) ==> sent == None && input == old(input)
      ensures KeySubmits(key, shift) ==>
        sent == (if SendDisabled(old(input), isLoading) then None else Some(old(input)))
        && input == (if sent.Some? then "" else old(input))
    {
      if key == "Enter" && !shift {
        sent := Submit(isLoading);
      } else {
        sent := None;
      }
    }
  }
}
