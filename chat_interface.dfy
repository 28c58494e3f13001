/** The chat box (src/components/nutriscan/ChatInterface.tsx): when a typed
    question is sent, what the send button and the field allow, and which of
    the suggestions, the streaming bubble and the spinner are drawn. */
module ChatInterface {
  import opened Types
  import opened Strings

  const SuggestedQuestions: seq<string> := [
    "Is this okay for a keto diet?",
    "What's the most concerning ingredient?",
    "Are there any hidden sugars?"
  ]

  /** What `handleSubmit` passes to `onSendMessage`, if anything. */
  function Submitted(input: string, isLoading: bool): (m: Option<string>)
    ensures m.Some? <==> !IsBlank(input) && !isLoading
    ensures m.Some? ==> m.value == Trim(input)
  {
    if Trim(input) != "" && !isLoading then Some(Trim(input)) else None
  }

  /** `disabled={!input.trim() || isLoading}` on the send button. */
  predicate SendDisabled(input: string, isLoading: bool) {
    Trim(input) == "" || isLoading
  }

  /** `disabled={isLoading}` on the field. */
  predicate InputDisabled(isLoading: bool) {
    isLoading
  }

  /** `messages.length === 0 && !streamingContent` */
  predicate ShowsSuggestions(messageCount: nat, streamingContent: string) {
    messageCount == 0 && streamingContent == ""
  }

  /** `{streamingContent && ...}` */
  predicate ShowsStreamingBubble(streamingContent: string) {
    streamingContent != ""
  }

  /** `isLoading && !streamingContent` */
  predicate ShowsSpinner(isLoading: bool, streamingContent: string) {
    isLoading && streamingContent == ""
  }

  /** The send button is disabled exactly when submitting would send nothing. */
  lemma SendDisabledIffNothingSent(input: string, isLoading: bool)
    ensures SendDisabled(input, isLoading) <==> Submitted(input, isLoading).None?
  {
  }

  /** While a reply is awaited exactly one of the streaming bubble and the
      spinner is drawn; when idle the spinner never is. */
  lemma OneProgressIndicator(isLoading: bool, streamingContent: string)
    ensures isLoading ==> (ShowsStreamingBubble(streamingContent) != ShowsSpinner(isLoading, streamingContent))
    ensures !isLoading ==> !ShowsSpinner(isLoading, streamingContent)
  {
  }

  /** The suggestions are never drawn beside the streaming bubble, and the
      field is locked exactly while the send button is locked for loading. */
  lemma SuggestionsOnlyWhenQuiet(messageCount: nat, input: string, isLoading: bool, streamingContent: string)
    ensures ShowsSuggestions(messageCount, streamingContent) ==> !ShowsStreamingBubble(streamingContent)
    ensures InputDisabled(isLoading) ==> SendDisabled(input, isLoading)
  {
  }

  /** The text field of the chat box. */
  class ChatBox {
    var input: string

    constructor ()
      ensures input == ""
    {
      input := "";
    }

    method SetInput(v: string)
      modifies this
      ensures input == v
    {
      input := v;
    }

    /** `handleSubmit`: clears the field only when a message is sent. */
    method HandleSubmit(isLoading: bool) returns (sent: Option<string>)
      modifies this
      ensures sent == Submitted(old(input), isLoading)
      ensures sent.Some? ==> input == ""
      ensures sent.None? ==> input == old(input)
    {
      if Trim(input) != "" && !isLoading {
        sent := Some(Trim(input));
        input := "";
      } else {
        sent := None;
      }
    }

    /** A click on suggestion `i` sends that question as written, without
        trimming or checking `isLoading`, and leaves the field alone. */
    method ClickSuggestion(i: nat) returns (sent: string)
      requires i < |SuggestedQuestions|
      ensures sent == SuggestedQuestions[i]
    {
      sent := SuggestedQuestions[i];
    }
  }
}
