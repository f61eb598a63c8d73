/**
 * The prompt box of the stock chat: the submit guard shared by the form and
 * the Enter key, and the choice between the stop and the send button.
 */
module PromptInput {
  import opened JsStrings
  import opened UiTypes

  /** The button at the end of the box. */
  datatype ActionButton = StopButton | SendButton

  /** The stop button while a response is requested or streaming, the send button otherwise. */
  function ActionFor(status: ChatStatus): ActionButton {
    if status == Streaming || status == Submitted then StopButton else SendButton
  }

  /** The prompt box's text, the prompts handed to `onSubmit`, oldest first, and how often `onStop` was called. */
  class PromptBox {
    var prompt: string
    var submitted: seq<string>
    var stopRequests: nat

    constructor()
      ensures prompt == "" && submitted == [] && stopRequests == 0
    {
      prompt := "";
      submitted := [];
      stopRequests := 0;
    }

    /** `onChange` of the text area. */
    method Change(value: string)
      modifies this
      ensures prompt == value && submitted == old(submitted) && stopRequests == old(stopRequests)
    {
      prompt := value;
    }

    /** Calls `onSubmit` with the untrimmed prompt and clears it, when it has non-whitespace content. */
    method SubmitIfContent()
      modifies this
      ensures !AllWhitespace(old(prompt)) ==> submitted == old(submitted) + [old(prompt)] && prompt == ""
      ensures AllWhitespace(old(prompt)) ==> submitted == old(submitted) && prompt == old(prompt)
      ensures stopRequests == old(stopRequests)
    {
      TrimEmptyIff(prompt);
      if Trim(prompt) != "" {
        submitted := submitted + [prompt];
        prompt := "";
      }
    }

    /** `handleSubmit`: the form's submit event. */
    method HandleSubmit()
      modifies this
      ensures !AllWhitespace(old(prompt)) ==> submitted == old(submitted) + [old(prompt)] && prompt == ""
      ensures AllWhitespace(old(prompt)) ==> submitted == old(submitted) && prompt == old(prompt)
      ensures stopRequests == old(stopRequests)
    {
      SubmitIfContent();
    }

    /**
     * `handleKeyDown`: Enter without Shift submits like the form does; the
     * chat status is not consulted, so this also happens while streaming.
     */
    method HandleKeyDown(key: string, shiftKey: bool, status: ChatStatus)
      modifies this
      ensures key == "Enter" && !shiftKey && !AllWhitespace(old(prompt)) ==>
        submitted == old(submitted) + [old(prompt)] && prompt == ""
      ensures !(key == "Enter" && !shiftKey && !AllWhitespace(old(prompt))) ==>
        submitted == old(submitted) && prompt == old(prompt)
      ensures stopRequests == old(stopRequests)
    {
      if key == "Enter" && !shiftKey {
        SubmitIfContent();
      }
    }

    /**
     * Pressing the button at the end of the box: while a response is
     * requested or streaming it is the stop button, whose `type="button"`
     * calls `onStop` without submitting; otherwise it submits the form.
     * Enter, through `HandleKeyDown`, submits even while the stop button shows.
     */
    method PressAction(status: ChatStatus)
      modifies this
      ensures status == Streaming || status == Submitted ==>
        stopRequests == old(stopRequests) + 1 && submitted == old(submitted) && prompt == old(prompt)
      ensures status != Streaming && status != Submitted && !AllWhitespace(old(prompt)) ==>
        submitted == old(submitted) + [old(prompt)] && prompt == "" && stopRequests == old(stopRequests)
      ensures status != Streaming && status != Submitted && AllWhitespace(old(prompt)) ==>
        submitted == old(submitted) && prompt == old(prompt) && stopRequests == old(stopRequests)
    {
      match ActionFor(status)
      case StopButton =>
        stopRequests := stopRequests + 1;
      case SendButton =>
        HandleSubmit();
    }
  }

  /** The rotating placeholder is made transparent as soon as the prompt has any character. */
  function PlaceholderHidden(prompt: string): (hidden: bool)
    ensures hidden <==> prompt != []
  {
    |prompt| > 0
  }

  /** Typing only whitespace can never be submitted, yet it does hide the placeholder. */
  lemma WhitespaceHidesPlaceholderWithoutSubmitting(prompt: string)
    requires prompt != [] && AllWhitespace(prompt)
    ensures PlaceholderHidden(prompt) && Trim(prompt) == []
  {
    TrimEmptyIff(prompt);
  }
}
