/** The prompt form: a text field holding the prompt, a submit handler
    that passes the trimmed prompt on, and a submit button that is enabled
    exactly when submitting would do so. */
module Components {
  import opened Types
  import opened Text

  /** The initial prompt: the `initialValue` property, the empty string when
      it is not given. */
  function InitialPrompt(initialValue: Option<string>): (p: string)
    ensures initialValue.None? ==> p == ""
    ensures initialValue.Some? ==> p == initialValue.value
  {
    match initialValue
    case None => ""
    case Some(v) => v
  }

  /** The guard of handleSubmit: the trimmed prompt is not empty and the
      form is not disabled. */
  predicate Submits(prompt: string, disabled: bool) {
    Trim(prompt) != "" && !disabled
  }

  /** The submit button's disabled condition. */
  predicate SubmitButtonDisabled(prompt: string, disabled: bool) {
    disabled || Trim(prompt) == ""
  }

  /** The button is enabled exactly when a submit would call onSubmit, and
      that is exactly when the form is enabled and the prompt holds a
      character that is not white space. */
  lemma {:induction false} ButtonAgreesWithSubmit(prompt: string, disabled: bool)
    ensures !SubmitButtonDisabled(prompt, disabled) <==> Submits(prompt, disabled)
    ensures Submits(prompt, disabled) <==> !disabled && !AllWhitespace(prompt)
  {
    TrimEmptyIff(prompt);
  }

  /** A prompt made only of white space never submits, whatever `disabled` is. */
  lemma {:induction false} WhitespaceNeverSubmits(prompt: string, disabled: bool)
    requires AllWhitespace(prompt)
    ensures !Submits(prompt, disabled)
  {
    TrimEmptyIff(prompt);
  }

  class PromptForm {
    /** The text field's state. */
    var prompt: string

    constructor (initialValue: Option<string>)
      ensures prompt == InitialPrompt(initialValue)
    {
      prompt := InitialPrompt(initialValue);
    }

    /** The field's onChange: the prompt becomes the field's value. */
    method Change(value: string)
      modifies this
      ensures prompt == value
    {
      prompt := value;
    }

    /** handleSubmit: the value passed to onSubmit, if it is called. It is
        called exactly when the form is enabled and the prompt is not all
        white space, with the trimmed prompt: non-empty, with no white space
        at either end. */
    method HandleSubmit(disabled: bool) returns (submitted: Option<string>)
      ensures submitted.Some? <==> !disabled && !AllWhitespace(prompt)
      ensures submitted.Some? ==>
                submitted.value == Trim(prompt) && submitted.value != ""
                && !IsWhitespace(submitted.value[0])
                && !IsWhitespace(submitted.value[|submitted.value| - 1])
    {
      TrimEmptyIff(prompt);
      if Trim(prompt) != "" && !disabled {
        submitted := Some(Trim(prompt));
      } else {
        submitted := None;
      }
    }
  }
}
