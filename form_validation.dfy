/**
 * `validateInput` and `validateForm` of the newer script. The browser's
 * `checkValidity()` is not modelled: each input carries its verdict as given.
 */
module FormValidation {

  /** A required form control, with the state `validateInput` writes. */
  class FormInput {
    /** What `checkValidity()` reports for the control's current value. */
    const valid: bool
    /** Whether the class list holds `error`. */
    var hasError: bool
    /** The `aria-invalid` attribute, if set. */
    var ariaInvalid: string

    constructor (valid: bool, hasError: bool, ariaInvalid: string)
      ensures this.valid == valid && this.hasError == hasError && this.ariaInvalid == ariaInvalid
    {
      this.valid := valid;
      this.hasError := hasError;
      this.ariaInvalid := ariaInvalid;
    }

    /** The marks an input carries once it has been validated. */
    predicate Marked()
      reads this
    {
      hasError == !valid && ariaInvalid == (if valid then "false" else "true")
    }
  }

  /** `validateInput(input)`: mark the input to match its verdict and return it. */
  method ValidateInput(input: FormInput) returns (isValid: bool)
    modifies input
    ensures isValid == input.valid
    ensures input.Marked()
  {
    isValid := input.valid;
    if isValid {
      input.hasError := false;
      input.ariaInvalid := "false";
    } else {
      input.hasError := true;
      input.ariaInvalid := "true";
    }
  }

  /**
   * `validateForm(form)`: true exactly when every required input is valid.
   * There is no early exit, so every input ends up marked.
   */
  method ValidateForm(inputs: seq<FormInput>) returns (isValid: bool)
    modifies set k | 0 <= k < |inputs| :: inputs[k]
    ensures isValid <==> forall k :: 0 <= k < |inputs| ==> inputs[k].valid
    ensures forall k :: 0 <= k < |inputs| ==> inputs[k].Marked()
  {
    isValid := true;
    var i := 0;
    while i < |inputs|
      invariant 0 <= i <= |inputs|
      invariant isValid <==> forall k :: 0 <= k < i ==> inputs[k].valid
      invariant forall k :: 0 <= k < i ==> inputs[k].Marked()
    {
      var ok := ValidateInput(inputs[i]);
      if !ok {
        isValid := false;
      }
      i := i + 1;
    }
  }
}
