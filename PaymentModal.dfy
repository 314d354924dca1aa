/**
 * The payment-request modal: validation of the amount and the description,
 * the errors map it replaces, the submit that hands the request on and
 * resets the form, and the quick-select amounts.
 *
 * The amount input is a number input; its value is either empty (None) or a
 * whole number.
 */
module PaymentModal {
  import opened Text

  datatype PaymentField = AmountField | DescriptionField

  const InvalidAmount := "Please enter a valid amount"
  const MissingDescription := "Please provide a description"

  /** The quick-select amounts. */
  const PresetAmounts: seq<int> := [500, 1000, 2500, 5000]

  /** `!amount || amount <= 0`. */
  predicate AmountRejected(amount: Option<int>) {
    amount.None? || amount.value <= 0
  }

  /** The `newErrors` map `validateForm` builds. */
  function FormErrors(amount: Option<int>, description: string): (r: map<PaymentField, string>)
    ensures AmountField in r <==> AmountRejected(amount)
    ensures DescriptionField in r <==> forall k :: 0 <= k < |description| ==> IsWhitespace(description[k])
    ensures r == map[] <==>
              amount.Some? && amount.value > 0
              && exists k :: 0 <= k < |description| && !IsWhitespace(description[k])
  {
    TrimEmptyIff(description);
    var e1 := if AmountRejected(amount) then map[AmountField := InvalidAmount] else map[];
    var r := if Trim(description) == "" then e1[DescriptionField := MissingDescription] else e1;
    assert AmountRejected(amount) ==> AmountField in r;
    r
  }

  predicate FormValid(amount: Option<int>, description: string) {
    FormErrors(amount, description) == map[]
  }

  /** Every quick-select amount passes the amount check. */
  lemma PresetsPassAmountCheck()
    ensures forall p :: p in PresetAmounts ==> !AmountRejected(Some(p))
  {
  }

  /** A quick-select amount with any description that is not blank makes a valid form. */
  lemma PresetWithDescriptionIsValid(i: nat, description: string, k: nat)
    requires i < |PresetAmounts|
    requires k < |description| && !IsWhitespace(description[k])
    ensures FormValid(Some(PresetAmounts[i]), description)
  {
  }

  /** What `onSubmit` receives. */
  datatype PaymentRequest = PaymentRequest(amount: int, description: string)

  class PaymentRequestModal {
    var amount: Option<int>
    var description: string
    var errors: map<PaymentField, string>

    constructor ()
      ensures amount == None && description == "" && errors == map[]
    {
      amount := None;
      description := "";
      errors := map[];
    }

    /** Typing in the amount input. */
    method SetAmount(value: Option<int>)
      modifies this`amount
      ensures amount == value
    {
      amount := value;
    }

    /** Clicking quick-select button `i`. */
    method SelectPreset(i: nat)
      requires i < |PresetAmounts|
      modifies this`amount
      ensures amount == Some(PresetAmounts[i]) && !AmountRejected(amount)
    {
      amount := Some(PresetAmounts[i]);
    }

    /** Typing in the description input. */
    method SetDescription(value: string)
      modifies this`description
      ensures description == value
    {
      description := value;
    }

    /** `validateForm`: replaces the errors map and reports whether it is empty. */
    method ValidateForm() returns (ok: bool)
      modifies this`errors
      ensures errors == FormErrors(amount, description)
      ensures ok <==> errors == map[]
    {
      errors := FormErrors(amount, description);
      ok := |errors| == 0;
    }

    /**
     * `handleSubmit`: a valid form goes to `onSubmit` with the description
     * untrimmed and is then reset; an invalid form only shows its errors.
     */
    method HandleSubmit() returns (submitted: Option<PaymentRequest>)
      modifies this
      ensures submitted.Some? <==> FormValid(old(amount), old(description))
      ensures submitted.Some? ==>
                submitted.value == PaymentRequest(old(amount).value, old(description))
                && amount == None && description == "" && errors == map[]
      ensures submitted.None? ==>
                amount == old(amount) && description == old(description)
                && errors == FormErrors(old(amount), old(description))
    {
      var ok := ValidateForm();
      if ok {
        submitted := Some(PaymentRequest(amount.value, description));
        amount := None;
        description := "";
        errors := map[];
      } else {
        submitted := None;
      }
    }
  }
}
