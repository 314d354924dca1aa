/**
 * The payment-verification modal an agency uses to settle a payment proof:
 * the three status options, the radio group that shows at most one of them
 * selected, and the submit that requires a status and trims the notes.
 */
module PaymentVerification {
  import opened Text

  datatype StatusOption = StatusOption(value: string, caption: string)

  const StatusOptions: seq<StatusOption> := [
    StatusOption("verified", "Verified"),
    StatusOption("rejected", "Rejected"),
    StatusOption("pending", "Under Review")
  ]

  const StatusRequired := "Please select a verification status"

  /** The indices of the options drawn as selected (`verificationStatus === option.value`). */
  function SelectedOptions(status: string): (r: seq<nat>)
    ensures |r| <= 1
    ensures forall k :: 0 <= k < |r| ==> r[k] < |StatusOptions| && StatusOptions[r[k]].value == status
    ensures |r| == 1 <==> exists i :: 0 <= i < |StatusOptions| && StatusOptions[i].value == status
  {
    if status == "verified" then assert StatusOptions[0].value == status; [0]
    else if status == "rejected" then assert StatusOptions[1].value == status; [1]
    else if status == "pending" then assert StatusOptions[2].value == status; [2]
    else []
  }

  /** What `onVerify` receives. */
  datatype Verification = Verification(status: string, notes: string, paymentId: Option<string>)

  /**
   * The outcome of `handleSubmit`: an error when no status is chosen,
   * otherwise the verification with the notes trimmed.
   */
  datatype SubmitOutcome = MissingStatus | Verify(verification: Verification)

  function Submit(status: string, notes: string, paymentId: Option<string>): (r: SubmitOutcome)
    ensures r.MissingStatus? <==> status == ""
    ensures r.Verify? ==> r.verification.status == status && r.verification.paymentId == paymentId
    ensures r.Verify? ==> r.verification.notes == Trim(notes)
  {
    if status == "" then MissingStatus else Verify(Verification(status, Trim(notes), paymentId))
  }

  /** Choosing any option lets the form submit, with that option's value. */
  lemma ChosenOptionSubmits(i: nat, notes: string, paymentId: Option<string>)
    requires i < |StatusOptions|
    ensures SelectedOptions(StatusOptions[i].value) == [i]
    ensures Submit(StatusOptions[i].value, notes, paymentId).Verify?
    ensures Submit(StatusOptions[i].value, notes, paymentId).verification.status == StatusOptions[i].value
  {
  }

  /** The notes sent carry no white space at either end, however often submitted. */
  lemma SubmittedNotesAreTrimmed(status: string, notes: string, paymentId: Option<string>)
    requires status != ""
    ensures Trim(Submit(status, notes, paymentId).verification.notes) == Submit(status, notes, paymentId).verification.notes
  {
    TrimIdempotent(notes);
  }

  class PaymentVerificationModal {
    var verificationStatus: string
    var notes: string
    /** `errors.status`; the errors object holds no other key. */
    var statusError: Option<string>

    constructor ()
      ensures verificationStatus == "" && notes == "" && statusError == None
    {
      verificationStatus := "";
      notes := "";
      statusError := None;
    }

    /** The radio group's `onChange`: the value is that of option `i`. */
    method Choose(i: nat)
      requires i < |StatusOptions|
      modifies this`verificationStatus
      ensures verificationStatus == StatusOptions[i].value
      ensures SelectedOptions(verificationStatus) == [i]
    {
      verificationStatus := StatusOptions[i].value;
    }

    /** The notes text area's `onChange`. */
    method SetNotes(value: string)
      modifies this`notes
      ensures notes == value
    {
      notes := value;
    }

    /** `handleSubmit`; `paymentData?.id` is the payment's id, if any. */
    method HandleSubmit(paymentId: Option<string>) returns (verified: Option<Verification>)
      modifies this`statusError
      ensures verificationStatus == "" ==> verified == None && statusError == Some(StatusRequired)
      ensures verificationStatus != "" ==>
                statusError == None && verified == Some(Submit(verificationStatus, notes, paymentId).verification)
    {
      if verificationStatus == "" {
        statusError := Some(StatusRequired);
        return None;
      }
      statusError := None;
      verified := Some(Verification(verificationStatus, Trim(notes), paymentId));
    }
  }
}
