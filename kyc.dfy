/** The identity-verification form: its fields, its four steps and the submission status. */
module Kyc {

  datatype KycStatus = Pending | Submitted | Verified | Rejected

  datatype FormData = FormData(
    fullName: string, dateOfBirth: string, nationality: string, idType: string, idNumber: string,
    address: string, city: string, postalCode: string, country: string)

  const EmptyForm: FormData := FormData("", "", "", "", "", "", "", "", "")

  /** The nine inputs, each bound to one field by its own `onChange`. */
  datatype Field =
    | FullName | DateOfBirth | Nationality | IdType | IdNumber | Address | City | PostalCode | Country

  function Get(f: FormData, field: Field): string
  {
    match field
    case FullName => f.fullName
    case DateOfBirth => f.dateOfBirth
    case Nationality => f.nationality
    case IdType => f.idType
    case IdNumber => f.idNumber
    case Address => f.address
    case City => f.city
    case PostalCode => f.postalCode
    case Country => f.country
  }

  /** `setFormData({ ...formData, <field>: value })` */
  function Edit(f: FormData, field: Field, value: string): (r: FormData)
    ensures Get(r, field) == value
    ensures forall other :: other != field ==> Get(r, other) == Get(f, other)
  {
    match field
    case FullName => f.(fullName := value)
    case DateOfBirth => f.(dateOfBirth := value)
    case Nationality => f.(nationality := value)
    case IdType => f.(idType := value)
    case IdNumber => f.(idNumber := value)
    case Address => f.(address := value)
    case City => f.(city := value)
    case PostalCode => f.(postalCode := value)
    case Country => f.(country := value)
  }

  datatype StepStatus = Complete | Incomplete

  datatype Step = Step(title: string, status: StepStatus)

  function StatusIf(filled: string): StepStatus
  {
    if filled != "" then Complete else Incomplete
  }

  /** `kycSteps` */
  function Steps(f: FormData): (r: seq<Step>)
    ensures |r| == 4
    ensures r[0].status == Complete <==> f.fullName != ""
    ensures r[1].status == Complete <==> f.idNumber != ""
    ensures r[2].status == Complete <==> f.address != ""
    ensures r[3].status == Incomplete
  {
    [ Step("Personal Information", StatusIf(f.fullName)),
      Step("Identity Verification", StatusIf(f.idNumber)),
      Step("Address Proof", StatusIf(f.address)),
      Step("Selfie Verification", Incomplete) ]
  }

  /** Only the field a step reads can change that step. */
  lemma {:induction false} EditTouchesOneStep(f: FormData, field: Field, value: string)
    ensures field != FullName ==> Steps(Edit(f, field, value))[0] == Steps(f)[0]
    ensures field != IdNumber ==> Steps(Edit(f, field, value))[1] == Steps(f)[1]
    ensures field != Address ==> Steps(Edit(f, field, value))[2] == Steps(f)[2]
  {
    assert Get(Edit(f, field, value), FullName) == f.fullName || field == FullName;
    assert Get(Edit(f, field, value), IdNumber) == f.idNumber || field == IdNumber;
    assert Get(Edit(f, field, value), Address) == f.address || field == Address;
  }

  /** `getStatusBadge`'s text. */
  function StatusBadge(status: KycStatus): (text: string)
    ensures text == "Verified" <==> status == Verified
    ensures text == "Under Review" <==> status == Submitted
    ensures text == "Rejected" <==> status == Rejected
    ensures text == "Not Started" <==> status == Pending
  {
    match status
    case Verified => "Verified"
    case Submitted => "Under Review"
    case Rejected => "Rejected"
    case _ => "Not Started"
  }

  predicate SubmitDisabled(status: KycStatus)
  {
    status == Submitted || status == Verified
  }

  function SubmitCaption(status: KycStatus): (c: string)
    ensures c == "Documents Under Review" <==> status == Submitted
  {
    if status == Submitted then "Documents Under Review" else "Submit KYC Documents"
  }

  /** The six inputs marked `required`: the browser refuses to submit the form while one is empty. */
  predicate RequiredFilled(f: FormData)
  {
    f.fullName != "" && f.dateOfBirth != "" && f.idNumber != "" && f.address != ""
    && f.city != "" && f.postalCode != ""
  }

  /**
   * A press of the submit button: the form's `submit` event reaches
   * `handleSubmit` only while the button is enabled and every required input
   * is filled; `handleSubmit` itself then sets the status unconditionally.
   */
  function SubmitAttempt(status: KycStatus, f: FormData): (r: KycStatus)
    ensures !SubmitDisabled(status) && RequiredFilled(f) ==> r == Submitted
    ensures SubmitDisabled(status) || !RequiredFilled(f) ==> r == status
  {
    if !SubmitDisabled(status) && RequiredFilled(f) then Submitted else status
  }

  /** A form that gets submitted shows its first three steps complete. */
  lemma {:induction false} SubmittedFormHasStepsComplete(status: KycStatus, f: FormData)
    requires status != Submitted && SubmitAttempt(status, f) == Submitted
    ensures forall k :: 0 <= k < 3 ==> Steps(f)[k].status == Complete
  {
    assert RequiredFilled(f);
    var r := Steps(f);
    assert r[0].status == Complete && r[1].status == Complete && r[2].status == Complete;
  }

  /**
   * After a submission the button is disabled and says the documents are under
   * review, so no later press changes the status, whatever the form holds.
   */
  lemma {:induction false} SubmittedLocksButton(status: KycStatus, f: FormData, g: FormData)
    requires SubmitAttempt(status, f) == Submitted
    ensures SubmitDisabled(Submitted) && SubmitCaption(Submitted) == "Documents Under Review"
    ensures SubmitAttempt(SubmitAttempt(status, f), g) == Submitted
    ensures !SubmitDisabled(status) ==> SubmitCaption(status) == "Submit KYC Documents"
  {
  }

  class KycPage {
    var kycStatus: KycStatus
    var formData: FormData

    constructor ()
      ensures kycStatus == Pending && formData == EmptyForm
    {
      kycStatus := Pending;
      formData := EmptyForm;
    }

    /** `handleSubmit`: no request is made; only the status moves. */
    method HandleSubmit()
      modifies this
      ensures kycStatus == Submitted && formData == old(formData)
    {
      kycStatus := Submitted;
    }

    /** The form's `submit` event, which the browser delivers only as `SubmitAttempt` says. */
    method SubmitForm()
      modifies this
      ensures kycStatus == SubmitAttempt(old(kycStatus), old(formData)) && formData == old(formData)
    {
      if !SubmitDisabled(kycStatus) && RequiredFilled(formData) {
        HandleSubmit();
      }
    }

    method EditField(field: Field, value: string)
      modifies this
      ensures formData == Edit(old(formData), field, value) && kycStatus == old(kycStatus)
    {
      formData := Edit(formData, field, value);
    }
  }
}
