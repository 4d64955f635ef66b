/** The password-reset request form. */
module ForgotPassword {
  import opened Http

  datatype FormState = FormState(email: string, isLoading: bool, isSubmitted: bool, sent: seq<string>)

  /** `handleSubmit` with outcome `o` of POST /api/forgot-password; `sent` logs the e-mails posted. */
  function SubmitStep(s: FormState, o: Outcome<()>): (r: FormState)
    ensures !r.isLoading && r.email == s.email
    ensures r.sent == s.sent + [s.email]
    // only an OK response marks the form as submitted; anything else leaves the flag alone
    ensures r.isSubmitted <==> s.isSubmitted || o.IsOk()
    ensures !o.IsOk() ==> r.isSubmitted == s.isSubmitted
  {
    var requesting := s.(isLoading := true, sent := s.sent + [s.email]);
    var answered := if o.IsOk() then requesting.(isSubmitted := true) else requesting;
    answered.(isLoading := false)
  }

  /** `!isSubmitted ? <form> : <confirmation>` */
  predicate FormShown(s: FormState)
  {
    !s.isSubmitted
  }

  predicate SubmitDisabled(s: FormState)
  {
    s.isLoading
  }

  /** Once the request succeeded the form is gone for good, whatever later submissions meet. */
  lemma {:induction false} SubmittedIsFinal(s: FormState, o1: Outcome<()>, o2: Outcome<()>)
    requires o1.IsOk()
    ensures !FormShown(SubmitStep(s, o1))
    ensures !FormShown(SubmitStep(SubmitStep(s, o1), o2))
    ensures !SubmitStep(s, o1).isLoading
  {
  }

  /**
   * A press of the submit button: the form only exists before a success, its
   * button is disabled while loading, and the `required` e-mail input keeps
   * the browser from submitting it empty.
   */
  function SubmitAttempt(s: FormState, o: Outcome<()>): (r: FormState)
    ensures !FormShown(s) || SubmitDisabled(s) || s.email == "" ==> r == s
    ensures FormShown(s) && !SubmitDisabled(s) && s.email != "" ==> r == SubmitStep(s, o)
  {
    if FormShown(s) && !SubmitDisabled(s) && s.email != "" then SubmitStep(s, o) else s
  }

  /** Only non-empty addresses are ever posted, and nothing is posted after a success. */
  lemma {:induction false} AttemptPostsFilledEmail(s: FormState, o: Outcome<()>, o2: Outcome<()>)
    requires forall k :: 0 <= k < |s.sent| ==> s.sent[k] != ""
    ensures var r := SubmitAttempt(s, o);
            forall k :: 0 <= k < |r.sent| ==> r.sent[k] != ""
    ensures o.IsOk() ==> SubmitAttempt(SubmitAttempt(s, o), o2).sent == SubmitAttempt(s, o).sent
  {
    var r := SubmitAttempt(s, o);
    if r != s {
      assert r.sent == s.sent + [s.email];
    }
  }

  class ForgotPasswordPage {
    var email: string
    var isLoading: bool
    var isSubmitted: bool
    var sent: seq<string>

    function State(): FormState
      reads this
    {
      FormState(email, isLoading, isSubmitted, sent)
    }

    constructor ()
      ensures State() == FormState("", false, false, [])
    {
      email, isLoading, isSubmitted, sent := "", false, false, [];
    }

    method SetEmail(value: string)
      modifies this
      ensures State() == old(State()).(email := value)
    {
      email := value;
    }

    /** The form's `submit` event, delivered only as `SubmitAttempt` says. */
    method SubmitForm(o: Outcome<()>)
      modifies this
      ensures State() == SubmitAttempt(old(State()), o)
    {
      if !isSubmitted && !isLoading && email != "" {
        HandleSubmit(o);
      }
    }

    method HandleSubmit(o: Outcome<()>)
      modifies this
      ensures State() == SubmitStep(old(State()), o)
    {
      isLoading := true;
      sent := sent + [email];
      if o.IsOk() {
        isSubmitted := true;
      }
      isLoading := false;  // finally
    }
  }
}
