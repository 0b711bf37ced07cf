/**
 * The course registration modal: the form state, the e-mail field's live
 * validation, the submit gate and the reset after a successful submission.
 * React state updates are modelled as field assignments of one object, and each
 * handler as one sequential transition; `submitRegistration` is a parameter
 * (an oracle from the submitted record to its result), as are the clock and the
 * currency formatter.
 */
module Registration {
  import opened Wrappers
  import EmailSyntax
  import Firebase

  /** The keys of the form. */
  datatype Field = FullName | Email | Phone | DeliveryMethod | ExperienceLevel | CareerGoals

  /** The form's values; an unselected select is "". */
  datatype FormData = FormData(
    fullName: string,
    email: string,
    phone: string,
    deliveryMethod: string,
    experienceLevel: string,
    careerGoals: string)
  {
    function Get(f: Field): string {
      match f
      case FullName => fullName
      case Email => email
      case Phone => phone
      case DeliveryMethod => deliveryMethod
      case ExperienceLevel => experienceLevel
      case CareerGoals => careerGoals
    }

    /** `{ ...prev, [name]: value }`: key `f` takes `v`, every other key keeps its value. */
    function With(f: Field, v: string): (r: FormData)
      ensures r.Get(f) == v
      ensures forall g :: g != f ==> r.Get(g) == Get(g)
    {
      match f
      case FullName => this.(fullName := v)
      case Email => this.(email := v)
      case Phone => this.(phone := v)
      case DeliveryMethod => this.(deliveryMethod := v)
      case ExperienceLevel => this.(experienceLevel := v)
      case CareerGoals => this.(careerGoals := v)
    }
  }

  const EmptyForm := FormData("", "", "", "", "", "")

  const InvalidEmailText := "Please enter a valid email address"
  const SubmissionFailedDefault := "There was an error submitting your application. Please try again."
  const ProgramInquiry := "Program Inquiry"

  /** The notifications the handlers raise. */
  datatype Toast =
    | InvalidEmail
    | MissingInformation
    | ApplicationSubmitted
    | SubmissionFailed(description: string)

  /**
   * The e-mail field's state `(emailError, emailValid)` after the field is set to
   * `value`; it depends on the new value alone.
   */
  function EmailFieldState(value: string): (r: (Option<string>, bool))
    ensures value == "" ==> r == (None, false)
    ensures value != "" && !EmailSyntax.IsEmail(value) ==> r == (Some(InvalidEmailText), false)
    ensures EmailSyntax.IsEmail(value) ==> r == (None, true)
  {
    EmailSyntax.MatchesIffIsEmail(value);
    assert !EmailSyntax.IsEmail("");
    if value == "" then (None, false)
    else if !EmailSyntax.Matches(value) then (Some(InvalidEmailText), false)
    else (None, true)
  }

  /** The record handed to `submitRegistration`: the six form fields verbatim, the course, the time. */
  function RecordOf(form: FormData, courseId: string, courseTitle: string, now: int): (r: Firebase.RegistrationData)
    ensures FormOf(r) == form
    ensures r.courseId == courseId && r.courseTitle == courseTitle && r.submittedAt == now
  {
    Firebase.RegistrationData(form.fullName, form.email, form.phone, form.deliveryMethod,
                              form.experienceLevel, form.careerGoals, courseId, courseTitle, now)
  }

  /** The form fields of a registration record. */
  function FormOf(d: Firebase.RegistrationData): FormData {
    FormData(d.fullName, d.email, d.phone, d.deliveryMethod, d.experienceLevel, d.careerGoals)
  }

  /** The stored document carries the submitted form verbatim, whatever the clocks say. */
  lemma StoredDocumentCopiesForm(form: FormData, courseId: string, courseTitle: string, now: int, writeTime: int)
    ensures var d := Firebase.BuildDocument(RecordOf(form, courseId, courseTitle, now), writeTime);
      && FormOf(Firebase.StoredRegistration(d)) == form
      && d.courseId == courseId && d.courseTitle == courseTitle
      && d.submittedAt == writeTime && d.status == Firebase.PendingStatus
  {
    var r := RecordOf(form, courseId, courseTitle, now);
    var d := Firebase.BuildDocument(r, writeTime);
    assert Firebase.StoredRegistration(d) == r.(submittedAt := writeTime);
  }

  /** The toast text after a failed submission: the error's message, or the default when it is empty. */
  function FailureDescription(error: string): (r: string)
    ensures r != ""
    ensures error != "" ==> r == error
    ensures error == "" ==> r == SubmissionFailedDefault
  {
    if error != "" then error else SubmissionFailedDefault
  }

  /** Every failure the persistence adapter reports reaches the user with its own text. */
  lemma AdapterFailuresShowTheirMessage(outcome: Firebase.WriteOutcome)
    requires outcome.WriteFailed?
    ensures var r := Firebase.ResultOf(outcome);
      r.Failure? && FailureDescription(r.error) == r.error
  {
  }

  /** The price line of the modal: a zero price reads "Program Inquiry", any other the formatted amount. */
  function FormatPrice(price: int, currency: int -> string): (r: string)
    ensures price == 0 ==> r == ProgramInquiry
    ensures price != 0 ==> r == currency(price)
  {
    if price == 0 then ProgramInquiry else currency(price)
  }

  class RegistrationModal {
    const courseId: string
    const courseTitle: string
    const coursePrice: int

    var formData: FormData
    var emailError: Option<string>
    var emailValid: bool
    var isSubmitting: bool
    /** The parent's `isOpen`; `onClose` clears it. */
    var open: bool

    /**
     * Between handlers: not submitting; `emailValid` says the stored e-mail
     * passes the pattern; an e-mail error is the fixed text for a failing e-mail.
     */
    ghost predicate Valid()
      reads this
    {
      && !isSubmitting
      && emailValid == EmailSyntax.IsEmail(formData.email)
      && (emailError.Some? ==> emailError.value == InvalidEmailText && !emailValid)
    }

    constructor (courseId: string, courseTitle: string, coursePrice: int, isOpen: bool)
      ensures Valid()
      ensures this.courseId == courseId && this.courseTitle == courseTitle && this.coursePrice == coursePrice
      ensures formData == EmptyForm && emailError == None && !emailValid && !isSubmitting && open == isOpen
    {
      this.courseId := courseId;
      this.courseTitle := courseTitle;
      this.coursePrice := coursePrice;
      formData := EmptyForm;
      emailError := None;
      emailValid := false;
      isSubmitting := false;
      open := isOpen;
      assert !EmailSyntax.IsEmail("");
    }

    /** The submit button is enabled when not submitting and the e-mail is valid. */
    function SubmitEnabled(): (r: bool)
      reads this
      requires Valid()
      ensures r <==> EmailSyntax.IsEmail(formData.email)
    {
      !isSubmitting && emailValid
    }

    /** `handleInputChange`: stores the value; the e-mail field also revalidates. */
    method HandleInputChange(name: Field, value: string)
      requires Valid()
      modifies this
      ensures Valid()
      ensures formData == old(formData).With(name, value)
      ensures name == Email ==> (emailError, emailValid) == EmailFieldState(value)
      ensures name != Email ==> emailError == old(emailError) && emailValid == old(emailValid)
      ensures isSubmitting == old(isSubmitting) && open == old(open)
    {
      formData := formData.With(name, value);
      if name == Email {
        EmailSyntax.MatchesIffIsEmail(value);
        assert !EmailSyntax.IsEmail("");
        if value == "" {
          emailError := None;
          emailValid := false;
        } else if !EmailSyntax.Matches(value) {
          emailError := Some(InvalidEmailText);
          emailValid := false;
        } else {
          emailError := None;
          emailValid := true;
        }
      }
    }

    /** `handleSelectChange`: stores the selected value under its key and nothing else. */
    method HandleSelectChange(name: Field, value: string)
      requires Valid()
      requires name == DeliveryMethod || name == ExperienceLevel
      modifies this
      ensures Valid()
      ensures formData == old(formData).With(name, value)
      ensures emailError == old(emailError) && emailValid == old(emailValid)
      ensures isSubmitting == old(isSubmitting) && open == old(open)
    {
      formData := formData.With(name, value);
    }

    /**
     * `handleSubmit`. `submit` answers `submitRegistration` for the record it is
     * given and `now` is the clock. `sent` is the record handed to
     * `submitRegistration`, `None` when it is not called.
     */
    method HandleSubmit(submit: Firebase.RegistrationData -> Firebase.SubmitResult, now: int)
      returns (sent: Option<Firebase.RegistrationData>, toast: Toast)
      requires Valid()
      modifies this
      ensures Valid()
      // First gate: the e-mail.
      ensures !EmailSyntax.IsEmail(old(formData.email)) ==>
        && sent == None && toast == InvalidEmail
        && emailError == Some(InvalidEmailText)
        && formData == old(formData) && emailValid == old(emailValid) && open == old(open)
      // Second gate: both selects.
      ensures EmailSyntax.IsEmail(old(formData.email))
              && (old(formData.deliveryMethod) == "" || old(formData.experienceLevel) == "") ==>
        && sent == None && toast == MissingInformation
        && formData == old(formData) && emailError == old(emailError)
        && emailValid == old(emailValid) && open == old(open)
      // Otherwise the record is submitted.
      ensures sent.Some? <==>
        EmailSyntax.IsEmail(old(formData.email))
        && old(formData.deliveryMethod) != "" && old(formData.experienceLevel) != ""
      ensures sent.Some? ==> sent.value == RecordOf(old(formData), courseId, courseTitle, now)
      ensures sent.Some? && submit(sent.value).Success? ==>
        && toast == ApplicationSubmitted
        && formData == EmptyForm && !emailValid && emailError == None && !open
      ensures sent.Some? && submit(sent.value).Failure? ==>
        && toast == SubmissionFailed(FailureDescription(submit(sent.value).error))
        && formData == old(formData) && emailError == old(emailError)
        && emailValid == old(emailValid) && open == old(open)
    {
      EmailSyntax.MatchesIffIsEmail(formData.email);
      if !EmailSyntax.Matches(formData.email) {
        emailError := Some(InvalidEmailText);
        return None, InvalidEmail;
      }
      if formData.deliveryMethod == "" || formData.experienceLevel == "" {
        return None, MissingInformation;
      }
      isSubmitting := true;
      var registration := RecordOf(formData, courseId, courseTitle, now);
      sent := Some(registration);
      var result := submit(registration);
      if result.Success? {
        toast := ApplicationSubmitted;
        formData := EmptyForm;
        emailValid := false;
        emailError := None;
        open := false;
        assert !EmailSyntax.IsEmail("");
      } else {
        toast := SubmissionFailed(FailureDescription(result.error));
      }
      isSubmitting := false;
    }
  }

  /** With the button enabled, a submission passes the e-mail gate and waits only on the selects. */
  method SubmitWhenEnabled(m: RegistrationModal, submit: Firebase.RegistrationData -> Firebase.SubmitResult, now: int)
    returns (sent: Option<Firebase.RegistrationData>, toast: Toast)
    requires m.Valid() && m.SubmitEnabled()
    modifies m
    ensures toast != InvalidEmail
    ensures sent.Some? <==> old(m.formData.deliveryMethod) != "" && old(m.formData.experienceLevel) != ""
  {
    sent, toast := m.HandleSubmit(submit, now);
  }
}
