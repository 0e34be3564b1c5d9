/**
 * The sign-up form (components/auth/sign-up-form.tsx): the form schema, the company
 * name check outside the invite flow, and the sign-up call with its metadata. The
 * email check of the schema is a parameter (`isEmail`).
 */
module SignUpForm {
  import opened Wrappers
  import opened Text

  /** The submitted values; the company field is absent in the invite flow. */
  datatype SignUpData = SignUpData(fullName: string, email: string, companyName: Option<string>, password: string)

  /** A schema message for one field. */
  datatype FieldError = FieldError(field: string, message: string)

  const NameMessage := "Name must be at least 2 characters"
  const EmailMessage := "Invalid email address"
  const CompanyMessage := "Company name must be less than 100 characters"
  const PasswordMessage := "Password must be at least 8 characters"
  const CompanyTooShortMessage := "Company name must be at least 2 characters"

  /** signUpSchema: one message per failing field, in the schema's field order.
      Lengths are counted without trimming. */
  function SignUpSchema(data: SignUpData, isEmail: string -> bool): (errors: seq<FieldError>)
    ensures errors == [] <==>
      |data.fullName| >= 2 && isEmail(data.email)
      && (data.companyName.Some? ==> |data.companyName.value| <= 100) && |data.password| >= 8
    ensures FieldError("password", PasswordMessage) in errors <==> |data.password| < 8
    ensures |errors| <= 4
  {
    (if |data.fullName| < 2 then [FieldError("fullName", NameMessage)] else [])
    + (if !isEmail(data.email) then [FieldError("email", EmailMessage)] else [])
    + (if data.companyName.Some? && |data.companyName.value| > 100 then [FieldError("companyName", CompanyMessage)] else [])
    + (if |data.password| < 8 then [FieldError("password", PasswordMessage)] else [])
  }

  /** `!companyName || companyName.trim().length < 2` */
  predicate CompanyNameTooShort(companyName: Option<string>) {
    !Present(companyName) || |Trim(companyName.value)| < 2
  }

  /** The user metadata stored with the new account. */
  datatype SignUpMetadata = SignUpMetadata(fullName: string, companyName: Option<string>, inviteToken: Option<string>)

  /** The sign-up call. */
  datatype SignUpRequest = SignUpRequest(email: string, password: string, metadata: SignUpMetadata, emailRedirectTo: string)

  /** What submitting leads to. */
  datatype SubmitOutcome =
    | Invalid(errors: seq<FieldError>)
    | CompanyRejected(message: string)
    | SignUpFailed(request: SignUpRequest, message: string)
    | SignedUp(request: SignUpRequest, next: string)

  /** `Boolean(inviteToken)` */
  predicate IsInviteFlow(inviteToken: Option<string>) {
    Present(inviteToken)
  }

  /** The request onSubmit sends; `origin` is the page's origin. */
  function SignUpCall(data: SignUpData, inviteToken: Option<string>, origin: string): (r: SignUpRequest)
    ensures r.email == data.email && r.password == data.password && r.metadata.fullName == data.fullName
    ensures r.metadata.inviteToken == inviteToken
    ensures r.metadata.companyName == if IsInviteFlow(inviteToken) then None else data.companyName
  {
    var company := if IsInviteFlow(inviteToken) then None else data.companyName;
    SignUpRequest(data.email, data.password, SignUpMetadata(data.fullName, company, inviteToken), origin + "/auth/callback")
  }

  /** Submitting the form: the schema first (the handler runs only without schema
      errors), then the company check outside the invite flow, then the call. */
  function SubmitSpec(data: SignUpData, inviteToken: Option<string>, origin: string,
                      isEmail: string -> bool, signUpError: Option<string>): SubmitOutcome
  {
    var errors := SignUpSchema(data, isEmail);
    if errors != [] then Invalid(errors)
    else if !IsInviteFlow(inviteToken) && CompanyNameTooShort(data.companyName) then CompanyRejected(CompanyTooShortMessage)
    else
      var request := SignUpCall(data, inviteToken, origin);
      if signUpError.Some? then SignUpFailed(request, signUpError.value)
      else SignedUp(request, "/verify-email")
  }

  /** Outside the invite flow a missing, blank or one-character company name stops
      the submission before any call; a name the schema accepts is sent as typed. */
  lemma CompanyNameRequiredOutsideInvites(data: SignUpData, inviteToken: Option<string>, origin: string,
                                          isEmail: string -> bool, signUpError: Option<string>)
    requires SignUpSchema(data, isEmail) == [] && !IsInviteFlow(inviteToken)
    ensures var o := SubmitSpec(data, inviteToken, origin, isEmail, signUpError);
      && (CompanyNameTooShort(data.companyName) <==> o == CompanyRejected("Company name must be at least 2 characters"))
      && (!CompanyNameTooShort(data.companyName) ==>
            (o.SignUpFailed? || o.SignedUp?) && o.request.metadata.companyName == data.companyName)
  {
  }

  /** In the invite flow no company name is sent, whatever was typed, and the
      invite token goes with the metadata. */
  lemma InviteFlowSendsToken(data: SignUpData, token: string, origin: string,
                             isEmail: string -> bool, signUpError: Option<string>)
    requires token != "" && SignUpSchema(data, isEmail) == []
    ensures var o := SubmitSpec(data, Some(token), origin, isEmail, signUpError);
      && (o.SignUpFailed? || o.SignedUp?)
      && o.request.metadata == SignUpMetadata(data.fullName, None, Some(token))
      && (o.SignedUp? <==> signUpError.None?)
  {
  }

  /** The name is not trimmed: two spaces pass the schema, one letter does not. */
  lemma NameIsNotTrimmed(data: SignUpData, isEmail: string -> bool)
    requires isEmail(data.email) && data.companyName.None? && |data.password| >= 8
    ensures SignUpSchema(data.(fullName := "  "), isEmail) == []
    ensures SignUpSchema(data.(fullName := "A"), isEmail) == [FieldError("fullName", "Name must be at least 2 characters")]
  {
  }

  /** The email field starts with the invitation's address and is then read-only. */
  function DefaultEmail(inviteEmail: Option<string>): (r: string)
    ensures Present(inviteEmail) ==> r == inviteEmail.value
    ensures !Present(inviteEmail) ==> r == ""
  {
    if Present(inviteEmail) then inviteEmail.value else ""
  }

  predicate EmailReadOnly(inviteEmail: Option<string>) {
    Present(inviteEmail)
  }

  /** A toast of the form. */
  datatype Toast = ErrorToast(title: string, description: string)

  class SignUpFormState {
    const inviteToken: Option<string>
    const inviteEmail: Option<string>
    var isLoading: bool

    constructor(inviteToken: Option<string>, inviteEmail: Option<string>)
      ensures this.inviteToken == inviteToken && this.inviteEmail == inviteEmail && !isLoading
    {
      this.inviteToken := inviteToken;
      this.inviteEmail := inviteEmail;
      isLoading := false;
    }

    /** onSubmit up to the sign-up call, after the schema has accepted the values.
        The submit button is disabled while a sign-up runs. */
    method StartSubmit(data: SignUpData, origin: string) returns (request: Option<SignUpRequest>, toast: Option<Toast>)
      modifies this
      requires !isLoading
      ensures !IsInviteFlow(inviteToken) && CompanyNameTooShort(data.companyName) ==>
        request.None? && toast == Some(ErrorToast("Error", CompanyTooShortMessage)) && !isLoading
      ensures !(!IsInviteFlow(inviteToken) && CompanyNameTooShort(data.companyName)) ==>
        request == Some(SignUpCall(data, inviteToken, origin)) && toast.None? && isLoading
    {
      if !IsInviteFlow(inviteToken) && CompanyNameTooShort(data.companyName) {
        return None, Some(ErrorToast("Error", CompanyTooShortMessage));
      }
      isLoading := true;
      request := Some(SignUpCall(data, inviteToken, origin));
      toast := None;
    }

    /** onSubmit after the sign-up call; `signUpError` is the error it answers
        with, if any. */
    method FinishSubmit(signUpError: Option<string>) returns (toast: Option<Toast>, next: Option<string>)
      modifies this
      requires isLoading
      ensures !isLoading
      ensures signUpError.Some? ==> toast == Some(ErrorToast("Error", signUpError.value)) && next.None?
      ensures signUpError.None? ==> toast.None? && next == Some("/verify-email")
    {
      isLoading := false;
      if signUpError.Some? {
        return Some(ErrorToast("Error", signUpError.value)), None;
      }
      toast := None;
      next := Some("/verify-email");
    }
  }

  /** Once the schema accepts the values, the specification's outcome is decided by
      the company check and the sign-up reply alone. */
  lemma SubmitSpecAfterSchema(data: SignUpData, inviteToken: Option<string>, origin: string,
                            isEmail: string -> bool, signUpError: Option<string>)
    requires SignUpSchema(data, isEmail) == []
    ensures var o := SubmitSpec(data, inviteToken, origin, isEmail, signUpError);
      && (o.CompanyRejected? <==> !IsInviteFlow(inviteToken) && CompanyNameTooShort(data.companyName))
      && (o.SignUpFailed? ==> o.request == SignUpCall(data, inviteToken, origin) && signUpError == Some(o.message))
      && (o.SignedUp? ==> o.request == SignUpCall(data, inviteToken, origin) && signUpError.None?)
      && !o.Invalid?
  {
  }
}
