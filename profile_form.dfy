/**
 * The profile form (components/profile/profile-form.tsx, lib/profile/avatar.ts):
 * the full-name schema, choosing and uploading an avatar, and requesting or
 * cancelling a change of email address. Each asynchronous handler is split into
 * the part that runs before the server answers (Start...) and the part that runs
 * after (Finish...), so that a second click while a call is in flight is modelled.
 */
module ProfileForm {
  import opened Wrappers
  import opened Text

  // ---------------------------------------------------------------------------
  // Full name

  const NameTooShort := "Full name must be at least 2 characters"
  const NameTooLong := "Full name must be less than 100 characters"

  /** The outcome of the profile schema: the trimmed name, or the first message. */
  datatype NameCheck = NameAccepted(fullName: string) | NameRejected(message: string)

  /** profileSchema: the name is trimmed, then needs 2 to 100 characters. */
  function ProfileSchema(fullName: string): (r: NameCheck)
    ensures r.NameAccepted? <==> 2 <= |Trim(fullName)| <= 100
    ensures r.NameAccepted? ==> r.fullName == Trim(fullName)
    ensures r.NameRejected? && |Trim(fullName)| < 2 ==> r.message == NameTooShort
    ensures r.NameRejected? && |Trim(fullName)| >= 2 ==> r.message == NameTooLong
  {
    var trimmed := Trim(fullName);
    if |trimmed| < 2 then NameRejected(NameTooShort)
    else if |trimmed| > 100 then NameRejected(NameTooLong)
    else NameAccepted(trimmed)
  }

  /** An accepted name is accepted again unchanged, and a blank one is too short. */
  lemma ProfileSchemaSettles(fullName: string)
    ensures ProfileSchema(fullName).NameAccepted? ==>
      ProfileSchema(ProfileSchema(fullName).fullName) == ProfileSchema(fullName)
    ensures IsBlank(fullName) ==> ProfileSchema(fullName) == NameRejected(NameTooShort)
  {
    TrimIdempotent(fullName);
  }

  // ---------------------------------------------------------------------------
  // Avatar file

  /** 2 MiB. */
  const AvatarMaxFileSizeBytes := 2 * 1024 * 1024
  const AvatarAllowedMimeTypes := ["image/jpeg", "image/png", "image/webp"]
  const AvatarTypeError := "Only JPG, PNG, and WebP files are allowed."
  const AvatarSizeError := "Avatar must be 2MB or smaller."

  /** A chosen file, as far as the form reads it. */
  datatype AvatarFile = AvatarFile(mimeType: string, size: nat)

  predicate AvatarAccepted(file: AvatarFile) {
    file.mimeType in AvatarAllowedMimeTypes && file.size <= AvatarMaxFileSizeBytes
  }

  /** The selection and the error after choosing a file (or none). */
  datatype AvatarChoice = AvatarChoice(selection: Option<AvatarFile>, error: Option<string>)

  /** handleAvatarFileChange's decision: the type is checked before the size. */
  function CheckAvatarFile(file: Option<AvatarFile>): (c: AvatarChoice)
    ensures c.selection.Some? <==> file.Some? && AvatarAccepted(file.value)
    ensures c.selection.Some? ==> c.selection == file && c.error.None?
  {
    if file.None? then AvatarChoice(None, None)
    else if file.value.mimeType !in AvatarAllowedMimeTypes then AvatarChoice(None, Some(AvatarTypeError))
    else if file.value.size > AvatarMaxFileSizeBytes then AvatarChoice(None, Some(AvatarSizeError))
    else AvatarChoice(file, None)
  }

  /** No file clears the selection and the error; a file of another type is refused
      for its type whatever its size; an allowed type is refused above 2097152
      bytes and accepted at exactly 2097152. */
  lemma AvatarFileCases(mimeType: string, size: nat)
    ensures CheckAvatarFile(None) == AvatarChoice(None, None)
    ensures mimeType !in {"image/jpeg", "image/png", "image/webp"} ==>
      CheckAvatarFile(Some(AvatarFile(mimeType, size))) == AvatarChoice(None, Some("Only JPG, PNG, and WebP files are allowed."))
    ensures mimeType in {"image/jpeg", "image/png", "image/webp"} && size > 2097152 ==>
      CheckAvatarFile(Some(AvatarFile(mimeType, size))) == AvatarChoice(None, Some("Avatar must be 2MB or smaller."))
    ensures mimeType in {"image/jpeg", "image/png", "image/webp"} && size <= 2097152 ==>
      CheckAvatarFile(Some(AvatarFile(mimeType, size))) == AvatarChoice(Some(AvatarFile(mimeType, size)), None)
  {
  }

  // ---------------------------------------------------------------------------
  // Results and toasts

  /** What a server action answered; `value` is the new avatar URL of an upload or
      the pending address of an email-change request. */
  datatype ActionResult = ActionOk(value: Option<string>) | ActionFailed(error: Option<string>)

  datatype Toast = ErrorToast(title: string, description: Option<string>)
                 | SuccessToast(title: string, description: Option<string>)

  const ReadOnlyError := "WORKSPACE_READ_ONLY"

  /** The toast for a failed call: `result.error ?? 'Please try again.'`, or the
      read-only notice where the handler checks for it. */
  function FailureToast(title: string, error: Option<string>, checksReadOnly: bool): (t: Toast)
    ensures t.ErrorToast?
    ensures checksReadOnly && error == Some(ReadOnlyError) ==> t == ErrorToast("Workspace is read-only.", None)
    ensures !(checksReadOnly && error == Some(ReadOnlyError)) ==>
      t == ErrorToast(title, Some(if error.Some? then error.value else "Please try again."))
  {
    if checksReadOnly && error == Some(ReadOnlyError) then ErrorToast("Workspace is read-only.", None)
    else ErrorToast(title, Some(error.GetOr("Please try again.")))
  }

  /** The address pending after a successful request: the server's, else the
      input trimmed and lowercased. */
  function NextPendingEmail(serverValue: Option<string>, input: string): (r: string)
    ensures serverValue.Some? ==> r == serverValue.value
    ensures serverValue.None? ==> r == LowerTrim(input)
  {
    serverValue.GetOr(LowerTrim(input))
  }

  /** Without a server value the pending address is already normalised: requesting
      it again would store the same address. */
  lemma NextPendingEmailNormalised(input: string)
    ensures var next := NextPendingEmail(None, input);
      NextPendingEmail(None, next) == next && (next == "" <==> IsBlank(input))
  {
    LowerTrimIdempotent(input);
  }

  // ---------------------------------------------------------------------------
  // The form

  /** The email-change part of the state. `sentAddress` is the address the running (or
      last) request sent: the handler's closure keeps the input of the click. */
  datatype EmailState = EmailState(pending: Option<string>, input: string, sentAddress: string,
                                   requesting: bool, resending: bool, cancelling: bool)

  /** The avatar part of the state. */
  datatype AvatarState = AvatarState(url: Option<string>, selection: Option<AvatarFile>, error: Option<string>,
                                     uploading: bool, removing: bool)

  class ProfileFormState {
    const isReadOnly: bool
    var isSaving: bool
    var email: EmailState
    var avatar: AvatarState

    /** A selected file passed the checks, and then no error is shown. */
    predicate Valid()
      reads this
    {
      avatar.selection.Some? ==> AvatarAccepted(avatar.selection.value) && avatar.error.None?
    }

    constructor(pendingEmail: Option<string>, avatarUrl: Option<string>, accessMode: string)
      ensures isReadOnly == (accessMode == "read_only") && !isSaving
      ensures email == EmailState(pendingEmail, pendingEmail.GetOr(""), "", false, false, false)
      ensures avatar == AvatarState(avatarUrl, None, None, false, false)
      ensures Valid()
    {
      isReadOnly := accessMode == "read_only";
      isSaving := false;
      email := EmailState(pendingEmail, pendingEmail.GetOr(""), "", false, false, false);
      avatar := AvatarState(avatarUrl, None, None, false, false);
    }

    /** onSubmit, reached only when the schema accepts the name: the trimmed name
        is sent. */
    method Submit(fullName: string, result: ActionResult) returns (sent: Option<string>, toast: Option<Toast>)
      modifies this
      requires Valid()
      ensures Valid()
      ensures ProfileSchema(fullName).NameRejected? ==> sent.None? && toast.None? && unchanged(this)
      ensures ProfileSchema(fullName).NameAccepted? ==>
        && sent == Some(Trim(fullName)) && !isSaving
        && toast == Some(if result.ActionOk? then SuccessToast("Profile updated", None)
                         else FailureToast("Failed to update profile", result.error, true))
      ensures email == old(email) && avatar == old(avatar)
    {
      var check := ProfileSchema(fullName);
      if check.NameRejected? {
        return None, None;
      }
      isSaving := true;
      sent := Some(check.fullName);
      isSaving := false;
      if result.ActionOk? {
        toast := Some(SuccessToast("Profile updated", None));
      } else {
        toast := Some(FailureToast("Failed to update profile", result.error, true));
      }
    }

    /** handleAvatarFileChange. */
    method HandleAvatarFileChange(file: Option<AvatarFile>)
      modifies this
      requires Valid()
      ensures Valid()
      ensures var c := CheckAvatarFile(file);
        avatar == old(avatar).(selection := c.selection, error := c.error)
      ensures email == old(email) && isSaving == old(isSaving)
    {
      avatar := avatar.(error := None);
      if file.None? {
        avatar := avatar.(selection := None);
        return;
      }
      if file.value.mimeType !in AvatarAllowedMimeTypes {
        avatar := avatar.(selection := None, error := Some(AvatarTypeError));
        return;
      }
      if file.value.size > AvatarMaxFileSizeBytes {
        avatar := avatar.(selection := None, error := Some(AvatarSizeError));
        return;
      }
      avatar := avatar.(selection := file);
    }

    /** onUploadAvatar up to the call: nothing without a selection or while an
        upload runs; the file sent always passed the checks. */
    method StartUpload() returns (sent: Option<AvatarFile>)
      modifies this
      requires Valid()
      ensures Valid()
      ensures old(avatar.selection).None? || old(avatar.uploading) ==> sent.None? && unchanged(this)
      ensures old(avatar.selection).Some? && !old(avatar.uploading) ==>
        sent == old(avatar.selection) && avatar == old(avatar).(uploading := true)
      ensures sent.Some? ==> AvatarAccepted(sent.value)
      ensures email == old(email) && isSaving == old(isSaving)
    {
      if avatar.selection.None? || avatar.uploading {
        return None;
      }
      avatar := avatar.(uploading := true);
      sent := avatar.selection;
    }

    /** onUploadAvatar after the call: on success the new URL is shown and the
        selection cleared. */
    method FinishUpload(result: ActionResult) returns (toast: Toast)
      modifies this
      requires Valid() && avatar.uploading
      ensures Valid()
      ensures result.ActionOk? ==>
        avatar == old(avatar).(uploading := false, url := result.value, selection := None)
        && toast == SuccessToast("Avatar uploaded", None)
      ensures result.ActionFailed? ==>
        avatar == old(avatar).(uploading := false)
        && toast == FailureToast("Failed to upload avatar", result.error, true)
      ensures email == old(email) && isSaving == old(isSaving)
    {
      avatar := avatar.(uploading := false);
      if result.ActionFailed? {
        return FailureToast("Failed to upload avatar", result.error, true);
      }
      avatar := avatar.(url := result.value, selection := None);
      toast := SuccessToast("Avatar uploaded", None);
    }

    /** onRemoveAvatar up to the call: nothing without an avatar or while a removal
        runs. */
    method StartRemoveAvatar() returns (called: bool)
      modifies this
      requires Valid()
      ensures Valid()
      ensures called <==> Present(old(avatar.url)) && !old(avatar.removing)
      ensures !called ==> unchanged(this)
      ensures called ==> avatar == old(avatar).(removing := true)
      ensures email == old(email) && isSaving == old(isSaving)
    {
      if !Present(avatar.url) || avatar.removing {
        return false;
      }
      avatar := avatar.(removing := true);
      called := true;
    }

    /** onRemoveAvatar after the call: on success the URL, the selection and the
        error are all cleared. */
    method FinishRemoveAvatar(result: ActionResult) returns (toast: Toast)
      modifies this
      requires Valid() && avatar.removing
      ensures Valid()
      ensures result.ActionOk? ==>
        avatar == old(avatar).(removing := false, url := None, selection := None, error := None)
        && toast == SuccessToast("Avatar removed", None)
      ensures result.ActionFailed? ==>
        avatar == old(avatar).(removing := false)
        && toast == FailureToast("Failed to remove avatar", result.error, true)
      ensures email == old(email) && isSaving == old(isSaving)
    {
      avatar := avatar.(removing := false);
      if result.ActionFailed? {
        return FailureToast("Failed to remove avatar", result.error, true);
      }
      avatar := avatar.(url := None, selection := None, error := None);
      toast := SuccessToast("Avatar removed", None);
    }

    /** Typing a new address; the field is disabled while a request or a resend
        runs. */
    method SetEmailInput(value: string)
      modifies this
      requires Valid() && !email.requesting && !email.resending
      ensures Valid()
      ensures email == old(email).(input := value)
      ensures avatar == old(avatar) && isSaving == old(isSaving)
    {
      email := email.(input := value);
    }

    /** onRequestEmailChange up to the call: the typed address is sent. */
    method StartEmailChangeRequest() returns (sent: Option<string>)
      modifies this
      requires Valid()
      ensures Valid()
      ensures old(email.requesting) ==> sent.None? && unchanged(this)
      ensures !old(email.requesting) ==>
        sent == Some(old(email.input)) && email == old(email).(requesting := true, sentAddress := old(email.input))
      ensures avatar == old(avatar) && isSaving == old(isSaving)
    {
      if email.requesting {
        return None;
      }
      email := email.(requesting := true, sentAddress := email.input);
      sent := Some(email.input);
    }

    /** onRequestEmailChange after the call: on success the pending address, shown
        in the field as well, is the server's or the normalised address that was
        sent, whatever the field holds by now. */
    method FinishEmailChangeRequest(result: ActionResult) returns (toast: Toast)
      modifies this
      requires Valid() && email.requesting
      ensures Valid()
      ensures result.ActionOk? ==>
        var next := NextPendingEmail(result.value, old(email.sentAddress));
        && email == old(email).(requesting := false, pending := Some(next), input := next)
        && toast == SuccessToast("Verification email sent", Some("Check " + next + " to confirm this change."))
      ensures result.ActionFailed? ==>
        email == old(email).(requesting := false)
        && toast == FailureToast("Failed to request email change", result.error, false)
      ensures avatar == old(avatar) && isSaving == old(isSaving)
    {
      email := email.(requesting := false);
      if result.ActionFailed? {
        return FailureToast("Failed to request email change", result.error, false);
      }
      var next := NextPendingEmail(result.value, email.sentAddress);
      email := email.(pending := Some(next), input := next);
      toast := SuccessToast("Verification email sent", Some("Check " + next + " to confirm this change."));
    }

    /** onResendEmailChangeVerification up to the call. */
    method StartResend() returns (called: bool)
      modifies this
      requires Valid()
      ensures Valid()
      ensures called <==> !old(email.resending)
      ensures !called ==> unchanged(this)
      ensures called ==> email == old(email).(resending := true)
      ensures avatar == old(avatar) && isSaving == old(isSaving)
    {
      if email.resending {
        return false;
      }
      email := email.(resending := true);
      called := true;
    }

    /** onResendEmailChangeVerification after the call: only a toast. */
    method FinishResend(result: ActionResult) returns (toast: Toast)
      modifies this
      requires Valid() && email.resending
      ensures Valid()
      ensures email == old(email).(resending := false)
      ensures toast == if result.ActionOk? then SuccessToast("Verification email resent", None)
                       else FailureToast("Failed to resend verification email", result.error, false)
      ensures avatar == old(avatar) && isSaving == old(isSaving)
    {
      email := email.(resending := false);
      if result.ActionOk? {
        toast := SuccessToast("Verification email resent", None);
      } else {
        toast := FailureToast("Failed to resend verification email", result.error, false);
      }
    }

    /** onCancelEmailChange up to the call. */
    method StartCancelEmailChange() returns (called: bool)
      modifies this
      requires Valid()
      ensures Valid()
      ensures called <==> !old(email.cancelling)
      ensures !called ==> unchanged(this)
      ensures called ==> email == old(email).(cancelling := true)
      ensures avatar == old(avatar) && isSaving == old(isSaving)
    {
      if email.cancelling {
        return false;
      }
      email := email.(cancelling := true);
      called := true;
    }

    /** onCancelEmailChange after the call: on success nothing is pending and the
        field is empty. */
    method FinishCancelEmailChange(result: ActionResult) returns (toast: Toast)
      modifies this
      requires Valid() && email.cancelling
      ensures Valid()
      ensures result.ActionOk? ==>
        email == old(email).(cancelling := false, pending := None, input := "")
        && toast == SuccessToast("Pending email change canceled", None)
      ensures result.ActionFailed? ==>
        email == old(email).(cancelling := false)
        && toast == FailureToast("Failed to cancel email change", result.error, false)
      ensures avatar == old(avatar) && isSaving == old(isSaving)
    {
      email := email.(cancelling := false);
      if result.ActionFailed? {
        return FailureToast("Failed to cancel email change", result.error, false);
      }
      email := email.(pending := None, input := "");
      toast := SuccessToast("Pending email change canceled", None);
    }
  }
}
