/**
 * The email-change callback (app/auth/email-change/callback/route.ts): after the
 * auth provider confirms an address, the profile's email is brought in line with
 * the signed-in user's, and the user is sent back with a status of success,
 * pending or invalid.
 */
module EmailChange {
  import opened Wrappers
  import opened Text
  import Redirect

  /** The verification types the auth provider accepts. */
  datatype VerifyType = Signup | Invite | Magiclink | Recovery | EmailChangeType | Email
  {
    function Name(): string {
      match this
      case Signup => "signup"
      case Invite => "invite"
      case Magiclink => "magiclink"
      case Recovery => "recovery"
      case EmailChangeType => "email_change"
      case Email => "email"
    }
  }

  /** normalizeVerifyType: the six known names map to themselves, the two halves of
      an email change map to email_change, and anything else (or nothing) to None. */
  function NormalizeVerifyType(raw: Option<string>): (r: Option<VerifyType>)
    ensures r.Some? <==>
      raw.Some? && raw.value in {"signup", "invite", "magiclink", "recovery", "email_change", "email",
                    "email_change_current", "email_change_new"}
    ensures r.Some? && raw.value != "email_change_current" && raw.value != "email_change_new" ==> r.value.Name() == raw.value
    ensures raw == Some("email_change_current") || raw == Some("email_change_new") ==> r == Some(EmailChangeType)
  {
    if raw.None? || raw.value == "" then None
    else match raw.value
      case "signup" => Some(Signup)
      case "invite" => Some(Invite)
      case "magiclink" => Some(Magiclink)
      case "recovery" => Some(Recovery)
      case "email_change" => Some(EmailChangeType)
      case "email" => Some(Email)
      case "email_change_current" => Some(EmailChangeType)
      case "email_change_new" => Some(EmailChangeType)
      case _ => None
  }

  datatype EmailChangeStatus = Succeeded | Pending | Invalid
  {
    function Name(): string {
      match this
      case Succeeded => "success"
      case Pending => "pending"
      case Invalid => "invalid"
    }
  }

  /** The email columns of a profiles row. */
  datatype ProfileEmails = ProfileEmails(
    email: string,
    pendingEmail: Option<string>,
    pendingEmailRequestedAt: Option<string>,
    pendingEmailVerificationSentAt: Option<string>)

  /** The outcome of syncEmailChangeState: the status, the profiles afterwards, and
      the address the auth account is reverted to, if any. */
  datatype SyncOutcome = SyncOutcome(status: EmailChangeStatus, profiles: map<string, ProfileEmails>, revertTo: Option<string>)

  /** The stored pending address as the callback compares it; "" when there is none. */
  function PendingOf(p: ProfileEmails): string {
    if p.pendingEmail.Some? then LowerTrim(p.pendingEmail.value) else ""
  }

  /** The profile once the pending address is confirmed. */
  function Confirmed(p: ProfileEmails, authEmail: string): ProfileEmails {
    ProfileEmails(authEmail, None, None, None)
  }

  /** syncEmailChangeState for the user `userId` whose auth address, normalised, is
      `authEmail`. A profile that cannot be read is `readFails`; a failed profile
      update is `updateFails`. */
  function Sync(profiles: map<string, ProfileEmails>, userId: string, authEmail: string, readFails: bool, updateFails: bool): SyncOutcome {
    if readFails || userId !in profiles then SyncOutcome(Invalid, profiles, None)
    else
      var p := profiles[userId];
      var pending := PendingOf(p);
      if pending != "" && authEmail == pending then
        if updateFails then SyncOutcome(Invalid, profiles, None)
        else SyncOutcome(Succeeded, profiles[userId := Confirmed(p, authEmail)], None)
      else if pending != "" then SyncOutcome(Pending, profiles, None)
      else if authEmail != LowerTrim(p.email) then SyncOutcome(Invalid, profiles, Some(LowerTrim(p.email)))
      else SyncOutcome(Succeeded, profiles, None)
  }

  /** The query of the callback URL. */
  datatype CallbackQuery = CallbackQuery(
    code: Option<string>,
    tokenHash: Option<string>,
    token: Option<string>,
    verifyType: Option<string>,
    redirect: Option<string>)

  /** The auth call the callback makes before it reads the user. */
  datatype AuthCall = NoAuthCall | ExchangeCode(code: string) | VerifyOtp(tokenHash: string, verifyType: VerifyType)

  /** The signed-in user as the auth provider reports it after that call. */
  datatype AuthUser = AuthUser(id: string, email: Option<string>)

  /** Where the callback sends the browser: to sign in first (returning to a path with
      a status), or back to a path with a status. The URL text is not modelled. */
  datatype CallbackRedirect =
    | SignInFirst(reason: string, returnPath: string, returnStatus: EmailChangeStatus)
    | BackTo(path: string, status: EmailChangeStatus)

  datatype CallbackOutcome = CallbackOutcome(redirect: CallbackRedirect, authCall: AuthCall, profiles: map<string, ProfileEmails>, revertTo: Option<string>)

  /** The token used for verification: `token_hash`, else `token`. */
  function TokenOf(query: CallbackQuery): Option<string> {
    if Present(query.tokenHash) then query.tokenHash else query.token
  }

  /** The auth call: exchange the code when there is one, else verify the token with
      its type when both are there, else none. */
  function AuthCallOf(query: CallbackQuery): (r: AuthCall)
    ensures Present(query.code) ==> r == ExchangeCode(query.code.value)
    ensures !Present(query.code) && Present(TokenOf(query)) && NormalizeVerifyType(query.verifyType).Some? ==>
      r == VerifyOtp(TokenOf(query).value, NormalizeVerifyType(query.verifyType).value)
    ensures r == NoAuthCall <==> !Present(query.code) && (!Present(TokenOf(query)) || NormalizeVerifyType(query.verifyType).None?)
  {
    if Present(query.code) then ExchangeCode(query.code.value)
    else if !Present(TokenOf(query)) || NormalizeVerifyType(query.verifyType).None? then NoAuthCall
    else VerifyOtp(TokenOf(query).value, NormalizeVerifyType(query.verifyType).value)
  }

  /** The specification of GET: whichever auth call is made and however it ends, the
      decision rests on the user read afterwards. */
  function CallbackSpec(profiles: map<string, ProfileEmails>, query: CallbackQuery, user: Option<AuthUser>,
                        readFails: bool, updateFails: bool): CallbackOutcome
  {
    var redirectPath := Redirect.GetSafeRedirectPath(query.redirect, "/profile");
    var call := AuthCallOf(query);
    if user.None? then CallbackOutcome(SignInFirst("email_change", redirectPath, Pending), call, profiles, None)
    else
      var authEmail := if user.value.email.Some? then LowerTrim(user.value.email.value) else "";
      if authEmail == "" then CallbackOutcome(BackTo(redirectPath, Pending), call, profiles, None)
      else
        var o := Sync(profiles, user.value.id, authEmail, readFails, updateFails);
        CallbackOutcome(BackTo(redirectPath, o.status), call, o.profiles, o.revertTo)
  }

  // ---------------------------------------------------------------------------
  // Properties

  /** The four branches of the sync: a confirmed pending address becomes the email
      and clears the pending columns; a different pending address leaves all as it is;
      without a pending address a mismatching account is reverted to the profile's
      address and reported invalid whatever the revert does; otherwise success. */
  lemma SyncBranches(profiles: map<string, ProfileEmails>, userId: string, authEmail: string, updateFails: bool)
    requires userId in profiles
    ensures var o := Sync(profiles, userId, authEmail, false, updateFails);
      var p := profiles[userId];
      var pending := PendingOf(p);
      && (pending != "" && authEmail == pending && !updateFails ==>
            o == SyncOutcome(Succeeded, profiles[userId := ProfileEmails(authEmail, None, None, None)], None))
      && (pending != "" && authEmail == pending && updateFails ==> o == SyncOutcome(Invalid, profiles, None))
      && (pending != "" && authEmail != pending ==> o == SyncOutcome(Pending, profiles, None))
      && (pending == "" && authEmail != LowerTrim(p.email) ==> o == SyncOutcome(Invalid, profiles, Some(LowerTrim(p.email))))
      && (pending == "" && authEmail == LowerTrim(p.email) ==> o == SyncOutcome(Succeeded, profiles, None))
  {
  }

  /** A missing or unreadable profile is invalid and changes nothing. */
  lemma MissingProfileIsInvalid(profiles: map<string, ProfileEmails>, userId: string, authEmail: string, readFails: bool, updateFails: bool)
    requires readFails || userId !in profiles
    ensures Sync(profiles, userId, authEmail, readFails, updateFails) == SyncOutcome(Invalid, profiles, None)
  {
  }

  /** Sync touches at most the caller's own profile. */
  lemma SyncTouchesOwnProfileOnly(profiles: map<string, ProfileEmails>, userId: string, authEmail: string, readFails: bool, updateFails: bool)
    ensures var o := Sync(profiles, userId, authEmail, readFails, updateFails);
      && o.profiles.Keys == profiles.Keys
      && forall other :: other in profiles && other != userId ==> o.profiles[other] == profiles[other]
  {
  }

  /** Once a sync has succeeded, the callback settles: syncing again with the same
      normalised address succeeds with no change and no revert. */
  lemma {:induction false} SyncSettles(profiles: map<string, ProfileEmails>, userId: string, email: string, updateFails: bool, updateFails': bool)
    requires Sync(profiles, userId, LowerTrim(email), false, updateFails).status == Succeeded
    ensures var o := Sync(profiles, userId, LowerTrim(email), false, updateFails);
      Sync(o.profiles, userId, LowerTrim(email), false, updateFails') == SyncOutcome(Succeeded, o.profiles, None)
  {
    var authEmail := LowerTrim(email);
    var o := Sync(profiles, userId, authEmail, false, updateFails);
    var p := profiles[userId];
    if PendingOf(p) != "" && authEmail == PendingOf(p) {
      assert o.profiles[userId] == ProfileEmails(authEmail, None, None, None);
      LowerTrimIdempotent(email);
      assert LowerTrim(o.profiles[userId].email) == authEmail;
    }
  }

  /** After a successful revert, the account's address normalises to the profile's,
      so the next callback for it succeeds. */
  lemma RevertRestoresAgreement(profiles: map<string, ProfileEmails>, userId: string, authEmail: string, updateFails: bool, updateFails': bool)
    requires Sync(profiles, userId, authEmail, false, updateFails).revertTo.Some?
    ensures var reverted := Sync(profiles, userId, authEmail, false, updateFails).revertTo.value;
      Sync(profiles, userId, LowerTrim(reverted), false, updateFails') == SyncOutcome(Succeeded, profiles, None)
  {
    LowerTrimIdempotent(profiles[userId].email);
  }

  /** GET without a signed-in user sends the browser to sign in with reason
      email_change, to return with status pending; a user without an address is
      pending; and the return path is the sanitised redirect, "/profile" by default. */
  lemma CallbackOutcomes(profiles: map<string, ProfileEmails>, query: CallbackQuery, user: Option<AuthUser>, readFails: bool, updateFails: bool)
    ensures var o := CallbackSpec(profiles, query, user, readFails, updateFails);
      var path := Redirect.GetSafeRedirectPath(query.redirect, "/profile");
      && (user.None? ==> o.redirect == SignInFirst("email_change", path, Pending) && o.profiles == profiles && o.revertTo.None?)
      && (user.Some? && (user.value.email.None? || IsBlank(user.value.email.value)) ==>
            o.redirect == BackTo(path, Pending) && o.profiles == profiles)
      && (query.redirect.None? ==> path == "/profile")
      && StartsWith(path, "/") && !StartsWith(path, "//")
  {
    assert "/profile"[..1] == "/" && "/profile"[..2] == "/p";
    Redirect.ResultIsSafe(query.redirect, "/profile");
  }

  // ---------------------------------------------------------------------------
  // The profiles table

  /** The profiles the callback reads and updates. */
  class ProfileStore {
    var profiles: map<string, ProfileEmails>

    constructor(profiles: map<string, ProfileEmails>)
      ensures this.profiles == profiles
    {
      this.profiles := profiles;
    }

    /** syncEmailChangeState on the store. */
    method SyncEmailChangeState(userId: string, authEmail: string, readFails: bool, updateFails: bool)
      returns (status: EmailChangeStatus, revertTo: Option<string>)
      modifies this
      ensures SyncOutcome(status, profiles, revertTo) == Sync(old(profiles), userId, authEmail, readFails, updateFails)
    {
      revertTo := None;
      if readFails || userId !in profiles {
        return Invalid, None;
      }
      var p := profiles[userId];
      var pending := PendingOf(p);
      if pending != "" && authEmail == pending {
        if updateFails {
          return Invalid, None;
        }
        profiles := profiles[userId := Confirmed(p, authEmail)];
        return Succeeded, None;
      }
      if pending != "" {
        return Pending, None;
      }
      var profileEmail := LowerTrim(p.email);
      if authEmail != profileEmail {
        return Invalid, Some(profileEmail);
      }
      status := Succeeded;
    }

    /** GET on the store. */
    method HandleCallback(query: CallbackQuery, user: Option<AuthUser>, readFails: bool, updateFails: bool)
      returns (redirect: CallbackRedirect, authCall: AuthCall, revertTo: Option<string>)
      modifies this
      ensures CallbackOutcome(redirect, authCall, profiles, revertTo) == CallbackSpec(old(profiles), query, user, readFails, updateFails)
    {
      var redirectPath := Redirect.GetSafeRedirectPath(query.redirect, "/profile");
      authCall := AuthCallOf(query);
      revertTo := None;
      if user.None? {
        redirect := SignInFirst("email_change", redirectPath, Pending);
        return;
      }
      var authEmail := if user.value.email.Some? then LowerTrim(user.value.email.value) else "";
      if authEmail == "" {
        redirect := BackTo(redirectPath, Pending);
        return;
      }
      var status;
      status, revertTo := SyncEmailChangeState(user.value.id, authEmail, readFails, updateFails);
      redirect := BackTo(redirectPath, status);
    }
  }
}
