/**
 * Whether an invitation token names a pending, unexpired invitation
 * (lib/invite/context.ts). The SHA-256 hex digest of the token is a parameter, and
 * the invitations table is a map keyed by that digest.
 */
module InviteContext {
  import opened Wrappers
  import opened Time

  /** The invitation columns the check reads. */
  datatype Invitation = Invitation(companyId: string, email: string, status: string, expiresAt: Timestamp)

  /** InviteContext: the company and address of a pending invitation. */
  datatype Context = Context(companyId: string, email: string)

  /** `Date.parse(expires_at) <= Date.now()` is false: an unparseable expiry is NaN,
      which compares false, so it does not count as expired. */
  predicate NotExpired(expiresAt: Timestamp, now: int) {
    expiresAt.Unparseable? || expiresAt.ms > now
  }

  /** getPendingInviteContext: no lookup for an empty token; otherwise the row keyed
      by the token's digest, if the lookup succeeded, the row is pending and it has
      not expired. */
  function GetPendingInviteContext(token: string, digest: string -> string, invitations: map<string, Invitation>,
                                   lookupFails: bool, now: int): Option<Context>
  {
    if token == "" then None
    else
      var key := digest(token);
      if lookupFails || key !in invitations then None
      else
        var invitation := invitations[key];
        if invitation.status != "pending" then None
        else if !NotExpired(invitation.expiresAt, now) then None
        else Some(Context(invitation.companyId, invitation.email))
  }

  /** A context is returned exactly for a non-empty token whose digest names a pending
      invitation that expires strictly after now, and it is that row's company and
      address. */
  lemma ContextIffValid(token: string, digest: string -> string, invitations: map<string, Invitation>, lookupFails: bool, now: int)
    ensures var r := GetPendingInviteContext(token, digest, invitations, lookupFails, now);
      && (r.Some? <==>
            && token != "" && !lookupFails && digest(token) in invitations
            && invitations[digest(token)].status == "pending"
            && NotExpired(invitations[digest(token)].expiresAt, now))
      && (r.Some? ==> r.value == Context(invitations[digest(token)].companyId, invitations[digest(token)].email))
  {
  }

  /** Expiry is strict: an invitation expiring exactly now is no longer valid, one
      expiring a millisecond later still is. */
  lemma ExpiryIsStrict(token: string, digest: string -> string, invitations: map<string, Invitation>, now: int)
    requires token != "" && digest(token) in invitations && invitations[digest(token)].status == "pending"
    ensures invitations[digest(token)].expiresAt == At(now) ==> GetPendingInviteContext(token, digest, invitations, false, now).None?
    ensures invitations[digest(token)].expiresAt == At(now + 1) ==> GetPendingInviteContext(token, digest, invitations, false, now).Some?
  {
  }

  /** The raw token is looked up only through its digest: with an injective digest,
      a token finds a row only under its own digest, and two tokens with the same
      digest get the same answer. */
  lemma LookupByDigestOnly(a: string, b: string, digest: string -> string, invitations: map<string, Invitation>, lookupFails: bool, now: int)
    requires a != "" && b != ""
    requires forall x, y :: digest(x) == digest(y) ==> x == y
    ensures digest(a) == digest(b) ==>
      GetPendingInviteContext(a, digest, invitations, lookupFails, now) == GetPendingInviteContext(b, digest, invitations, lookupFails, now)
    ensures a != b ==>
      GetPendingInviteContext(a, digest, invitations - {digest(b)}, lookupFails, now) == GetPendingInviteContext(a, digest, invitations, lookupFails, now)
  {
  }
}
