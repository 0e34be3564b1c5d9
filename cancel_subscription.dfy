/**
 * Cancelling at period end (app/api/billing/subscription/cancel/route.ts): an owner
 * asks to stop the company's subscription; the provider subscription is cancelled
 * and the row is marked to end with the current period. A subscription already
 * cancelled, or already marked, answers without any change.
 */
module CancelSubscription {
  import opened Wrappers
  import opened Text
  import opened Time
  import opened Mollie
  import opened BillingStore

  /** The reply: the subscription status, the cancel flag and the period end, or
      `{ error: { code, message } }` with a status. */
  datatype CancelReply =
    | CancelAccepted(subscriptionStatus: string, cancelAtPeriodEnd: bool, currentPeriodEnd: Option<Timestamp>)
    | CancelFailed(status: int, code: string, message: string)

  /** The provider subscription to cancel. */
  datatype CancelRequest = CancelRequest(customerId: string, subscriptionId: string)

  datatype CancelOutcome = CancelOutcome(reply: CancelReply, tables: Tables, request: Option<CancelRequest>)

  const SignInMessage := "You must be signed in to cancel your subscription."
  const ProfileMessage := "Profile not found for current session."
  const OwnerMessage := "Only owners can cancel subscriptions."
  const NotFoundMessage := "Subscription not found for this company."
  const PendingMessage := "Cannot cancel a pending subscription."
  const NotLinkedMessage := "Subscription is not linked to Mollie."
  const CancelFailedMessage := "Failed to cancel Mollie subscription."

  /** The owner's company subscription, when the caller is an owner and has one. */
  function Locate(t: Tables, session: Session): (r: Option<string>)
    ensures r.Some? <==> session.SignedIn? && session.profile.role == "owner" && CompanySubscription(t, session.profile.companyId).Some?
    ensures r.Some? ==> r == CompanySubscription(t, session.profile.companyId)
  {
    if session.NoUser? || session.NoProfile? || session.profile.role != "owner" then None
    else CompanySubscription(t, session.profile.companyId)
  }

  function LocateFailure(session: Session): CancelReply {
    if session.NoUser? then CancelFailed(401, "UNAUTHENTICATED", SignInMessage)
    else if session.NoProfile? then CancelFailed(401, "UNAUTHENTICATED", ProfileMessage)
    else if session.profile.role != "owner" then CancelFailed(403, "FORBIDDEN", OwnerMessage)
    else CancelFailed(404, "NOT_FOUND", NotFoundMessage)
  }

  /** The answer without any change when there is nothing left to cancel. */
  function AlreadyCancelled(s: Subscription): (r: Option<CancelReply>)
    ensures r.Some? <==> s.status == "canceled" || s.cancelAtPeriodEnd == Some(true)
    ensures r.Some? ==> r.value.CancelAccepted? && r.value.subscriptionStatus == s.status && r.value.currentPeriodEnd == s.currentPeriodEnd
    ensures r.Some? ==> (r.value.cancelAtPeriodEnd <==> s.cancelAtPeriodEnd == Some(true))
  {
    if s.status == "canceled" then Some(CancelAccepted(s.status, s.cancelAtPeriodEnd.GetOr(false), s.currentPeriodEnd))
    else if s.cancelAtPeriodEnd == Some(true) then Some(CancelAccepted(s.status, true, s.currentPeriodEnd))
    else None
  }

  /** The specification of POST /api/billing/subscription/cancel. */
  function CancelSpec(t: Tables, session: Session, cancelError: Option<Thrown>): CancelOutcome {
    match Locate(t, session)
    case None => CancelOutcome(LocateFailure(session), t, None)
    case Some(id) =>
      var s := t.subscriptions[id];
      match AlreadyCancelled(s)
      case Some(reply) => CancelOutcome(reply, t, None)
      case None =>
        if s.status == "pending" then CancelOutcome(CancelFailed(409, "INVALID_STATE", PendingMessage), t, None)
        else if !Present(s.mollieSubscriptionId) || !Present(s.mollieCustomerId) then
          CancelOutcome(CancelFailed(409, "INVALID_STATE", NotLinkedMessage), t, None)
        else
          var request := CancelRequest(s.mollieCustomerId.value, s.mollieSubscriptionId.value);
          if cancelError.Some? then
            CancelOutcome(CancelFailed(502, "CANCEL_FAILED", ReportedMessage(cancelError.value, CancelFailedMessage)), t, Some(request))
          else
            CancelOutcome(CancelAccepted("active", true, s.currentPeriodEnd),
              t.(subscriptions := t.subscriptions[id := s.(cancelAtPeriodEnd := Some(true))]), Some(request))
  }

  // ---------------------------------------------------------------------------
  // Properties

  /** Without an owner's subscription the request is refused, writing and sending
      nothing. */
  lemma GuardsWriteNothing(t: Tables, session: Session, cancelError: Option<Thrown>)
    requires Locate(t, session).None?
    ensures var o := CancelSpec(t, session, cancelError);
      && o.tables == t && o.request.None? && o.reply.CancelFailed?
      && (session.NoUser? || session.NoProfile? ==> o.reply.status == 401)
      && (session.SignedIn? && session.profile.role != "owner" ==> o.reply == CancelFailed(403, "FORBIDDEN", OwnerMessage))
      && (session.SignedIn? && session.profile.role == "owner" ==> o.reply == CancelFailed(404, "NOT_FOUND", NotFoundMessage))
  {
  }

  /** A cancelled subscription, or one already marked to cancel, is answered with
      success and left alone; the reported flag is the stored one, null read as false,
      and true for a marked one. These answers come before the pending check. */
  lemma AlreadyCancelledIsNoOp(t: Tables, session: Session, cancelError: Option<Thrown>)
    requires Locate(t, session).Some?
    requires var s := t.subscriptions[Locate(t, session).value];
      s.status == "canceled" || s.cancelAtPeriodEnd == Some(true)
    ensures var o := CancelSpec(t, session, cancelError);
      var s := t.subscriptions[Locate(t, session).value];
      && o.tables == t && o.request.None?
      && o.reply == CancelAccepted(s.status, if s.status == "canceled" then s.cancelAtPeriodEnd.GetOr(false) else true, s.currentPeriodEnd)
  {
  }

  /** A pending subscription, and one not linked to a provider customer and
      subscription, are refused with 409 INVALID_STATE, writing and sending nothing. */
  lemma StateGuards(t: Tables, session: Session, cancelError: Option<Thrown>)
    requires Locate(t, session).Some?
    requires AlreadyCancelled(t.subscriptions[Locate(t, session).value]).None?
    ensures var o := CancelSpec(t, session, cancelError);
      var s := t.subscriptions[Locate(t, session).value];
      && (s.status == "pending" ==> o == CancelOutcome(CancelFailed(409, "INVALID_STATE", PendingMessage), t, None))
      && (s.status != "pending" && (!Present(s.mollieSubscriptionId) || !Present(s.mollieCustomerId)) ==>
            o == CancelOutcome(CancelFailed(409, "INVALID_STATE", NotLinkedMessage), t, None))
  {
  }

  /** Cancelling writes nothing but the cancel flag of the company's row, and only
      after the provider accepted: the status is untouched, and a provider failure
      writes nothing. A successful cancel reports "active" whatever the stored status. */
  lemma CancelWritesOnlyFlag(t: Tables, session: Session, cancelError: Option<Thrown>)
    requires Locate(t, session).Some?
    ensures var o := CancelSpec(t, session, cancelError);
      var id := Locate(t, session).value;
      var s := t.subscriptions[id];
      && (o.tables == t || o.tables == t.(subscriptions := t.subscriptions[id := s.(cancelAtPeriodEnd := Some(true))]))
      && (o.tables != t ==>
            && cancelError.None? && s.status != "canceled" && s.status != "pending"
            && o.request == Some(CancelRequest(s.mollieCustomerId.value, s.mollieSubscriptionId.value))
            && o.reply == CancelAccepted("active", true, s.currentPeriodEnd))
      && (cancelError.Some? ==> o.tables == t)
  {
  }

  /** Cancelling twice leaves the tables as cancelling once, the second request
      reaches no provider, and both report the same flag. */
  lemma CancelTwiceIsCancelOnce(t: Tables, session: Session, cancelError: Option<Thrown>, cancelError': Option<Thrown>)
    requires CancelSpec(t, session, cancelError).reply.CancelAccepted?
    ensures var t1 := CancelSpec(t, session, cancelError).tables;
      var o' := CancelSpec(t1, session, cancelError');
      && o'.tables == t1 && o'.request.None? && o'.reply.CancelAccepted?
      && o'.reply.cancelAtPeriodEnd == CancelSpec(t, session, cancelError).reply.cancelAtPeriodEnd
  {
    var id := Locate(t, session).value;
    var t1 := CancelSpec(t, session, cancelError).tables;
    assert CompanySubscription(t1, session.profile.companyId) == Some(id);
  }

  /** Cancelling keeps the company index and the subscriptions in agreement. */
  lemma CancelKeepsConsistent(t: Tables, session: Session, cancelError: Option<Thrown>)
    requires Consistent(t)
    ensures Consistent(CancelSpec(t, session, cancelError).tables)
  {
    if Locate(t, session).Some? {
      var id := Locate(t, session).value;
      UpdateKeepsConsistent(t, id, t.subscriptions[id].(cancelAtPeriodEnd := Some(true)));
    }
  }

  // ---------------------------------------------------------------------------
  // The handler on the store

  /** POST: the handler on the store. */
  method CancelAtPeriodEnd(db: Store, session: Session, cancelError: Option<Thrown>)
    returns (reply: CancelReply, request: Option<CancelRequest>)
    modifies db
    ensures CancelOutcome(reply, db.Snapshot(), request) == CancelSpec(old(db.Snapshot()), session, cancelError)
  {
    var located := Locate(db.Snapshot(), session);
    if located.None? {
      return LocateFailure(session), None;
    }
    var id := located.value;
    var s := db.subscriptions[id];
    var idempotent := AlreadyCancelled(s);
    if idempotent.Some? {
      return idempotent.value, None;
    }
    if s.status == "pending" {
      return CancelFailed(409, "INVALID_STATE", PendingMessage), None;
    }
    if !Present(s.mollieSubscriptionId) || !Present(s.mollieCustomerId) {
      return CancelFailed(409, "INVALID_STATE", NotLinkedMessage), None;
    }
    request := Some(CancelRequest(s.mollieCustomerId.value, s.mollieSubscriptionId.value));
    if cancelError.Some? {
      return CancelFailed(502, "CANCEL_FAILED", ReportedMessage(cancelError.value, CancelFailedMessage)), request;
    }
    db.subscriptions := db.subscriptions[id := s.(cancelAtPeriodEnd := Some(true))];
    reply := CancelAccepted("active", true, s.currentPeriodEnd);
  }
}
