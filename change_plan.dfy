/**
 * Scheduling a plan change (app/api/billing/subscription/change-plan/route.ts): an
 * owner of an active, linked subscription asks for another active plan; the
 * provider subscription is updated to start the new plan at the end of the current
 * period, and the row records the plan as pending. Asking again for the plan that
 * is already pending, or for the current plan when nothing is pending, answers
 * without any change.
 */
module ChangePlan {
  import opened Wrappers
  import opened Text
  import opened JsonValue
  import opened Time
  import opened Mollie
  import opened BillingStore
  import Webhook

  /** The reply: the plan now, the plan pending and when it takes effect (the stored
      period end), or `{ error: { code, message } }` with a status. */
  datatype ChangeReply =
    | Scheduled(currentPlanId: string, pendingPlanId: Option<string>, effectiveAt: Option<Timestamp>)
    | ChangeFailed(status: int, code: string, message: string)

  /** The update asked of the provider for the customer's subscription. */
  datatype SubscriptionUpdate = SubscriptionUpdate(
    customerId: string,
    subscriptionId: string,
    currency: string,
    price: int,
    interval: string,
    startDate: string,
    description: string,
    metadata: Json,
    webhookUrl: string,
    idempotencyKey: string)

  datatype ChangeOutcome = ChangeOutcome(reply: ChangeReply, tables: Tables, update: Option<SubscriptionUpdate>)

  const SignInMessage := "You must be signed in to change plans."
  const ProfileMessage := "Profile not found for current session."
  const OwnerMessage := "Only owners can change plans."
  const InvalidPayloadMessage := "Invalid request payload."
  const InactivePlanMessage := "Selected plan is not active or does not exist."
  const NotFoundMessage := "Subscription not found for this company."
  const NotActiveMessage := "Only active subscriptions can schedule a plan change."
  const CancelPendingMessage := "Cannot schedule a plan change while cancellation is pending."
  const NotLinkedMessage := "Subscription is not linked to Mollie."
  const NoPeriodEndMessage := "Current subscription period end is missing."
  const NoCurrentPlanMessage := "Current subscription plan could not be loaded."
  const ConfigurationMessage := "Billing environment is not configured"
  const UpdateFailedMessage := "Failed to update Mollie subscription."

  /** The caller, the payload, the plan and the company's subscription, checked in
      that order; the subscription's id when they pass. */
  function Locate(t: Tables, session: Session, parse: PlanIdParse): (r: Option<string>)
    ensures r.Some? <==>
      (session.SignedIn? && session.profile.role == "owner" && parse.ValidPlanId? && IsActivePlan(t, parse.planId)
       && CompanySubscription(t, session.profile.companyId).Some?)
    ensures r.Some? ==> r == CompanySubscription(t, session.profile.companyId)
  {
    if session.NoUser? || session.NoProfile? || session.profile.role != "owner" then None
    else if parse.InvalidPayload? || !IsActivePlan(t, parse.planId) then None
    else CompanySubscription(t, session.profile.companyId)
  }

  /** The reply to a request that fails to locate a subscription. */
  function LocateFailure(session: Session, parse: PlanIdParse, t: Tables): ChangeReply {
    if session.NoUser? then ChangeFailed(401, "UNAUTHENTICATED", SignInMessage)
    else if session.NoProfile? then ChangeFailed(401, "UNAUTHENTICATED", ProfileMessage)
    else if session.profile.role != "owner" then ChangeFailed(403, "FORBIDDEN", OwnerMessage)
    else if parse.InvalidPayload? then ChangeFailed(400, "INVALID_PLAN", parse.firstIssue.GetOr(InvalidPayloadMessage))
    else if !IsActivePlan(t, parse.planId) then ChangeFailed(400, "INVALID_PLAN", InactivePlanMessage)
    else ChangeFailed(404, "NOT_FOUND", NotFoundMessage)
  }

  /** The answer without any change when the request is already satisfied: the plan
      asked for is pending, or it is the current plan and nothing is pending. */
  function AlreadyScheduled(s: Subscription, next: string): (r: Option<ChangeReply>)
    ensures r.Some? <==> s.pendingPlanId == Some(next) || (s.planId == next && !Present(s.pendingPlanId))
    ensures r.Some? ==> r.value.Scheduled? && r.value.currentPlanId == s.planId && r.value.effectiveAt == s.currentPeriodEnd
    ensures r.Some? ==> r.value.pendingPlanId == if s.pendingPlanId == Some(next) then Some(next) else None
  {
    if s.pendingPlanId == Some(next) then Some(Scheduled(s.planId, Some(next), s.currentPeriodEnd))
    else if s.planId == next && !Present(s.pendingPlanId) then Some(Scheduled(s.planId, None, s.currentPeriodEnd))
    else None
  }

  /** The state a subscription must be in to schedule a change: active, not set to
      cancel, linked to a provider customer and subscription, with a period end that
      parses; the first failed check's message otherwise. */
  function StateProblem(s: Subscription): (r: Option<string>)
    ensures r.None? <==>
      s.status == "active" && s.cancelAtPeriodEnd != Some(true)
      && Present(s.mollieCustomerId) && Present(s.mollieSubscriptionId)
      && s.currentPeriodEnd.Some? && s.currentPeriodEnd.value.At?
  {
    if s.status != "active" then Some(NotActiveMessage)
    else if s.cancelAtPeriodEnd == Some(true) then Some(CancelPendingMessage)
    else if !Present(s.mollieCustomerId) || !Present(s.mollieSubscriptionId) then Some(NotLinkedMessage)
    else if s.currentPeriodEnd.None? || s.currentPeriodEnd.value.Unparseable? then Some(NoPeriodEndMessage)
    else None
  }

  /** The idempotency key of the provider update: the subscription, the plan and the
      date the plan takes effect. */
  function PlanChangeKey(id: string, next: string, effectiveDate: string): string {
    "summit-plan-change-" + id + "-" + next + "-" + effectiveDate
  }

  /** The metadata the update carries. */
  function PlanChangeMetadata(companyId: string, id: string, next: string): Json {
    JObject([("companyId", JString(companyId)), ("subscriptionId", JString(id)), ("planId", JString(next))])
  }

  function UpdateFor(s: Subscription, id: string, next: string, plan: Plan, effectiveDate: string, env: BillingEnv): SubscriptionUpdate
    requires s.mollieCustomerId.Some? && s.mollieSubscriptionId.Some?
    requires env.appUrl.Some? && env.webhookSecret.Some?
  {
    SubscriptionUpdate(s.mollieCustomerId.value, s.mollieSubscriptionId.value, "EUR", plan.price,
      Webhook.MapPlanIntervalToMollie(plan.interval), effectiveDate, Webhook.PlanDescription(plan),
      PlanChangeMetadata(s.companyId, id, next), WebhookUrl(env), PlanChangeKey(id, next, effectiveDate))
  }

  /** From the current-plan lookup on: update the provider, then record the pending
      plan. */
  function Schedule(t: Tables, id: string, next: string, env: BillingEnv, calendar: Calendar, updateError: Option<Thrown>): ChangeOutcome
    requires id in t.subscriptions && next in t.plans && StateProblem(t.subscriptions[id]).None?
  {
    var s := t.subscriptions[id];
    if s.planId !in t.plans then ChangeOutcome(ChangeFailed(500, "CHANGE_FAILED", NoCurrentPlanMessage), t, None)
    else if !Present(env.appUrl) || !Present(env.webhookSecret) then
      ChangeOutcome(ChangeFailed(500, "CONFIGURATION_ERROR", ConfigurationMessage), t, None)
    else
      var effectiveDate := calendar.isoDate(s.currentPeriodEnd.value.ms);
      var update := UpdateFor(s, id, next, t.plans[next], effectiveDate, env);
      if updateError.Some? then
        ChangeOutcome(ChangeFailed(502, "CHANGE_FAILED", ReportedMessage(updateError.value, UpdateFailedMessage)), t, Some(update))
      else
        ChangeOutcome(Scheduled(s.planId, Some(next), s.currentPeriodEnd),
          t.(subscriptions := t.subscriptions[id := s.(pendingPlanId := Some(next))]), Some(update))
  }

  /** The specification of POST /api/billing/subscription/change-plan. */
  function ChangePlanSpec(t: Tables, session: Session, parse: PlanIdParse, env: BillingEnv, calendar: Calendar,
                          updateError: Option<Thrown>): ChangeOutcome
  {
    match Locate(t, session, parse)
    case None => ChangeOutcome(LocateFailure(session, parse, t), t, None)
    case Some(id) =>
      var s := t.subscriptions[id];
      var next := parse.planId;
      match AlreadyScheduled(s, next)
      case Some(reply) => ChangeOutcome(reply, t, None)
      case None =>
        match StateProblem(s)
        case Some(message) => ChangeOutcome(ChangeFailed(409, "INVALID_STATE", message), t, None)
        case None => Schedule(t, id, next, env, calendar, updateError)
  }

  // ---------------------------------------------------------------------------
  // Properties

  /** A request that does not reach a subscription is refused with the first failed
      check's status, and nothing is written or sent. */
  lemma GuardsWriteNothing(t: Tables, session: Session, parse: PlanIdParse, env: BillingEnv, calendar: Calendar,
                           updateError: Option<Thrown>)
    requires Locate(t, session, parse).None?
    ensures var o := ChangePlanSpec(t, session, parse, env, calendar, updateError);
      && o.tables == t && o.update.None? && o.reply.ChangeFailed?
      && (session.NoUser? || session.NoProfile? ==> o.reply.status == 401)
      && (session.SignedIn? && session.profile.role != "owner" ==> o.reply.status == 403 && o.reply.code == "FORBIDDEN")
      && (session.SignedIn? && session.profile.role == "owner" && (parse.InvalidPayload? || !IsActivePlan(t, parse.planId)) ==>
            o.reply.status == 400 && o.reply.code == "INVALID_PLAN")
      && (session.SignedIn? && session.profile.role == "owner" && parse.ValidPlanId? && IsActivePlan(t, parse.planId) ==>
            o.reply == ChangeFailed(404, "NOT_FOUND", NotFoundMessage))
  {
  }

  /** Asking for the plan that is already pending succeeds with no change and no
      provider call, whatever state the subscription is in. */
  lemma AlreadyPendingIsNoOp(t: Tables, session: Session, parse: PlanIdParse, env: BillingEnv, calendar: Calendar,
                             updateError: Option<Thrown>)
    requires Locate(t, session, parse).Some?
    requires t.subscriptions[Locate(t, session, parse).value].pendingPlanId == Some(parse.planId)
    ensures var o := ChangePlanSpec(t, session, parse, env, calendar, updateError);
      var s := t.subscriptions[Locate(t, session, parse).value];
      o == ChangeOutcome(Scheduled(s.planId, Some(parse.planId), s.currentPeriodEnd), t, None)
  {
  }

  /** Asking for the current plan when nothing is pending succeeds with no change and
      no provider call. */
  lemma AlreadyOnPlanIsNoOp(t: Tables, session: Session, parse: PlanIdParse, env: BillingEnv, calendar: Calendar,
                            updateError: Option<Thrown>)
    requires Locate(t, session, parse).Some?
    requires var s := t.subscriptions[Locate(t, session, parse).value];
      s.planId == parse.planId && !Present(s.pendingPlanId) && s.pendingPlanId != Some(parse.planId)
    ensures var o := ChangePlanSpec(t, session, parse, env, calendar, updateError);
      var s := t.subscriptions[Locate(t, session, parse).value];
      o == ChangeOutcome(Scheduled(s.planId, None, s.currentPeriodEnd), t, None)
  {
  }

  /** Past the idempotent answers, the state checks apply in order (active, not set to
      cancel, linked, a period end that parses) and each refuses with 409
      INVALID_STATE, writing and sending nothing. */
  lemma StateGuardOrder(t: Tables, session: Session, parse: PlanIdParse, env: BillingEnv, calendar: Calendar,
                        updateError: Option<Thrown>)
    requires Locate(t, session, parse).Some?
    requires AlreadyScheduled(t.subscriptions[Locate(t, session, parse).value], parse.planId).None?
    ensures var o := ChangePlanSpec(t, session, parse, env, calendar, updateError);
      var s := t.subscriptions[Locate(t, session, parse).value];
      && (s.status != "active" ==> o == ChangeOutcome(ChangeFailed(409, "INVALID_STATE", NotActiveMessage), t, None))
      && (s.status == "active" && s.cancelAtPeriodEnd == Some(true) ==>
            o == ChangeOutcome(ChangeFailed(409, "INVALID_STATE", CancelPendingMessage), t, None))
      && (s.status == "active" && s.cancelAtPeriodEnd != Some(true) && (!Present(s.mollieCustomerId) || !Present(s.mollieSubscriptionId)) ==>
            o == ChangeOutcome(ChangeFailed(409, "INVALID_STATE", NotLinkedMessage), t, None))
      && (StateProblem(s).Some? ==> o.tables == t && o.update.None? && o.reply.ChangeFailed? && o.reply.status == 409)
  {
  }

  /** A change is scheduled only for an active, linked subscription; it writes
      nothing but the pending plan, which becomes the requested one; the plan itself
      is untouched and takes effect at the stored period end. A failed provider
      update writes nothing. */
  lemma ScheduleWritesOnlyPendingPlan(t: Tables, session: Session, parse: PlanIdParse, env: BillingEnv, calendar: Calendar,
                                      updateError: Option<Thrown>)
    requires Locate(t, session, parse).Some?
    ensures var o := ChangePlanSpec(t, session, parse, env, calendar, updateError);
      var id := Locate(t, session, parse).value;
      var s := t.subscriptions[id];
      && (o.tables == t || o.tables == t.(subscriptions := t.subscriptions[id := s.(pendingPlanId := Some(parse.planId))]))
      && (o.tables != t ==>
            && o.update.Some? && updateError.None? && StateProblem(s).None?
            && o.reply == Scheduled(s.planId, Some(parse.planId), s.currentPeriodEnd))
      && (updateError.Some? ==> o.tables == t)
  {
  }

  /** The provider update carries the new plan's interval, starts on the date of the
      period end, and is keyed by the subscription, the plan and that date. */
  lemma UpdateShape(t: Tables, session: Session, parse: PlanIdParse, env: BillingEnv, calendar: Calendar,
                    updateError: Option<Thrown>)
    requires ChangePlanSpec(t, session, parse, env, calendar, updateError).update.Some?
    ensures var o := ChangePlanSpec(t, session, parse, env, calendar, updateError);
      && Locate(t, session, parse).Some?
      && var id := Locate(t, session, parse).value;
         var s := t.subscriptions[id];
         var u := o.update.value;
         && StateProblem(s).None?
         && u.startDate == calendar.isoDate(s.currentPeriodEnd.value.ms)
         && u.idempotencyKey == PlanChangeKey(id, parse.planId, u.startDate)
         && u.interval == Webhook.MapPlanIntervalToMollie(t.plans[parse.planId].interval)
         && u.customerId == s.mollieCustomerId.value && u.subscriptionId == s.mollieSubscriptionId.value
  {
  }

  /** Sending the same change again after it was scheduled answers as before with no
      change and no second provider call. */
  lemma ChangePlanIsIdempotent(t: Tables, session: Session, parse: PlanIdParse, env: BillingEnv, calendar: Calendar,
                               updateError: Option<Thrown>, env': BillingEnv, calendar': Calendar, updateError': Option<Thrown>)
    requires ChangePlanSpec(t, session, parse, env, calendar, updateError).reply.Scheduled?
    ensures var t1 := ChangePlanSpec(t, session, parse, env, calendar, updateError).tables;
      var o' := ChangePlanSpec(t1, session, parse, env', calendar', updateError');
      && o'.tables == t1 && o'.update.None? && o'.reply.Scheduled?
      && o'.reply.pendingPlanId == ChangePlanSpec(t, session, parse, env, calendar, updateError).reply.pendingPlanId
  {
    var id := Locate(t, session, parse).value;
    var s := t.subscriptions[id];
    var t1 := ChangePlanSpec(t, session, parse, env, calendar, updateError).tables;
    if t1 != t {
      assert CompanySubscription(t1, session.profile.companyId) == Some(id);
      assert t1.subscriptions[id].pendingPlanId == Some(parse.planId);
    }
  }

  /** Scheduling keeps the company index and the subscriptions in agreement. */
  lemma ChangePlanKeepsConsistent(t: Tables, session: Session, parse: PlanIdParse, env: BillingEnv, calendar: Calendar,
                                  updateError: Option<Thrown>)
    requires Consistent(t)
    ensures Consistent(ChangePlanSpec(t, session, parse, env, calendar, updateError).tables)
  {
    if Locate(t, session, parse).Some? {
      var id := Locate(t, session, parse).value;
      UpdateKeepsConsistent(t, id, t.subscriptions[id].(pendingPlanId := Some(parse.planId)));
    }
  }

  // ---------------------------------------------------------------------------
  // The handler on the store

  /** POST: the handler on the store. */
  method ChangeSubscriptionPlan(db: Store, session: Session, parse: PlanIdParse, env: BillingEnv, calendar: Calendar,
                                updateError: Option<Thrown>)
    returns (reply: ChangeReply, update: Option<SubscriptionUpdate>)
    modifies db
    ensures ChangeOutcome(reply, db.Snapshot(), update) == ChangePlanSpec(old(db.Snapshot()), session, parse, env, calendar, updateError)
  {
    update := None;
    var located := Locate(db.Snapshot(), session, parse);
    if located.None? {
      return LocateFailure(session, parse, db.Snapshot()), None;
    }
    var id := located.value;
    var s := db.subscriptions[id];
    var next := parse.planId;
    var idempotent := AlreadyScheduled(s, next);
    if idempotent.Some? {
      return idempotent.value, None;
    }
    var problem := StateProblem(s);
    if problem.Some? {
      return ChangeFailed(409, "INVALID_STATE", problem.value), None;
    }
    if s.planId !in db.plans {
      return ChangeFailed(500, "CHANGE_FAILED", NoCurrentPlanMessage), None;
    }
    if !Present(env.appUrl) || !Present(env.webhookSecret) {
      return ChangeFailed(500, "CONFIGURATION_ERROR", ConfigurationMessage), None;
    }
    var effectiveDate := calendar.isoDate(s.currentPeriodEnd.value.ms);
    update := Some(UpdateFor(s, id, next, db.plans[next], effectiveDate, env));
    if updateError.Some? {
      return ChangeFailed(502, "CHANGE_FAILED", ReportedMessage(updateError.value, UpdateFailedMessage)), update;
    }
    db.subscriptions := db.subscriptions[id := s.(pendingPlanId := Some(next))];
    reply := Scheduled(s.planId, Some(next), s.currentPeriodEnd);
  }
}
