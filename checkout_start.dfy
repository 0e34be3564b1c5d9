/**
 * Starting a checkout (app/api/billing/checkout/start/route.ts): an owner picks an
 * active plan; the company's subscription row is created or reset to pending, a
 * provider customer is linked when the row has none, a first payment is created at
 * the provider and recorded in the attempt ledger, and the checkout URL is returned.
 */
module CheckoutStart {
  import opened Wrappers
  import opened Text
  import opened JsonValue
  import opened Mollie
  import opened BillingStore
  import Webhook

  /** The reply: the checkout to follow, or `{ error: { code, message } }` with a status. */
  datatype CheckoutReply =
    | Started(checkoutUrl: string, molliePaymentId: string, subscriptionId: string)
    | CheckoutFailed(status: int, code: string, message: string)

  datatype CustomerRequest = CustomerRequest(name: string, email: string, companyId: string)

  /** The payment asked of the provider (the amount is the plan price; its two-decimal
      text form is not modelled). */
  datatype PaymentRequest = PaymentRequest(
    currency: string,
    price: int,
    description: string,
    customerId: string,
    sequenceType: string,
    redirectUrl: string,
    webhookUrl: string,
    metadata: Json,
    methods: seq<string>)

  /** The provider calls a request made, in order. */
  datatype ProviderCalls = ProviderCalls(customer: Option<CustomerRequest>, payment: Option<PaymentRequest>)

  datatype CheckoutOutcome = CheckoutOutcome(reply: CheckoutReply, tables: Tables, calls: ProviderCalls)

  const NoCalls := ProviderCalls(None, None)

  const SignInMessage := "You must be signed in to start checkout."
  const ProfileMessage := "Profile not found for current session."
  const OwnerMessage := "Only owners can start checkout."
  const InvalidPayloadMessage := "Invalid request payload."
  const InactivePlanMessage := "Selected plan is not active or does not exist."
  const CompanyMessage := "Company not found."
  const OtherPlanConflictMessage :=
    "An active subscription already exists with a different plan. Plan changes for active subscriptions are not supported in this flow."
  const SamePlanConflictMessage := "An active subscription already exists for this plan."
  const CustomerFailedMessage := "Failed to create Mollie customer."
  const ConfigurationMessage := "Billing environment is not configured"
  const PaymentFailedMessage := "Failed to create Mollie payment."
  const NoCheckoutUrlMessage := "Mollie did not return a checkout URL."

  /** The checks made before anything is written; None when they all pass. */
  function Precheck(t: Tables, session: Session, parse: PlanIdParse): (r: Option<CheckoutReply>)
    ensures r.Some? ==> r.value.CheckoutFailed?
    ensures r.None? <==>
      (session.SignedIn? && session.profile.role == "owner" && parse.ValidPlanId? && IsActivePlan(t, parse.planId)
       && session.profile.companyId in t.companies
       && !(CompanySubscription(t, session.profile.companyId).Some?
            && t.subscriptions[CompanySubscription(t, session.profile.companyId).value].status == "active"))
  {
    if session.NoUser? then Some(CheckoutFailed(401, "UNAUTHENTICATED", SignInMessage))
    else if session.NoProfile? then Some(CheckoutFailed(401, "UNAUTHENTICATED", ProfileMessage))
    else if session.profile.role != "owner" then Some(CheckoutFailed(403, "FORBIDDEN", OwnerMessage))
    else if parse.InvalidPayload? then Some(CheckoutFailed(400, "INVALID_PLAN", parse.firstIssue.GetOr(InvalidPayloadMessage)))
    else if !IsActivePlan(t, parse.planId) then
      Some(CheckoutFailed(400, "INVALID_PLAN", InactivePlanMessage))
    else if session.profile.companyId !in t.companies then Some(CheckoutFailed(404, "CHECKOUT_CREATION_FAILED", CompanyMessage))
    else
      var existing := CompanySubscription(t, session.profile.companyId);
      if existing.Some? && t.subscriptions[existing.value].status == "active" then
        if t.subscriptions[existing.value].planId != parse.planId then
          Some(CheckoutFailed(409, "ACTIVE_SUBSCRIPTION_CONFLICT", OtherPlanConflictMessage))
        else Some(CheckoutFailed(409, "ACTIVE_SUBSCRIPTION_CONFLICT", SamePlanConflictMessage))
      else None
  }

  /** The row checkout starts from: a new pending row, or the existing row reset to
      pending on the requested plan. */
  function PendingRow(existing: Option<Subscription>, companyId: string, planId: string): Subscription {
    match existing
    case None => Subscription(companyId, planId, None, "pending", Some(false), None, None, None, None)
    case Some(s) =>
      s.(planId := planId, status := "pending", cancelAtPeriodEnd := Some(false),
         mollieSubscriptionId := None, currentPeriodStart := None, currentPeriodEnd := None)
  }

  /** The subscription the checkout is for: the company's, else a row inserted under
      the id the database hands out. */
  function CheckoutSubscriptionId(t: Tables, companyId: string, freshId: string): string {
    CompanySubscription(t, companyId).GetOr(freshId)
  }

  /** The tables after the subscription row is inserted or reset. */
  function Prepare(t: Tables, companyId: string, planId: string, freshId: string): Tables {
    match CompanySubscription(t, companyId)
    case None =>
      t.(subscriptions := t.subscriptions[freshId := PendingRow(None, companyId, planId)],
         subscriptionOfCompany := t.subscriptionOfCompany[companyId := freshId])
    case Some(id) => t.(subscriptions := t.subscriptions[id := PendingRow(Some(t.subscriptions[id]), companyId, planId)])
  }

  /** Linking a provider customer: the tables afterwards and the request made, or the
      failure message and the request that failed. */
  datatype CustomerLink =
    | Linked(tables: Tables, request: Option<CustomerRequest>)
    | CustomerFailed(message: string, failed: CustomerRequest)

  function LinkCustomer(t: Tables, id: string, companyId: string, email: string, customer: Call<string>): CustomerLink
    requires id in t.subscriptions && companyId in t.companies
  {
    var s := t.subscriptions[id];
    if Present(s.mollieCustomerId) then Linked(t, None)
    else
      var request := CustomerRequest(t.companies[companyId].name, email, companyId);
      if customer.Threw? then CustomerFailed(ReportedMessage(customer.thrown, CustomerFailedMessage), request)
      else Linked(t.(subscriptions := t.subscriptions[id := s.(mollieCustomerId := Some(customer.value))]), Some(request))
  }

  /** The metadata sent with the payment, which the webhook reads back. */
  function CheckoutMetadata(companyId: string, subscriptionId: string, planId: string, interval: string): Json {
    JObject([("companyId", JString(companyId)), ("subscriptionId", JString(subscriptionId)),
             ("planId", JString(planId)), ("interval", JString(interval))])
  }

  function PaymentRequestFor(env: BillingEnv, id: string, companyId: string, planId: string, plan: Plan, customerId: string): PaymentRequest
    requires Present(env.appUrl) && Present(env.webhookSecret)
  {
    PaymentRequest("EUR", plan.price, Webhook.PlanDescription(plan), customerId, "first",
      env.appUrl.value + "/settings/billing/return?subscriptionId=" + id,
      WebhookUrl(env),
      CheckoutMetadata(companyId, id, planId, plan.interval), ["creditcard"])
  }

  /** The "first" attempt recorded for the payment a checkout created. */
  function FirstAttempt(companyId: string, id: string, planId: string, plan: Plan, payment: MolliePayment): PaymentAttempt {
    PaymentAttempt(companyId, Some(id), planId, "first", payment.status, PlanPrice(plan.price), "EUR", payment)
  }

  /** From the configuration check on: create the payment and record it. */
  function StartPayment(t: Tables, id: string, companyId: string, planId: string, env: BillingEnv,
                        customerRequest: Option<CustomerRequest>, payment: Call<MolliePayment>): CheckoutOutcome
    requires id in t.subscriptions && planId in t.plans && t.subscriptions[id].mollieCustomerId.Some?
  {
    var plan := t.plans[planId];
    if !Present(env.appUrl) || !Present(env.webhookSecret) then
      CheckoutOutcome(CheckoutFailed(500, "CONFIGURATION_ERROR", ConfigurationMessage), t,
        ProviderCalls(customerRequest, None))
    else if plan.price <= 0 then
      CheckoutOutcome(CheckoutFailed(502, "CHECKOUT_CREATION_FAILED", PaymentFailedMessage), t,
        ProviderCalls(customerRequest, None))
    else
      var request := PaymentRequestFor(env, id, companyId, planId, plan, t.subscriptions[id].mollieCustomerId.value);
      var calls := ProviderCalls(customerRequest, Some(request));
      if payment.Threw? then
        CheckoutOutcome(CheckoutFailed(502, "CHECKOUT_CREATION_FAILED", ReportedMessage(payment.thrown, PaymentFailedMessage)),
          t, calls)
      else if !Present(payment.value.checkoutUrl) then
        CheckoutOutcome(CheckoutFailed(502, "CHECKOUT_CREATION_FAILED", NoCheckoutUrlMessage), t, calls)
      else
        var p := payment.value;
        CheckoutOutcome(Started(p.checkoutUrl.value, p.id, id),
          t.(attempts := t.attempts[p.id := FirstAttempt(companyId, id, planId, plan, p)]), calls)
  }

  /** The specification of POST /api/billing/checkout/start. */
  function StartCheckoutSpec(t: Tables, session: Session, parse: PlanIdParse, env: BillingEnv, freshId: string,
                             customer: Call<string>, payment: Call<MolliePayment>): CheckoutOutcome
  {
    match Precheck(t, session, parse)
    case Some(failure) => CheckoutOutcome(failure, t, NoCalls)
    case None =>
      var companyId := session.profile.companyId;
      var planId := parse.planId;
      var id := CheckoutSubscriptionId(t, companyId, freshId);
      var t1 := Prepare(t, companyId, planId, freshId);
      assert id in t1.subscriptions;
      match LinkCustomer(t1, id, companyId, session.profile.email, customer)
      case CustomerFailed(message, request) =>
        CheckoutOutcome(CheckoutFailed(502, "CHECKOUT_CREATION_FAILED", message), t1, ProviderCalls(Some(request), None))
      case Linked(t2, request) =>
        StartPayment(t2, id, companyId, planId, env, request, payment)
  }

  // ---------------------------------------------------------------------------
  // Properties

  /** Every failed guard answers before any write and before any provider call. */
  lemma GuardsWriteNothing(t: Tables, session: Session, parse: PlanIdParse, env: BillingEnv, freshId: string,
                           customer: Call<string>, payment: Call<MolliePayment>)
    ensures var o := StartCheckoutSpec(t, session, parse, env, freshId, customer, payment);
      && (session.NoUser? || session.NoProfile? ==> o.reply.CheckoutFailed? && o.reply.status == 401)
      && (session.SignedIn? && session.profile.role != "owner" ==>
            o.reply == CheckoutFailed(403, "FORBIDDEN", OwnerMessage))
      && (session.SignedIn? && session.profile.role == "owner" && parse.ValidPlanId? && !IsActivePlan(t, parse.planId) ==>
            o.reply == CheckoutFailed(400, "INVALID_PLAN", InactivePlanMessage))
      && (Precheck(t, session, parse).Some? ==> o.tables == t && o.calls == NoCalls)
  {
  }

  /** A company whose subscription is active gets 409 whatever plan it asks for, and
      nothing changes. */
  lemma ActiveSubscriptionConflict(t: Tables, session: Session, parse: PlanIdParse, env: BillingEnv, freshId: string,
                                   customer: Call<string>, payment: Call<MolliePayment>)
    requires session.SignedIn? && session.profile.role == "owner" && parse.ValidPlanId? && IsActivePlan(t, parse.planId)
    requires session.profile.companyId in t.companies
    requires var existing := CompanySubscription(t, session.profile.companyId);
      existing.Some? && t.subscriptions[existing.value].status == "active"
    ensures var o := StartCheckoutSpec(t, session, parse, env, freshId, customer, payment);
      && o.reply.CheckoutFailed? && o.reply.status == 409 && o.reply.code == "ACTIVE_SUBSCRIPTION_CONFLICT"
      && o.tables == t && o.calls == NoCalls
  {
  }

  /** The prepared row: pending on the requested plan, not set to cancel, with no
      provider subscription and no period. An existing row keeps its customer and its
      pending plan; a new one has neither and is entered in the company index. */
  lemma PreparedRow(t: Tables, companyId: string, planId: string, freshId: string)
    ensures var id := CheckoutSubscriptionId(t, companyId, freshId);
      var t1 := Prepare(t, companyId, planId, freshId);
      var s := t1.subscriptions[id];
      && s.status == "pending" && s.planId == planId && s.cancelAtPeriodEnd == Some(false)
      && (Consistent(t) ==> s.companyId == companyId)
      && s.mollieSubscriptionId.None? && s.currentPeriodStart.None? && s.currentPeriodEnd.None?
      && (CompanySubscription(t, companyId).Some? ==>
            && s.mollieCustomerId == t.subscriptions[id].mollieCustomerId
            && s.pendingPlanId == t.subscriptions[id].pendingPlanId
            && t1.subscriptionOfCompany == t.subscriptionOfCompany)
      && (CompanySubscription(t, companyId).None? ==>
            && s.mollieCustomerId.None? && s.pendingPlanId.None?
            && t1.subscriptionOfCompany == t.subscriptionOfCompany[companyId := freshId])
      && (forall other :: other in t.subscriptions && other != id ==> other in t1.subscriptions && t1.subscriptions[other] == t.subscriptions[other])
      && t1.companies == t.companies && t1.plans == t.plans && t1.attempts == t.attempts
  {
  }

  /** A provider customer is requested exactly when the prepared row has none, and
      never by a company whose row already has one. */
  lemma CustomerCreatedOnlyWhenMissing(t: Tables, session: Session, parse: PlanIdParse, env: BillingEnv, freshId: string,
                                       customer: Call<string>, payment: Call<MolliePayment>)
    requires Precheck(t, session, parse).None?
    ensures var o := StartCheckoutSpec(t, session, parse, env, freshId, customer, payment);
      var id := CheckoutSubscriptionId(t, session.profile.companyId, freshId);
      var t1 := Prepare(t, session.profile.companyId, parse.planId, freshId);
      && (o.calls.customer.Some? <==> !Present(t1.subscriptions[id].mollieCustomerId))
      && (CompanySubscription(t, session.profile.companyId).Some? && Present(t.subscriptions[id].mollieCustomerId) ==>
            o.calls.customer.None?)
  {
    PreparedRow(t, session.profile.companyId, parse.planId, freshId);
  }

  /** A started checkout has recorded exactly one new ledger row: the "first" attempt
      of the created payment, on the plan's price in EUR, for the prepared row; and it
      answers with that payment's checkout URL and id. */
  lemma StartedRecordsFirstAttempt(t: Tables, session: Session, parse: PlanIdParse, env: BillingEnv, freshId: string,
                                   customer: Call<string>, payment: Call<MolliePayment>)
    requires StartCheckoutSpec(t, session, parse, env, freshId, customer, payment).reply.Started?
    ensures var o := StartCheckoutSpec(t, session, parse, env, freshId, customer, payment);
      && Precheck(t, session, parse).None? && payment.Returned? && Present(payment.value.checkoutUrl)
      && var id := CheckoutSubscriptionId(t, session.profile.companyId, freshId);
         var p := payment.value;
         && o.reply == Started(p.checkoutUrl.value, p.id, id)
         && o.tables.attempts == t.attempts[p.id := FirstAttempt(session.profile.companyId, id, parse.planId, t.plans[parse.planId], p)]
         && o.tables.attempts[p.id].sequenceType == "first" && o.tables.attempts[p.id].currency == "EUR"
         && o.tables.attempts[p.id].amount == PlanPrice(t.plans[parse.planId].price)
         && o.calls.payment.Some? && o.calls.payment.value.sequenceType == "first"
         && o.calls.payment.value.price == t.plans[parse.planId].price > 0
  {
    var id := CheckoutSubscriptionId(t, session.profile.companyId, freshId);
    PreparedRow(t, session.profile.companyId, parse.planId, freshId);
  }

  /** Inserting or resetting the row keeps the company index and the subscriptions
      in agreement, given that the database hands out an id it has not used. */
  lemma PrepareKeepsConsistent(t: Tables, companyId: string, planId: string, freshId: string)
    requires Consistent(t) && freshId !in t.subscriptions
    ensures Consistent(Prepare(t, companyId, planId, freshId))
    ensures CompanySubscription(Prepare(t, companyId, planId, freshId), companyId) == Some(CheckoutSubscriptionId(t, companyId, freshId))
  {
    var existing := CompanySubscription(t, companyId);
    if existing.Some? {
      UpdateKeepsConsistent(t, existing.value, PendingRow(Some(t.subscriptions[existing.value]), companyId, planId));
    } else {
      var t1 := Prepare(t, companyId, planId, freshId);
      assert companyId !in t.subscriptionOfCompany;
      assert forall c :: c in t1.subscriptionOfCompany && c != companyId ==> t1.subscriptionOfCompany[c] != freshId;
    }
  }

  /** After the row is prepared, the rest of checkout changes only its customer id and
      the ledger. */
  lemma LaterStepsFrame(t1: Tables, id: string, companyId: string, planId: string, email: string, env: BillingEnv,
                        customer: Call<string>, payment: Call<MolliePayment>)
    requires id in t1.subscriptions && companyId in t1.companies && planId in t1.plans
    ensures match LinkCustomer(t1, id, companyId, email, customer)
      case CustomerFailed(_, _) => true
      case Linked(t2, request) =>
        && t2.subscriptions[id].mollieCustomerId.Some?
        && (request.None? <==> Present(t1.subscriptions[id].mollieCustomerId))
        && (request.Some? ==> customer.Returned? && t2.subscriptions[id].mollieCustomerId == Some(customer.value))
        && (request.None? ==> t2 == t1)
        && t2.subscriptions == t1.subscriptions[id := t1.subscriptions[id].(mollieCustomerId := t2.subscriptions[id].mollieCustomerId)]
        && t2.subscriptionOfCompany == t1.subscriptionOfCompany && t2.companies == t1.companies && t2.plans == t1.plans
        && t2.attempts == t1.attempts
        && var o := StartPayment(t2, id, companyId, planId, env, request, payment);
           && o.tables.subscriptions == t2.subscriptions && o.tables.subscriptionOfCompany == t2.subscriptionOfCompany
           && o.tables.companies == t2.companies && o.tables.plans == t2.plans
  {
  }

  /** Checkout keeps the company index and the subscriptions in agreement, given that
      the database hands out an id it has not used. */
  lemma CheckoutKeepsConsistent(t: Tables, session: Session, parse: PlanIdParse, env: BillingEnv, freshId: string,
                                customer: Call<string>, payment: Call<MolliePayment>)
    requires Consistent(t) && freshId !in t.subscriptions
    ensures Consistent(StartCheckoutSpec(t, session, parse, env, freshId, customer, payment).tables)
  {
    if Precheck(t, session, parse).None? {
      var companyId := session.profile.companyId;
      var id := CheckoutSubscriptionId(t, companyId, freshId);
      var t1 := Prepare(t, companyId, parse.planId, freshId);
      PrepareKeepsConsistent(t, companyId, parse.planId, freshId);
      LaterStepsFrame(t1, id, companyId, parse.planId, session.profile.email, env, customer, payment);
      var link := LinkCustomer(t1, id, companyId, session.profile.email, customer);
      if link.Linked? {
        UpdateKeepsConsistent(t1, id, link.tables.subscriptions[id]);
        assert Consistent(link.tables);
      }
    }
  }

  /** A checkout that reached the provider's payment step leaves the company's row
      pending, with a customer, in the company index, and the plans and companies
      as they were. */
  lemma PaymentStepLeavesLinkedRow(t: Tables, session: Session, parse: PlanIdParse, env: BillingEnv, freshId: string,
                                   customer: Call<string>, payment: Call<MolliePayment>)
    requires Consistent(t) && freshId !in t.subscriptions
    requires customer.Returned? ==> customer.value != ""
    requires StartCheckoutSpec(t, session, parse, env, freshId, customer, payment).calls.payment.Some?
    ensures var t3 := StartCheckoutSpec(t, session, parse, env, freshId, customer, payment).tables;
      var id := CheckoutSubscriptionId(t, session.profile.companyId, freshId);
      && Precheck(t, session, parse).None?
      && CompanySubscription(t3, session.profile.companyId) == Some(id)
      && t3.subscriptions[id].status == "pending" && Present(t3.subscriptions[id].mollieCustomerId)
      && t3.plans == t.plans && t3.companies == t.companies
  {
    var companyId := session.profile.companyId;
    var id := CheckoutSubscriptionId(t, companyId, freshId);
    var t1 := Prepare(t, companyId, parse.planId, freshId);
    PreparedRow(t, companyId, parse.planId, freshId);
    PrepareKeepsConsistent(t, companyId, parse.planId, freshId);
    LaterStepsFrame(t1, id, companyId, parse.planId, session.profile.email, env, customer, payment);
  }

  /** A checkout whose row is pending with a customer reuses that row and links no
      second customer. */
  lemma RetryFromLinkedRow(t: Tables, session: Session, parse: PlanIdParse, env: BillingEnv, freshId: string,
                           customer: Call<string>, payment: Call<MolliePayment>, id: string)
    requires session.SignedIn? && session.profile.role == "owner" && parse.ValidPlanId? && IsActivePlan(t, parse.planId)
    requires session.profile.companyId in t.companies
    requires CompanySubscription(t, session.profile.companyId) == Some(id)
    requires t.subscriptions[id].status == "pending" && Present(t.subscriptions[id].mollieCustomerId)
    ensures Precheck(t, session, parse).None?
    ensures CheckoutSubscriptionId(t, session.profile.companyId, freshId) == id
    ensures StartCheckoutSpec(t, session, parse, env, freshId, customer, payment).calls.customer.None?
  {
    PreparedRow(t, session.profile.companyId, parse.planId, freshId);
  }

  /** A checkout retried after it failed at the provider's payment step reuses the
      subscription row and the customer it linked: no second row, no second
      customer. */
  lemma RetryReusesRowAndCustomer(t: Tables, session: Session, parse: PlanIdParse, env: BillingEnv, freshId: string,
                                  customer: Call<string>, payment: Call<MolliePayment>,
                                  freshId': string, customer': Call<string>, payment': Call<MolliePayment>)
    requires Consistent(t) && freshId !in t.subscriptions
    requires customer.Returned? ==> customer.value != ""
    requires var o := StartCheckoutSpec(t, session, parse, env, freshId, customer, payment);
      o.calls.payment.Some? && o.reply.CheckoutFailed?
    ensures var t3 := StartCheckoutSpec(t, session, parse, env, freshId, customer, payment).tables;
      var o' := StartCheckoutSpec(t3, session, parse, env, freshId', customer', payment');
      && Precheck(t3, session, parse).None?
      && CheckoutSubscriptionId(t3, session.profile.companyId, freshId') == CheckoutSubscriptionId(t, session.profile.companyId, freshId)
      && o'.calls.customer.None?
  {
    var t3 := StartCheckoutSpec(t, session, parse, env, freshId, customer, payment).tables;
    PaymentStepLeavesLinkedRow(t, session, parse, env, freshId, customer, payment);
    RetryFromLinkedRow(t3, session, parse, env, freshId', customer', payment', CheckoutSubscriptionId(t, session.profile.companyId, freshId));
  }

  /** Each key of the checkout metadata reads back its value. */
  lemma CheckoutMetadataFields(companyId: string, subscriptionId: string, planId: string, interval: string)
    ensures var m := CheckoutMetadata(companyId, subscriptionId, planId, interval);
      && Field(m, "companyId") == Some(JString(companyId))
      && Field(m, "subscriptionId") == Some(JString(subscriptionId))
      && Field(m, "planId") == Some(JString(planId))
      && Field(m, "interval") == Some(JString(interval))
  {
    var e := CheckoutMetadata(companyId, subscriptionId, planId, interval).entries;
    assert EntryValue(e[3..], "interval") == Some(JString(interval));
    assert EntryValue(e[2..], "planId") == Some(JString(planId));
    assert EntryValue(e[2..], "interval") == EntryValue(e[3..], "interval");
    assert EntryValue(e[1..], "subscriptionId") == Some(JString(subscriptionId));
    assert EntryValue(e[1..], "planId") == EntryValue(e[2..], "planId");
    assert EntryValue(e[1..], "interval") == EntryValue(e[2..], "interval");
  }

  /** A string value without surrounding white space is read back as it is. */
  lemma StringValueReadsBack(value: string)
    requires value != "" && !HasWhiteSpace(value)
    ensures Webhook.ToStringValue(Some(JString(value))) == Some(value)
  {
    TrimWithoutWhiteSpace(value);
  }

  /** The metadata checkout sends comes back through the webhook's parser unchanged,
      for ids and an interval without surrounding white space. */
  lemma MetadataRoundTrip(companyId: string, subscriptionId: string, planId: string, interval: string, payment: MolliePayment)
    requires companyId != "" && subscriptionId != "" && planId != "" && interval != ""
    requires !HasWhiteSpace(companyId) && !HasWhiteSpace(subscriptionId) && !HasWhiteSpace(planId) && !HasWhiteSpace(interval)
    requires payment.metadata == Some(CheckoutMetadata(companyId, subscriptionId, planId, interval))
    ensures Webhook.ParsePaymentMetadata(payment)
      == Webhook.PaymentMetadata(Some(companyId), Some(subscriptionId), Some(planId), Some(interval))
  {
    CheckoutMetadataFields(companyId, subscriptionId, planId, interval);
    StringValueReadsBack(companyId);
    StringValueReadsBack(subscriptionId);
    StringValueReadsBack(planId);
    StringValueReadsBack(interval);
  }

  /** The attempt a checkout records leads the webhook straight to the prepared row. */
  lemma WebhookFindsCheckoutRow(t: Tables, companyId: string, id: string, planId: string, plan: Plan, payment: MolliePayment)
    ensures var t' := t.(attempts := t.attempts[payment.id := FirstAttempt(companyId, id, planId, plan, payment)]);
      && Webhook.LookupSubscriptionId(t', payment) == Some(id)
      && Webhook.SequenceTypeOf(t', payment) == "first"
  {
  }

  // ---------------------------------------------------------------------------
  // The handler on the store

  /** POST: the handler, step by step, on the store. */
  method StartCheckout(db: Store, session: Session, parse: PlanIdParse, env: BillingEnv, freshId: string,
                       customer: Call<string>, payment: Call<MolliePayment>)
    returns (reply: CheckoutReply, calls: ProviderCalls)
    modifies db
    ensures CheckoutOutcome(reply, db.Snapshot(), calls) == StartCheckoutSpec(old(db.Snapshot()), session, parse, env, freshId, customer, payment)
  {
    var failure := Precheck(db.Snapshot(), session, parse);
    if failure.Some? {
      return failure.value, NoCalls;
    }
    var companyId := session.profile.companyId;
    var planId := parse.planId;
    var id := PrepareSubscription(db, companyId, planId, freshId);

    var s := db.subscriptions[id];
    var customerRequest: Option<CustomerRequest> := None;
    if !Present(s.mollieCustomerId) {
      var request := CustomerRequest(db.companies[companyId].name, session.profile.email, companyId);
      if customer.Threw? {
        return CheckoutFailed(502, "CHECKOUT_CREATION_FAILED", ReportedMessage(customer.thrown, CustomerFailedMessage)),
          ProviderCalls(Some(request), None);
      }
      db.subscriptions := db.subscriptions[id := s.(mollieCustomerId := Some(customer.value))];
      customerRequest := Some(request);
    }
    reply, calls := RecordPayment(db, id, companyId, planId, env, customerRequest, payment);
  }

  /** Inserts the company's subscription row, or resets the existing one. */
  method PrepareSubscription(db: Store, companyId: string, planId: string, freshId: string) returns (id: string)
    modifies db
    ensures id == CheckoutSubscriptionId(old(db.Snapshot()), companyId, freshId)
    ensures db.Snapshot() == Prepare(old(db.Snapshot()), companyId, planId, freshId)
    ensures id in db.subscriptions
  {
    var existing := CompanySubscription(db.Snapshot(), companyId);
    if existing.None? {
      id := freshId;
      db.subscriptions := db.subscriptions[id := PendingRow(None, companyId, planId)];
      db.subscriptionOfCompany := db.subscriptionOfCompany[companyId := id];
    } else {
      id := existing.value;
      db.subscriptions := db.subscriptions[id := PendingRow(Some(db.subscriptions[id]), companyId, planId)];
    }
  }

  /** From the configuration check on, on the store. */
  method RecordPayment(db: Store, id: string, companyId: string, planId: string, env: BillingEnv,
                       customerRequest: Option<CustomerRequest>, payment: Call<MolliePayment>)
    returns (reply: CheckoutReply, calls: ProviderCalls)
    requires id in db.subscriptions && planId in db.plans && db.subscriptions[id].mollieCustomerId.Some?
    modifies db
    ensures CheckoutOutcome(reply, db.Snapshot(), calls) == StartPayment(old(db.Snapshot()), id, companyId, planId, env, customerRequest, payment)
  {
    calls := ProviderCalls(customerRequest, None);
    if !Present(env.appUrl) || !Present(env.webhookSecret) {
      return CheckoutFailed(500, "CONFIGURATION_ERROR", ConfigurationMessage), calls;
    }
    var plan := db.plans[planId];
    if plan.price <= 0 {
      return CheckoutFailed(502, "CHECKOUT_CREATION_FAILED", PaymentFailedMessage), calls;
    }
    calls := ProviderCalls(customerRequest, Some(PaymentRequestFor(env, id, companyId, planId, plan, db.subscriptions[id].mollieCustomerId.value)));
    if payment.Threw? {
      return CheckoutFailed(502, "CHECKOUT_CREATION_FAILED", ReportedMessage(payment.thrown, PaymentFailedMessage)), calls;
    }
    var p := payment.value;
    if !Present(p.checkoutUrl) {
      return CheckoutFailed(502, "CHECKOUT_CREATION_FAILED", NoCheckoutUrlMessage), calls;
    }
    db.attempts := db.attempts[p.id := FirstAttempt(companyId, id, planId, plan, p)];
    reply := Started(p.checkoutUrl.value, p.id, id);
  }
}
