/**
 * The payment webhook (app/api/mollie/webhook/route.ts): authenticates the call,
 * finds the payment id in the body, loads the payment from the provider, records it
 * in the attempt ledger and, for a finished first payment, moves the subscription
 * and the company along.
 */
module Webhook {
  import opened Wrappers
  import opened Text
  import opened JsonValue
  import opened Time
  import opened Mollie
  import opened BillingStore

  datatype WebhookReply = Received | WebhookFailed(status: int, error: string)

  datatype WebhookEnv = WebhookEnv(secret: Option<string>, appUrl: Option<string>)

  /** The request: its `secret` query value and its body text. */
  datatype WebhookRequest = WebhookRequest(secretParam: Option<string>, body: string)

  /** The library parsers the body goes through: `new URLSearchParams(body).get('id')`
      and `JSON.parse` (None when it throws). */
  datatype BodyParsers = BodyParsers(formId: string -> Option<string>, json: string -> Option<Json>)

  /** The provider subscription the webhook asks for after a first payment. The
      amount is the plan's price in euros; the webhook URL is not part of it. */
  datatype SubscriptionRequest = SubscriptionRequest(
    customerId: string,
    currency: string,
    price: int,
    description: string,
    interval: string,
    startDate: string,
    companyId: string,
    subscriptionId: string,
    planId: string,
    idempotencyKey: string)

  datatype PaymentMetadata = PaymentMetadata(
    companyId: Option<string>,
    subscriptionId: Option<string>,
    planId: Option<string>,
    interval: Option<string>)

  datatype WebhookOutcome = WebhookOutcome(reply: WebhookReply, tables: Tables, request: Option<SubscriptionRequest>)

  /** toStringValue: a string that is not blank, trimmed; anything else is null. */
  function ToStringValue(value: Option<Json>): (r: Option<string>)
    ensures r.Some? <==> value.Some? && value.value.JString? && !IsBlank(value.value.s)
    ensures r.Some? ==> r.value == Trim(value.value.s) && r.value != ""
  {
    match value
    case Some(JString(s)) => if Trim(s) != "" then Some(Trim(s)) else None
    case _ => None
  }

  /** mapSequenceType */
  function MapSequenceType(value: Option<string>): (r: string)
    ensures r == "recurring" <==> value == Some("recurring")
    ensures r == "first" <==> value != Some("recurring")
  {
    if value == Some("recurring") then "recurring" else "first"
  }

  /** mapPlanIntervalToMollie (the same function appears in the change-plan route). */
  function MapPlanIntervalToMollie(interval: string): (r: string)
    ensures r == "12 months" <==> interval == "year"
    ensures r == "1 month" <==> interval != "year"
  {
    if interval == "year" then "12 months" else "1 month"
  }

  /** One metadata value: the camelCase key first, then the snake_case one. */
  function MetadataValue(metadata: Json, camel: string, snake: string): (r: Option<string>)
    ensures ToStringValue(Field(metadata, camel)).Some? ==> r == ToStringValue(Field(metadata, camel))
    ensures ToStringValue(Field(metadata, camel)).None? ==> r == ToStringValue(Field(metadata, snake))
  {
    ToStringValue(Field(metadata, camel)).OrElse(ToStringValue(Field(metadata, snake)))
  }

  /** parsePaymentMetadata: a metadata value that is not an object reads as `{}`. */
  function ParsePaymentMetadata(payment: MolliePayment): (m: PaymentMetadata)
    ensures m.companyId.Some? ==> m.companyId.value != ""
    ensures m.subscriptionId.Some? ==> m.subscriptionId.value != ""
    ensures m.planId.Some? ==> m.planId.value != ""
  {
    var metadata := match payment.metadata
      case Some(JObject(entries)) => JObject(entries)
      case Some(JArray(items)) => JArray(items)
      case _ => JObject([]);
    PaymentMetadata(
      MetadataValue(metadata, "companyId", "company_id"),
      MetadataValue(metadata, "subscriptionId", "subscription_id"),
      MetadataValue(metadata, "planId", "plan_id"),
      ToStringValue(Field(metadata, "interval")))
  }

  /** The `id` of a parsed JSON body, when it is a non-blank string. */
  function JsonBodyId(json: Option<Json>): Option<string> {
    match json
    case Some(JObject(entries)) =>
      (match Field(JObject(entries), "id")
       case Some(JString(s)) => if Trim(s) != "" then Some(Trim(s)) else None
       case _ => None)
    case _ => None
  }

  /** extractPaymentIdFromRequest */
  function ExtractPaymentId(body: string, parsers: BodyParsers): (r: Option<string>)
    ensures r.Some? ==> r.value != ""
  {
    var raw := Trim(body);
    if raw == "" then None
    else if Present(parsers.formId(raw)) then parsers.formId(raw)
    else if JsonBodyId(parsers.json(raw)).Some? then JsonBodyId(parsers.json(raw))
    else if StartsWith(raw, "tr_") then Some(raw)
    else None
  }

  /** The order in which the body is read: a form `id` wins, then a JSON `id`, then
      the body itself when it starts with "tr_"; a blank body has no id. */
  lemma ExtractionOrder(body: string, parsers: BodyParsers)
    ensures IsBlank(body) ==> ExtractPaymentId(body, parsers) == None
    ensures var raw := Trim(body);
      && (raw != "" && Present(parsers.formId(raw)) ==> ExtractPaymentId(body, parsers) == parsers.formId(raw))
      && (raw != "" && !Present(parsers.formId(raw)) && JsonBodyId(parsers.json(raw)).Some? ==>
            ExtractPaymentId(body, parsers) == JsonBodyId(parsers.json(raw)))
      && (raw != "" && !Present(parsers.formId(raw)) && JsonBodyId(parsers.json(raw)).None? ==>
            (ExtractPaymentId(body, parsers).Some? <==> StartsWith(raw, "tr_")))
  {
  }

  /** `TERMINAL_FAILURE_STATUSES` */
  predicate IsTerminalFailure(status: string) {
    status in {"failed", "expired", "canceled"}
  }

  /** isTerminalStatus: paid or one of the failure statuses. */
  function IsTerminalStatus(status: string): (r: bool)
    ensures r <==> status in {"paid", "failed", "expired", "canceled"}
  {
    status == "paid" || IsTerminalFailure(status)
  }

  /** getWebhookSubscription: by subscription id first, then by company id. */
  function FindSubscription(t: Tables, subscriptionId: Option<string>, companyId: Option<string>): (r: Option<string>)
    ensures r.Some? ==> r.value in t.subscriptions
    ensures Present(subscriptionId) && subscriptionId.value in t.subscriptions ==> r == subscriptionId
    ensures r.Some? && r != subscriptionId ==> Present(companyId) && r == CompanySubscription(t, companyId.value)
    ensures !(Present(subscriptionId) && subscriptionId.value in t.subscriptions) ==>
      r == (if Present(companyId) then CompanySubscription(t, companyId.value) else None)
  {
    if Present(subscriptionId) && subscriptionId.value in t.subscriptions then subscriptionId
    else if !Present(companyId) then None
    else CompanySubscription(t, companyId.value)
  }

  /** The ledger row after this delivery, or None when a new payment lacks the
      company or the plan in its metadata (nothing is recorded then). */
  function LedgerEntry(t: Tables, payment: MolliePayment, metadata: PaymentMetadata): (r: Option<PaymentAttempt>)
    ensures payment.id in t.attempts ==> r.Some?
    ensures payment.id !in t.attempts ==> (r.Some? <==> Present(metadata.companyId) && Present(metadata.planId))
  {
    if payment.id in t.attempts then
      var a := t.attempts[payment.id];
      Some(a.(status := payment.status, raw := payment, subscriptionId := a.subscriptionId.OrElse(metadata.subscriptionId)))
    else if !Present(metadata.companyId) || !Present(metadata.planId) then None
    else
      var currency := if payment.amount.Some? && payment.amount.value.currency != "" then payment.amount.value.currency else "EUR";
      var amount := ParsedAmount(if payment.amount.Some? then Some(payment.amount.value.value) else None);
      Some(PaymentAttempt(metadata.companyId.value, metadata.subscriptionId, metadata.planId.value,
        MapSequenceType(payment.sequenceType), payment.status, amount, currency, payment))
  }

  /** The sequence type that decides the transition: a stored attempt's wins. */
  function SequenceTypeOf(t: Tables, payment: MolliePayment): string {
    if payment.id in t.attempts then t.attempts[payment.id].sequenceType else MapSequenceType(payment.sequenceType)
  }

  /** The subscription row after a paid first payment. */
  function Activated(s: Subscription, customerId: string, providerId: Option<string>, start: int, end: int): Subscription {
    s.(status := "active",
       currentPeriodStart := s.currentPeriodStart.OrElse(Some(At(start))),
       currentPeriodEnd := s.currentPeriodEnd.OrElse(Some(At(end))),
       mollieSubscriptionId := providerId,
       mollieCustomerId := Some(customerId),
       cancelAtPeriodEnd := Some(false))
  }

  function SetCompanyActive(t: Tables, companyId: string): Tables {
    if companyId in t.companies then t.(companies := t.companies[companyId := t.companies[companyId].(status := "active")]) else t
  }

  /** The subscription's status set back to pending. */
  function MarkPending(t: Tables, id: string): Tables
    requires id in t.subscriptions
  {
    t.(subscriptions := t.subscriptions[id := t.subscriptions[id].(status := "pending")])
  }

  /** The description of a plan's payments and subscription: `Summit <name> (<interval>)`. */
  function PlanDescription(plan: Plan): string {
    "Summit " + plan.name + " (" + plan.interval + ")"
  }

  /** The provider subscription to create for a paid first payment: none when one is
      already stored. */
  function ProviderRequest(s: Subscription, id: string, payment: MolliePayment, plan: Plan, customerId: string,
                           end: int, calendar: Calendar): (r: Option<SubscriptionRequest>)
    ensures r.Some? <==> !Present(s.mollieSubscriptionId)
    ensures r.Some? ==>
      r.value.idempotencyKey == "summit-first-payment-" + payment.id
      && r.value.interval == MapPlanIntervalToMollie(plan.interval) && r.value.customerId == customerId
      && r.value.currency == "EUR" && r.value.price == plan.price
      && r.value.description == PlanDescription(plan)
  {
    if Present(s.mollieSubscriptionId) then None
    else Some(SubscriptionRequest(customerId, "EUR", plan.price, PlanDescription(plan),
                MapPlanIntervalToMollie(plan.interval), calendar.isoDate(end),
                s.companyId, id, s.planId, "summit-first-payment-" + payment.id))
  }

  /** A paid first payment: activate the subscription (creating the provider
      subscription when none is stored) and the company. */
  function Activate(t: Tables, id: string, payment: MolliePayment, created: Call<string>, now: int, calendar: Calendar): WebhookOutcome
    requires id in t.subscriptions
  {
    var s := t.subscriptions[id];
    if s.planId !in t.plans then WebhookOutcome(Received, t, None)
    else
      var plan := t.plans[s.planId];
      var customerId := s.mollieCustomerId.OrElse(payment.customerId);
      if !Present(customerId) then
        WebhookOutcome(WebhookFailed(500, "Mollie customer is missing on subscription"), t, None)
      else
        var end := AddBillingInterval(calendar, now, plan.interval);
        var request := ProviderRequest(s, id, payment, plan, customerId.value, end, calendar);
        if request.Some? && created.Threw? then
          WebhookOutcome(WebhookFailed(502, ReportedMessage(created.thrown, "Failed to create Mollie subscription")), t, request)
        else
          var providerId := if request.Some? then Some(created.value) else s.mollieSubscriptionId;
          var t' := t.(subscriptions := t.subscriptions[id := Activated(s, customerId.value, providerId, now, end)]);
          WebhookOutcome(Received, SetCompanyActive(t', s.companyId), request)
  }

  /** The transition for a terminal payment whose subscription was found. */
  function Settle(t: Tables, id: string, payment: MolliePayment, sequenceType: string, created: Call<string>,
                  now: int, calendar: Calendar): WebhookOutcome
    requires id in t.subscriptions
  {
    if sequenceType == "first" && IsTerminalFailure(payment.status) then WebhookOutcome(Received, MarkPending(t, id), None)
    else if sequenceType != "first" || payment.status != "paid" then WebhookOutcome(Received, t, None)
    else Activate(t, id, payment, created, now, calendar)
  }

  /** The ledger after recording this delivery, or None when nothing is recorded. */
  function Recorded(t: Tables, payment: MolliePayment): Option<Tables> {
    var entry := LedgerEntry(t, payment, ParsePaymentMetadata(payment));
    if entry.None? then None else Some(t.(attempts := t.attempts[payment.id := entry.value]))
  }

  /** The subscription id to look up: the stored attempt's, else the metadata's. */
  function LookupSubscriptionId(t: Tables, payment: MolliePayment): Option<string> {
    (if payment.id in t.attempts then t.attempts[payment.id].subscriptionId else None).OrElse(ParsePaymentMetadata(payment).subscriptionId)
  }

  /** The company id to look up: the stored attempt's, else the metadata's. */
  function LookupCompanyId(t: Tables, payment: MolliePayment): Option<string> {
    if payment.id in t.attempts then Some(t.attempts[payment.id].companyId) else ParsePaymentMetadata(payment).companyId
  }

  /** Everything after the payment has been loaded. */
  function ProcessPayment(t: Tables, payment: MolliePayment, created: Call<string>, now: int, calendar: Calendar): WebhookOutcome {
    match Recorded(t, payment)
    case None => WebhookOutcome(Received, t, None)
    case Some(t1) =>
      if !IsTerminalStatus(payment.status) then WebhookOutcome(Received, t1, None)
      else
        var found := FindSubscription(t1, LookupSubscriptionId(t, payment), LookupCompanyId(t, payment));
        if found.None? then WebhookOutcome(Received, t1, None)
        else Settle(t1, found.value, payment, SequenceTypeOf(t, payment), created, now, calendar)
  }

  /** The specification of the webhook's POST handler. */
  function HandleWebhookSpec(t: Tables, env: WebhookEnv, request: WebhookRequest, parsers: BodyParsers,
                             fetched: Call<MolliePayment>, created: Call<string>, now: int, calendar: Calendar): WebhookOutcome
  {
    if !Present(env.secret) || !Present(env.appUrl) then
      WebhookOutcome(WebhookFailed(500, "Webhook is not configured"), t, None)
    else if !Present(request.secretParam) || request.secretParam.value != env.secret.value then
      WebhookOutcome(WebhookFailed(401, "Unauthorized"), t, None)
    else if ExtractPaymentId(request.body, parsers).None? then
      WebhookOutcome(WebhookFailed(400, "Missing payment id"), t, None)
    else if fetched.Threw? then
      WebhookOutcome(WebhookFailed(502, ReportedMessage(fetched.thrown, "Failed to load payment from Mollie")), t, None)
    else
      ProcessPayment(t, fetched.value, created, now, calendar)
  }

  // ---------------------------------------------------------------------------
  // Properties of the webhook
  // ---------------------------------------------------------------------------

  /** Configuration, then the shared secret, then the payment id, then the provider
      lookup are checked, each before anything is written. */
  lemma GuardsComeFirst(t: Tables, env: WebhookEnv, request: WebhookRequest, parsers: BodyParsers,
                        fetched: Call<MolliePayment>, created: Call<string>, now: int, calendar: Calendar)
    ensures var o := HandleWebhookSpec(t, env, request, parsers, fetched, created, now, calendar);
      && (!Present(env.secret) || !Present(env.appUrl) ==>
            o == WebhookOutcome(WebhookFailed(500, "Webhook is not configured"), t, None))
      && (Present(env.secret) && Present(env.appUrl) && request.secretParam != env.secret ==>
            o == WebhookOutcome(WebhookFailed(401, "Unauthorized"), t, None))
      && (Present(env.secret) && Present(env.appUrl) && request.secretParam == env.secret && IsBlank(request.body) ==>
            o == WebhookOutcome(WebhookFailed(400, "Missing payment id"), t, None))
      && (Present(env.secret) && Present(env.appUrl) && request.secretParam == env.secret && fetched.Threw? ==>
            o.reply.WebhookFailed? && o.tables == t)
  {
    ExtractionOrder(request.body, parsers);
  }

  /** Activation never touches the ledger, the plans or the company index, and it
      keeps the set of subscriptions. */
  lemma ActivateKeepsLedger(t: Tables, id: string, payment: MolliePayment, created: Call<string>, now: int, calendar: Calendar)
    requires id in t.subscriptions
    ensures var o := Activate(t, id, payment, created, now, calendar);
      && o.tables.attempts == t.attempts && o.tables.plans == t.plans
      && o.tables.subscriptionOfCompany == t.subscriptionOfCompany
      && o.tables.subscriptions.Keys == t.subscriptions.Keys
  {
    var s := t.subscriptions[id];
    if s.planId in t.plans {
      var customerId := s.mollieCustomerId.OrElse(payment.customerId);
      if Present(customerId) {
        var end := AddBillingInterval(calendar, now, t.plans[s.planId].interval);
        var request := ProviderRequest(s, id, payment, t.plans[s.planId], customerId.value, end, calendar);
        if !(request.Some? && created.Threw?) {
          var providerId := if request.Some? then Some(created.value) else s.mollieSubscriptionId;
          var t' := t.(subscriptions := t.subscriptions[id := Activated(s, customerId.value, providerId, now, end)]);
          assert t'.subscriptions.Keys == t.subscriptions.Keys;
        }
      }
    }
  }

  /** The transition step never touches the ledger, the plans or the company index,
      and it keeps the set of subscriptions. */
  lemma SettleKeepsLedger(t: Tables, id: string, payment: MolliePayment, sequenceType: string, created: Call<string>,
                          now: int, calendar: Calendar)
    requires id in t.subscriptions
    ensures var o := Settle(t, id, payment, sequenceType, created, now, calendar);
      && o.tables.attempts == t.attempts && o.tables.plans == t.plans
      && o.tables.subscriptionOfCompany == t.subscriptionOfCompany
      && o.tables.subscriptions.Keys == t.subscriptions.Keys
  {
    if sequenceType == "first" && IsTerminalFailure(payment.status) {
      assert MarkPending(t, id).subscriptions.Keys == t.subscriptions.Keys;
    } else if sequenceType == "first" && payment.status == "paid" {
      ActivateKeepsLedger(t, id, payment, created, now, calendar);
    }
  }

  /** The ledger a delivery leaves behind is the recorded one. */
  lemma ProcessPaymentLedger(t: Tables, payment: MolliePayment, created: Call<string>, now: int, calendar: Calendar)
    ensures var o := ProcessPayment(t, payment, created, now, calendar);
      var entry := LedgerEntry(t, payment, ParsePaymentMetadata(payment));
      o.tables.attempts == if entry.Some? then t.attempts[payment.id := entry.value] else t.attempts
  {
    var r := Recorded(t, payment);
    if r.Some? && IsTerminalStatus(payment.status) {
      var found := FindSubscription(r.value, LookupSubscriptionId(t, payment), LookupCompanyId(t, payment));
      if found.Some? {
        SettleKeepsLedger(r.value, found.value, payment, SequenceTypeOf(t, payment), created, now, calendar);
      }
    }
  }

  /** The ledger is keyed by the provider's payment id: a delivery touches at most the
      row of its own payment. A known payment's row is updated in place (status and
      raw payload; its subscription id is kept once set), and a new row is written
      only when the metadata names both the company and the plan. */
  lemma LedgerKeyedByPaymentId(t: Tables, payment: MolliePayment, created: Call<string>, now: int, calendar: Calendar)
    ensures var o := ProcessPayment(t, payment, created, now, calendar);
      var metadata := ParsePaymentMetadata(payment);
      && (forall k :: k != payment.id ==> (k in o.tables.attempts <==> k in t.attempts))
      && (forall k :: k != payment.id && k in t.attempts ==> o.tables.attempts[k] == t.attempts[k])
      && (payment.id in o.tables.attempts <==> payment.id in t.attempts || (Present(metadata.companyId) && Present(metadata.planId)))
      && (payment.id in t.attempts ==>
            var a := t.attempts[payment.id];
            var a' := o.tables.attempts[payment.id];
            && a'.status == payment.status && a'.raw == payment
            && a'.companyId == a.companyId && a'.planId == a.planId && a'.sequenceType == a.sequenceType
            && (a.subscriptionId.Some? ==> a'.subscriptionId == a.subscriptionId))
  {
    ProcessPaymentLedger(t, payment, created, now, calendar);
  }

  /** A payment that is not yet paid, failed, expired or canceled changes no
      subscription and no company. */
  lemma NonTerminalLeavesRows(t: Tables, payment: MolliePayment, created: Call<string>, now: int, calendar: Calendar)
    requires !IsTerminalStatus(payment.status)
    ensures var o := ProcessPayment(t, payment, created, now, calendar);
      o.reply == Received && o.request.None?
      && o.tables.subscriptions == t.subscriptions && o.tables.companies == t.companies
  {
  }

  /** A first payment that failed, expired or was canceled sets only the status of its
      subscription, to pending. */
  lemma FailedFirstPaymentSetsPending(t: Tables, id: string, payment: MolliePayment, created: Call<string>,
                                      now: int, calendar: Calendar)
    requires id in t.subscriptions && IsTerminalFailure(payment.status)
    ensures var o := Settle(t, id, payment, "first", created, now, calendar);
      o.reply == Received && o.request.None?
      && o.tables == t.(subscriptions := t.subscriptions[id := t.subscriptions[id].(status := "pending")])
  {
  }

  /** Recurring payments, and first payments that are not paid, change nothing. */
  lemma OnlyFirstPaymentsMoveRows(t: Tables, id: string, payment: MolliePayment, sequenceType: string,
                                  created: Call<string>, now: int, calendar: Calendar)
    requires id in t.subscriptions
    requires sequenceType != "first" || (payment.status != "paid" && !IsTerminalFailure(payment.status))
    ensures Settle(t, id, payment, sequenceType, created, now, calendar) == WebhookOutcome(Received, t, None)
  {
  }

  /** A paid first payment activates the subscription and the company. The customer is
      the stored one, else the payment's; without either nothing changes. A provider
      subscription is requested only when none is stored, under an idempotency key
      derived from the payment id, and a stored period is kept. */
  lemma PaidFirstPaymentActivates(t: Tables, id: string, payment: MolliePayment, created: Call<string>,
                                  now: int, calendar: Calendar)
    requires id in t.subscriptions && t.subscriptions[id].planId in t.plans
    ensures var o := Activate(t, id, payment, created, now, calendar);
      var s := t.subscriptions[id];
      var customerId := s.mollieCustomerId.OrElse(payment.customerId);
      && (!Present(customerId) ==> o == WebhookOutcome(WebhookFailed(500, "Mollie customer is missing on subscription"), t, None))
      && (o.request.Some? <==> Present(customerId) && !Present(s.mollieSubscriptionId))
      && (o.request.Some? ==> o.request.value.idempotencyKey == "summit-first-payment-" + payment.id)
      && (o.reply != Received ==> o.tables == t)
      && (o.reply == Received ==>
            var s' := o.tables.subscriptions[id];
            && s'.status == "active" && s'.cancelAtPeriodEnd == Some(false)
            && s'.mollieCustomerId == customerId
            && (Present(s.mollieSubscriptionId) ==> s'.mollieSubscriptionId == s.mollieSubscriptionId)
            && (s.currentPeriodStart.Some? ==> s'.currentPeriodStart == s.currentPeriodStart)
            && (s.currentPeriodEnd.Some? ==> s'.currentPeriodEnd == s.currentPeriodEnd)
            && s'.planId == s.planId && s'.pendingPlanId == s.pendingPlanId && s'.companyId == s.companyId
            && (s.companyId in t.companies ==> o.tables.companies[s.companyId].status == "active"))
  {
  }

  /** Activating again what is already active changes nothing. */
  lemma ActivateReplay(t: Tables, id: string, payment: MolliePayment, created: Call<string>, now: int, calendar: Calendar,
                       created': Call<string>, now': int, calendar': Calendar)
    requires id in t.subscriptions
    requires created.Returned? ==> created.value != ""
    requires Activate(t, id, payment, created, now, calendar).reply == Received
    ensures var t1 := Activate(t, id, payment, created, now, calendar).tables;
      id in t1.subscriptions && Activate(t1, id, payment, created', now', calendar') == WebhookOutcome(Received, t1, None)
  {
    var s := t.subscriptions[id];
    if s.planId in t.plans {
      var t1 := Activate(t, id, payment, created, now, calendar).tables;
      var s1 := t1.subscriptions[id];
      assert Present(s1.mollieCustomerId) && Present(s1.mollieSubscriptionId);
      var end' := AddBillingInterval(calendar', now', t1.plans[s1.planId].interval);
      assert Activated(s1, s1.mollieCustomerId.value, s1.mollieSubscriptionId, now', end') == s1;
      assert t1.(subscriptions := t1.subscriptions[id := s1]) == t1;
    }
  }

  /** Delivering the same settled transition again changes nothing and asks the provider
      for nothing, whatever the clock says the second time. */
  lemma SettleReplay(t: Tables, id: string, payment: MolliePayment, sequenceType: string, created: Call<string>,
                     now: int, calendar: Calendar, created': Call<string>, now': int, calendar': Calendar)
    requires id in t.subscriptions
    requires created.Returned? ==> created.value != ""
    requires Settle(t, id, payment, sequenceType, created, now, calendar).reply == Received
    ensures var t1 := Settle(t, id, payment, sequenceType, created, now, calendar).tables;
      id in t1.subscriptions && Settle(t1, id, payment, sequenceType, created', now', calendar') == WebhookOutcome(Received, t1, None)
  {
    if sequenceType == "first" && IsTerminalFailure(payment.status) {
      var t1 := MarkPending(t, id);
      assert MarkPending(t1, id) == t1;
    } else if sequenceType == "first" && payment.status == "paid" {
      ActivateReplay(t, id, payment, created, now, calendar, created', now', calendar');
    }
  }

  /** Recording the same payment again reproduces the ledger row, the sequence type and
      the lookup keys of the first delivery. */
  lemma LedgerReplay(t: Tables, t1: Tables, payment: MolliePayment)
    requires Recorded(t, payment).Some?
    requires t1.attempts == Recorded(t, payment).value.attempts
    ensures Recorded(t1, payment) == Some(t1)
    ensures SequenceTypeOf(t1, payment) == SequenceTypeOf(t, payment)
    ensures LookupSubscriptionId(t1, payment) == LookupSubscriptionId(t, payment)
    ensures LookupCompanyId(t1, payment) == LookupCompanyId(t, payment)
  {
    var entry := LedgerEntry(t, payment, ParsePaymentMetadata(payment)).value;
    assert t1.attempts[payment.id] == entry;
    assert t1.attempts[payment.id := entry] == t1.attempts;
  }

  /** A lookup depends only on the set of subscriptions and the company index. */
  lemma FindSubscriptionFrame(t: Tables, t': Tables, subscriptionId: Option<string>, companyId: Option<string>)
    requires t'.subscriptions.Keys == t.subscriptions.Keys && t'.subscriptionOfCompany == t.subscriptionOfCompany
    ensures FindSubscription(t', subscriptionId, companyId) == FindSubscription(t, subscriptionId, companyId)
  {
  }

  /** Replaying a delivery that was answered with 200 leaves the tables as the first
      delivery left them and requests no provider subscription. */
  lemma WebhookReplayIsIdempotent(t: Tables, payment: MolliePayment, created: Call<string>, now: int, calendar: Calendar,
                                  created': Call<string>, now': int, calendar': Calendar)
    requires created.Returned? ==> created.value != ""
    requires ProcessPayment(t, payment, created, now, calendar).reply == Received
    ensures var t2 := ProcessPayment(t, payment, created, now, calendar).tables;
      ProcessPayment(t2, payment, created', now', calendar') == WebhookOutcome(Received, t2, None)
  {
    var r := Recorded(t, payment);
    if r.Some? {
      var t1 := r.value;
      LedgerReplay(t, t1, payment);
      var subscriptionId := LookupSubscriptionId(t, payment);
      var companyId := LookupCompanyId(t, payment);
      var found := FindSubscription(t1, subscriptionId, companyId);
      if IsTerminalStatus(payment.status) && found.Some? {
        var sequenceType := SequenceTypeOf(t, payment);
        SettleReplay(t1, found.value, payment, sequenceType, created, now, calendar, created', now', calendar');
        SettleKeepsLedger(t1, found.value, payment, sequenceType, created, now, calendar);
        var t2 := Settle(t1, found.value, payment, sequenceType, created, now, calendar).tables;
        LedgerReplay(t, t2, payment);
        FindSubscriptionFrame(t1, t2, subscriptionId, companyId);
      }
    }
  }

  /** POST: the handler, step by step, on the store. `fetched` is the provider's answer
      for the extracted payment id and `created` its answer to the subscription request. */
  method HandleWebhook(db: Store, env: WebhookEnv, request: WebhookRequest, parsers: BodyParsers,
                       fetched: Call<MolliePayment>, created: Call<string>, now: int, calendar: Calendar)
    returns (reply: WebhookReply, sent: Option<SubscriptionRequest>)
    modifies db
    ensures WebhookOutcome(reply, db.Snapshot(), sent)
      == HandleWebhookSpec(old(db.Snapshot()), env, request, parsers, fetched, created, now, calendar)
  {
    sent := None;
    if !Present(env.secret) || !Present(env.appUrl) {
      return WebhookFailed(500, "Webhook is not configured"), None;
    }
    if !Present(request.secretParam) || request.secretParam.value != env.secret.value {
      return WebhookFailed(401, "Unauthorized"), None;
    }
    var paymentId := ExtractPaymentId(request.body, parsers);
    if paymentId.None? {
      return WebhookFailed(400, "Missing payment id"), None;
    }
    if fetched.Threw? {
      return WebhookFailed(502, ReportedMessage(fetched.thrown, "Failed to load payment from Mollie")), None;
    }
    var payment := fetched.value;
    var metadata := ParsePaymentMetadata(payment);

    var existing := if payment.id in db.attempts then Some(db.attempts[payment.id]) else None;
    var sequenceType := if existing.Some? then existing.value.sequenceType else MapSequenceType(payment.sequenceType);
    if existing.Some? {
      var a := existing.value;
      db.attempts := db.attempts[payment.id := a.(status := payment.status, raw := payment,
                                                  subscriptionId := a.subscriptionId.OrElse(metadata.subscriptionId))];
    } else {
      if !Present(metadata.companyId) || !Present(metadata.planId) {
        return Received, None;
      }
      var entry := LedgerEntry(db.Snapshot(), payment, metadata);
      db.attempts := db.attempts[payment.id := entry.value];
    }

    if !IsTerminalStatus(payment.status) {
      return Received, None;
    }
    var subscriptionId := (if existing.Some? then existing.value.subscriptionId else None).OrElse(metadata.subscriptionId);
    var companyId := if existing.Some? then Some(existing.value.companyId) else metadata.companyId;
    var found := FindSubscription(db.Snapshot(), subscriptionId, companyId);
    if found.None? {
      return Received, None;
    }
    reply, sent := SettlePayment(db, found.value, payment, sequenceType, created, now, calendar);
  }

  /** The transition step of POST for a terminal payment whose subscription was found. */
  method SettlePayment(db: Store, id: string, payment: MolliePayment, sequenceType: string, created: Call<string>,
                       now: int, calendar: Calendar)
    returns (reply: WebhookReply, sent: Option<SubscriptionRequest>)
    requires id in db.subscriptions
    modifies db
    ensures WebhookOutcome(reply, db.Snapshot(), sent)
      == Settle(old(db.Snapshot()), id, payment, sequenceType, created, now, calendar)
  {
    sent := None;
    var subscription := db.subscriptions[id];
    if sequenceType == "first" && IsTerminalFailure(payment.status) {
      db.subscriptions := db.subscriptions[id := subscription.(status := "pending")];
      return Received, None;
    }
    if sequenceType != "first" || payment.status != "paid" {
      return Received, None;
    }
    if subscription.planId !in db.plans {
      return Received, None;
    }
    var plan := db.plans[subscription.planId];
    var customerId := subscription.mollieCustomerId.OrElse(payment.customerId);
    if !Present(customerId) {
      return WebhookFailed(500, "Mollie customer is missing on subscription"), None;
    }

    var mollieSubscriptionId := subscription.mollieSubscriptionId;
    var periodEnd := AddBillingInterval(calendar, now, plan.interval);
    if !Present(mollieSubscriptionId) {
      sent := Some(SubscriptionRequest(customerId.value, "EUR", plan.price, PlanDescription(plan),
                   MapPlanIntervalToMollie(plan.interval), calendar.isoDate(periodEnd),
                   subscription.companyId, id, subscription.planId, "summit-first-payment-" + payment.id));
      if created.Threw? {
        return WebhookFailed(502, ReportedMessage(created.thrown, "Failed to create Mollie subscription")), sent;
      }
      mollieSubscriptionId := Some(created.value);
    }

    db.subscriptions := db.subscriptions[id := Activated(subscription, customerId.value, mollieSubscriptionId, now, periodEnd)];
    if subscription.companyId in db.companies {
      db.companies := db.companies[subscription.companyId := db.companies[subscription.companyId].(status := "active")];
    }
    reply := Received;
  }
}
