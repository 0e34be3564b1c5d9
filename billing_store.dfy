/**
 * The billing tables the route handlers read and write: subscriptions, companies,
 * plans and the ledger of payment attempts, held by a Store object whose methods
 * the handlers call. The row shapes follow types/database.ts; the columns the
 * handlers use that the generated types lack (`pending_plan_id` and the
 * `subscription_payment_attempts` table) are added.
 */
module BillingStore {
  import opened Wrappers
  import opened Time
  import opened JsonValue

  /** A subscriptions row (keyed by its id). */
  datatype Subscription = Subscription(
    companyId: string,
    planId: string,
    pendingPlanId: Option<string>,
    status: string,
    cancelAtPeriodEnd: Option<bool>,
    currentPeriodStart: Option<Timestamp>,
    currentPeriodEnd: Option<Timestamp>,
    mollieCustomerId: Option<string>,
    mollieSubscriptionId: Option<string>)

  /** A plans row (keyed by its id). The price is kept as an integer amount. */
  datatype Plan = Plan(name: string, price: int, interval: string, isActive: Option<bool>)

  /** The columns of a companies row the billing handlers use (keyed by its id). */
  datatype Company = Company(name: string, status: string)

  datatype PaymentAmount = PaymentAmount(currency: string, value: string)

  /** A payment as the provider reports it. */
  datatype MolliePayment = MolliePayment(
    id: string,
    customerId: Option<string>,
    status: string,
    sequenceType: Option<string>,
    amount: Option<PaymentAmount>,
    metadata: Option<Json>,
    checkoutUrl: Option<string>)

  /** The amount recorded with an attempt: the plan price at checkout, or the provider's
      amount text as the webhook parses it (`parseFloat` and rounding are not modelled). */
  datatype AttemptAmount = PlanPrice(price: int) | ParsedAmount(value: Option<string>)

  /** A subscription_payment_attempts row, keyed by the provider's payment id. */
  datatype PaymentAttempt = PaymentAttempt(
    companyId: string,
    subscriptionId: Option<string>,
    planId: string,
    sequenceType: string,
    status: string,
    amount: AttemptAmount,
    currency: string,
    raw: MolliePayment)

  /** The signed-in caller: its profile row, when there is a user and a profile. */
  datatype Profile = Profile(role: string, companyId: string, email: string)

  datatype Session = NoUser | NoProfile | SignedIn(profile: Profile)

  /** All billing tables at one moment. `subscriptionOfCompany` is the index behind
      the lookups `.eq('company_id', ...).maybeSingle()`: a company has at most one
      subscription. */
  datatype Tables = Tables(
    subscriptions: map<string, Subscription>,
    subscriptionOfCompany: map<string, string>,
    companies: map<string, Company>,
    plans: map<string, Plan>,
    attempts: map<string, PaymentAttempt>)

  /** The company index and the subscriptions agree. */
  predicate Consistent(t: Tables) {
    && (forall c :: c in t.subscriptionOfCompany ==>
          t.subscriptionOfCompany[c] in t.subscriptions && t.subscriptions[t.subscriptionOfCompany[c]].companyId == c)
    && (forall id :: id in t.subscriptions ==>
          t.subscriptions[id].companyId in t.subscriptionOfCompany && t.subscriptionOfCompany[t.subscriptions[id].companyId] == id)
  }

  /** The subscription of a company, if it has one. */
  function CompanySubscription(t: Tables, companyId: string): (r: Option<string>)
    ensures r.Some? ==> r.value in t.subscriptions
    ensures Consistent(t) && r.Some? ==> t.subscriptions[r.value].companyId == companyId
    ensures Consistent(t) ==> (r.None? <==> forall id :: id in t.subscriptions ==> t.subscriptions[id].companyId != companyId)
  {
    if companyId in t.subscriptionOfCompany && t.subscriptionOfCompany[companyId] in t.subscriptions
    then Some(t.subscriptionOfCompany[companyId])
    else None
  }

  /** Replacing a row with one of the same company keeps the index consistent. */
  lemma UpdateKeepsConsistent(t: Tables, id: string, s: Subscription)
    requires Consistent(t) && id in t.subscriptions && s.companyId == t.subscriptions[id].companyId
    ensures Consistent(t.(subscriptions := t.subscriptions[id := s]))
  {
  }

  /** The plan a request may move to: it exists and is active. */
  predicate IsActivePlan(t: Tables, planId: string) {
    planId in t.plans && t.plans[planId].isActive == Some(true)
  }

  /** `requestSchema.safeParse(payload)` of the billing routes: the plan id, or the
      message of the first issue when there is one. Whether a text is a UUID is the
      schema library's call. */
  datatype PlanIdParse = ValidPlanId(planId: string) | InvalidPayload(firstIssue: Option<string>)

  /** `NEXT_PUBLIC_APP_URL`, `MOLLIE_WEBHOOK_SECRET` and `encodeURIComponent`. */
  datatype BillingEnv = BillingEnv(appUrl: Option<string>, webhookSecret: Option<string>, encode: string -> string)

  /** The webhook URL given to the provider, with the secret as a query value. */
  function WebhookUrl(env: BillingEnv): string
    requires env.appUrl.Some? && env.webhookSecret.Some?
  {
    env.appUrl.value + "/api/mollie/webhook?secret=" + env.encode(env.webhookSecret.value)
  }

  /** The database: one map per table, updated in place by the handlers. */
  class Store {
    var subscriptions: map<string, Subscription>
    var subscriptionOfCompany: map<string, string>
    var companies: map<string, Company>
    var plans: map<string, Plan>
    var attempts: map<string, PaymentAttempt>

    constructor(t: Tables)
      ensures Snapshot() == t
    {
      subscriptions := t.subscriptions;
      subscriptionOfCompany := t.subscriptionOfCompany;
      companies := t.companies;
      plans := t.plans;
      attempts := t.attempts;
    }

    /** The tables as one value. */
    function Snapshot(): Tables
      reads this
    {
      Tables(subscriptions, subscriptionOfCompany, companies, plans, attempts)
    }
  }
}
