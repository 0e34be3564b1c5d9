# Summit: billing, access and account flows in Dafny

Summit is a multi-tenant web application. A company signs up, picks a plan, pays through the Mollie payment provider and invites its members. This project models the decision logic at its core and proves properties about it:

- **Billing readiness.** The requirements that still block a subscription, given the company's billing fields. This covers the country classification (NL, other EU member, outside the EU) and the VAT and business-registration formats (`SubscriptionRequirements`).
- **The subscription lifecycle.** The billing tables are a `Store` object whose maps the route handlers change (`BillingStore`). The handlers are:
  - the payment webhook and its attempt ledger (`Webhook`);
  - starting a checkout (`CheckoutStart`);
  - scheduling a plan change (`ChangePlan`);
  - cancelling at period end (`CancelSubscription`).

  Each handler is a method that returns its reply and changes the store. It is proved equal to a specification function over the tables. Lemmas on those functions give the guard order, idempotent replays and the fields each transition leaves alone. The provider client's error messages and request headers are in `Mollie`.
- **Access.** The access mode from a company's status (`CompanyStatus`), the normalised billing state, trial expiry and the write guard (`Entitlement`), and the agreement between the two.
- **Sign-in, invitation and email-change routes:**
  - the safe redirect path (`Redirect`);
  - invitation validity (`InviteContext`);
  - the invite link and its cookie (`InviteRoute`);
  - accepting an invitation (`InviteAccept`);
  - post-sign-in routing (`PostAuth`);
  - reconciling the auth, profile and pending email addresses (`EmailChange`).
- **The request middleware.** Guarded paths, the cookie-domain test, the project cookie names, and the cookie-clearing writes made when a removed member is signed out (`Middleware`).
- **Settings and account screens.** The state and pure helpers of:
  - the subscription sign-up flow (`SignupFlow`);
  - the subscription tab (`SubscriptionTab`);
  - the country picker (`CountryCombobox`);
  - the members tab (`MembersTab`);
  - the company form with its saved snapshot and dirty flag (`CompanyForm`);
  - the profile form (`ProfileForm`);
  - the sign-up form (`SignUpForm`).

Components that update state step by step are classes. Their handlers are methods whose `ensures` give the whole new state. Asynchronous handlers that guard against a second click are split into a `Start…` method (before the server answers) and a `Finish…` method (after).

Some modules model what the TypeScript sources take from JavaScript itself:

- `Wrappers`: `null`/`undefined` and `??`.
- `Text`: `trim`, `\s`, ASCII `toUpperCase`/`toLowerCase`, `startsWith`, `includes`, `split`, decimal rendering.
- `JsonValue`: parsed JSON, truthiness and `String(x)`.
- `Time`: stored timestamps, with calendar arithmetic as parameters.
- `HttpResponse`: redirects and cookie writes on a response.

Timestamps are integers (milliseconds since the epoch), and the current time is a parameter. Regular expressions are written out as character predicates.

## Model

| member | source | states |
|---|---|---|
| `Redirect.GetSafeRedirectPath` | lib/auth/redirect.ts:1-6 | the redirect is returned exactly when it is present and starts with "/" but not "//"; anything else (missing, empty, absolute, protocol-relative) gives the fallback |
| `Redirect.ResultIsSafe` | lib/auth/redirect.ts:1-6 | with a fallback that passes the test, the result always passes it too: it starts with a single "/" and not with "//" (which does not yet keep it on the site: see "## Findings") |
| `Redirect.SanitizeIdempotent` | lib/auth/redirect.ts:1-6 | sanitizing an already sanitized path returns it unchanged |
| `Redirect.RedirectExamples` | lib/auth/redirect.ts:1-6 | a missing, empty, absolute or protocol-relative redirect falls back to /dashboard; a local path with a query is kept |
| `Redirect.StripUrlWhitespace` | app/auth/callback/route.ts:16 | the redirect as the URL parser reads it when the route resolves it against the request URL: no tab, line feed or carriage return remains, and a first character that is none of them stays first |
| `Redirect.IsSameOriginPath` | app/auth/post-auth/route.ts:26 | a path the URL parser resolves on the request's own origin: read without tabs and line breaks, "/" followed by neither "/" nor a backslash; stated by `Redirect.SecondCharDecides` |
| `Redirect.SecondCharDecides` | lib/auth/redirect.ts:3-4 | for a path starting with "/" and a character the parser keeps, the written test passes exactly when that character is not "/", and the path stays on the origin exactly when it is neither "/" nor a backslash |
| `Redirect.BackslashPathLeavesOrigin` | lib/auth/redirect.ts:1-6 | as written, `/\evil.example` passes the test and is returned unchanged, although the URL parser reads it as the host evil.example |
| `Redirect.GetSameOriginRedirectPath` | lib/auth/redirect.ts:1-6 | corrected: the redirect is kept exactly when it is present, passes the written test and stays on the origin as the URL parser reads it; anything else gives the fallback |
| `Redirect.CorrectedRedirectStaysLocal` | lib/auth/redirect.ts:1-6 | with a fallback on the origin, the corrected result stays on the origin; it differs from the written sanitizer exactly on the paths that pass the written test but leave the origin, where the written one keeps them and the corrected one falls back |
| `Redirect.CorrectedRedirectExamples` | lib/auth/redirect.ts:1-6 | the corrected sanitizer falls back to /dashboard for `/\evil.example` and keeps /settings |
| `CompanyStatus.IsFullAccessStatus` | lib/company/status.ts:3 | the statuses that allow writes: exactly "trial" and "active", compared case-sensitively |
| `CompanyStatus.AccessModeFromStatus` | lib/company/status.ts:3-8 | full access exactly for the statuses "trial" and "active"; a missing or empty status is read-only |
| `CompanyStatus.IsCompanyReadOnlyStatus` | lib/company/status.ts:10-12 | read-only exactly when the status is neither "trial" nor "active" |
| `CompanyStatus.ReadOnlyIsNotFull` | lib/company/status.ts:10-12 | read-only is exactly the negation of full access |
| `CompanyStatus.StatusExamples` | lib/company/status.ts:3-8 | null, "", "Active" (case differs) and "past_due" are read-only; "trial" is full |
| `Entitlement.NormalizeBillingState` | lib/subscriptions/helpers.ts:12-24 | the result is the given status when that is one of the five billing states, otherwise suspended |
| `Entitlement.NormalizeKnownState` | lib/subscriptions/helpers.ts:12-24 | each billing state's own name normalizes to that state |
| `Entitlement.NormalizeIdempotent` | lib/subscriptions/helpers.ts:12-24 | normalizing a normalized state changes nothing |
| `Entitlement.ParseTimestampMs` | lib/subscriptions/helpers.ts:26-36 | a number exactly for a present, parseable timestamp; NaN (None) otherwise |
| `Entitlement.IsTrialExpired` | lib/subscriptions/helpers.ts:55-59 | only a trial can be expired, and never one whose end does not parse; a trial whose end parses is expired exactly when now is strictly later |
| `Entitlement.EntitlementOf` | lib/subscriptions/helpers.ts:53-69 | access is full iff the normalized state is trial or active and the trial has not expired; status and trial end are reported as read |
| `Entitlement.GetCompanyEntitlement` | lib/subscriptions/helpers.ts:38-70 | a lookup error is thrown with its message, a missing row as "Company not found", otherwise the row's entitlement at `now` |
| `Entitlement.RequireWriteAccess` | lib/subscriptions/helpers.ts:72-78 | passes exactly when the entitlement is found and full; a found but limited company throws WORKSPACE_READ_ONLY |
| `Entitlement.LapsedStatesAreReadOnly` | lib/subscriptions/helpers.ts:53-62 | past_due, suspended and canceled companies are read-only at any time |
| `Entitlement.TrialWithoutEndNeverExpires` | lib/subscriptions/helpers.ts:55-62 | a trial whose end is missing or unparseable keeps full access |
| `Entitlement.TrialExpiryBoundary` | lib/subscriptions/helpers.ts:56-62 | for every time, a trial with a parsed end has full access exactly up to and including its end instant and is read-only exactly at later times |
| `Entitlement.AgreesWithStatusRule` | lib/subscriptions/helpers.ts:53-62 | until a trial expires, the entitlement agrees with the status-only rule of lib/company/status.ts |
| `Entitlement.ExpiredTrialDisagrees` | lib/subscriptions/helpers.ts:53-62 | for an expired trial the entitlement is read-only while the status-only rule still says full |
| `Time.AddBillingInterval` | app/api/mollie/webhook/route.ts:40-49 | one year later for the interval "year", one month later for any other interval |
| `BillingStore.CompanySubscription` | app/api/billing/checkout/start/route.ts:106-110 | the subscription found for a company is a stored row of that company; none is found exactly when no row belongs to it |
| `BillingStore.UpdateKeepsConsistent` | app/api/billing/subscription/change-plan/route.ts:100-104 | rewriting a subscription row without changing its company keeps one subscription per company |
| `Mollie.MollieApiError.constructor` | lib/mollie.ts:10-18 | the error carries the given message and status, under the name "MollieApiError" |
| `Mollie.IsMollieApiError` | lib/mollie.ts:189-191 | a thrown value is a provider error exactly when it is a `MollieApiError`; nothing else thrown is |
| `Mollie.ReportedMessage` | app/api/mollie/webhook/route.ts:160 | a provider error is reported with its own message, any other thrown value with the route's fallback text |
| `Mollie.TrimmedMember` | lib/mollie.ts:85-87 | `title`/`detail` read as the trimmed string when they are strings, undefined when absent or null, and a TypeError for any other value |
| `Mollie.BuildMollieErrorMessage` | lib/mollie.ts:83-100 | a payload that is not an object (null included) gives "Mollie request failed with status N" |
| `Mollie.ErrorMessageCases` | lib/mollie.ts:83-100 | for an object payload: "title: detail" when both are non-blank, else the detail, else the title, else the status message |
| `Mollie.ErrorMessageExample` | lib/mollie.ts:99 | a null payload with status 500 gives "Mollie request failed with status 500" |
| `Mollie.SetHeader` | lib/mollie.ts:109-114 | after spreading one header, that key has the new value and every other key keeps its value |
| `Mollie.SpreadHeaders` | lib/mollie.ts:109-114 | after spreading a list of headers, each key has its last value in the list, or else its earlier value |
| `Mollie.RequestHeaders` | lib/mollie.ts:74-80 | the headers cannot be built exactly when the API key is missing or empty, and the error says "MOLLIE_API_KEY is not configured" |
| `Mollie.IdempotencyHeader` | lib/mollie.ts:108-114 | Idempotency-Key is sent exactly when a non-empty key is given and carries that key; Authorization is "Bearer <key>" |
| `Mollie.CheckResponse` | lib/mollie.ts:119-121 | a response that is not ok throws a MollieApiError with the built message and the response status (or the TypeError the message builder raises); an ok response throws nothing |
| `Webhook.ToStringValue` | app/api/mollie/webhook/route.ts:23-25 | a value is kept exactly when it is a non-blank string, and then trimmed |
| `Webhook.MapSequenceType` | app/api/mollie/webhook/route.ts:27-29 | "recurring" stays recurring, anything else (absent included) is first |
| `Webhook.MapPlanIntervalToMollie` | app/api/mollie/webhook/route.ts:51-53 | "12 months" exactly for the interval "year", "1 month" otherwise |
| `Webhook.MetadataValue` | app/api/mollie/webhook/route.ts:55-66 | the camelCase key is read first and the snake_case key only when the first gives nothing |
| `JsonValue.EntryValue` | app/api/mollie/webhook/route.ts:55-66 | a value found is one listed under the key, and a key that is listed is always found |
| `Webhook.ParsePaymentMetadata` | app/api/mollie/webhook/route.ts:55-66 | every id read from the metadata is non-empty |
| `Webhook.ExtractPaymentId` | app/api/mollie/webhook/route.ts:68-93 | an extracted payment id is never empty |
| `Webhook.ExtractionOrder` | app/api/mollie/webhook/route.ts:68-93 | a blank body has no id; a form `id` wins, then a JSON `id`, then the trimmed body itself exactly when it starts with "tr_" |
| `Webhook.IsTerminalStatus` | app/api/mollie/webhook/route.ts:11-12 | terminal exactly for paid, failed, expired and canceled |
| `Webhook.FindSubscription` | app/api/mollie/webhook/route.ts:95-130 | a stored subscription id is used first; when it is missing or not stored, the company's subscription if a company id is given, else none; whatever is found is a stored row |
| `Webhook.LedgerEntry` | app/api/mollie/webhook/route.ts:178-215 | a known payment always keeps its ledger row; a new one is recorded exactly when its metadata names both company and plan |
| `Webhook.ProviderRequest` | app/api/mollie/webhook/route.ts:268-294 | a provider subscription is requested exactly when none is stored, with key "summit-first-payment-<payment id>", the mapped interval, the customer, the plan price in EUR and the description "Summit <name> (<interval>)" |
| `Webhook.HandleWebhookSpec` | app/api/mollie/webhook/route.ts:136-335 | the POST handler as a function of the tables: 500 unconfigured, 401 bad secret, 400 no payment id, 502 failed lookup, each with the tables unchanged; otherwise the ledger step and the transition; its properties are the lemmas below |
| `Webhook.GuardsComeFirst` | app/api/mollie/webhook/route.ts:136-162 | missing configuration (500), a wrong secret (401), a blank body (400) and a failed provider lookup are answered in that order, and none writes anything |
| `Webhook.ActivateKeepsLedger` | app/api/mollie/webhook/route.ts:262-334 | activation never touches the ledger, the plans or the company index, and keeps the set of subscriptions |
| `Webhook.SettleKeepsLedger` | app/api/mollie/webhook/route.ts:230-334 | the transition step never touches the ledger, the plans or the company index, and keeps the set of subscriptions |
| `Webhook.ProcessPaymentLedger` | app/api/mollie/webhook/route.ts:178-218 | the ledger a delivery leaves behind is the old ledger with this payment's entry, if one is recorded |
| `Webhook.LedgerKeyedByPaymentId` | app/api/mollie/webhook/route.ts:178-215 | only the row of this payment id changes; a known row takes the new status and payload and keeps its company, plan, sequence type and a stored subscription id |
| `Webhook.NonTerminalLeavesRows` | app/api/mollie/webhook/route.ts:217-219 | a payment that is not terminal changes no subscription and no company and is acknowledged |
| `Webhook.FailedFirstPaymentSetsPending` | app/api/mollie/webhook/route.ts:230-243 | a failed, expired or canceled first payment sets only its subscription's status, to pending |
| `Webhook.OnlyFirstPaymentsMoveRows` | app/api/mollie/webhook/route.ts:245-247 | recurring payments, and first payments that are neither paid nor failed, change nothing |
| `Webhook.PaidFirstPaymentActivates` | app/api/mollie/webhook/route.ts:262-334 | a paid first payment without a customer fails with 500 and writes nothing; otherwise the subscription becomes active with the customer, keeps a stored period and provider id, and the company becomes active |
| `Webhook.Activate` | app/api/mollie/webhook/route.ts:262-334 | activation of a paid first payment; stated by `Webhook.PaidFirstPaymentActivates`, `Webhook.ActivateKeepsLedger` and `Webhook.ActivateReplay` |
| `Webhook.Settle` | app/api/mollie/webhook/route.ts:230-334 | the transition of a terminal payment whose subscription was found; stated by `Webhook.FailedFirstPaymentSetsPending`, `Webhook.OnlyFirstPaymentsMoveRows`, `Webhook.PaidFirstPaymentActivates`, `Webhook.SettleKeepsLedger` and `Webhook.SettleReplay` |
| `Webhook.ProcessPayment` | app/api/mollie/webhook/route.ts:164-334 | everything after the payment is loaded; stated by `Webhook.ProcessPaymentLedger`, `Webhook.LedgerKeyedByPaymentId`, `Webhook.NonTerminalLeavesRows` and `Webhook.LedgerReplay` |
| `Webhook.ActivateReplay` | app/api/mollie/webhook/route.ts:262-334 | activating an activated subscription again changes nothing and asks the provider for nothing |
| `Webhook.SettleReplay` | app/api/mollie/webhook/route.ts:230-334 | repeating an accepted transition changes nothing and asks the provider for nothing, whatever the clock says |
| `Webhook.LedgerReplay` | app/api/mollie/webhook/route.ts:168-215 | recording the same payment again reproduces the ledger row, the sequence type and the lookup keys of the first delivery |
| `Webhook.FindSubscriptionFrame` | app/api/mollie/webhook/route.ts:95-130 | the lookup depends only on the set of subscriptions and the company index |
| `Webhook.WebhookReplayIsIdempotent` | app/api/mollie/webhook/route.ts:164-334 | redelivering a payment that was answered with 200 leaves the tables as they are and requests no provider subscription |
| `Webhook.HandleWebhook` | app/api/mollie/webhook/route.ts:136-335 | the handler's reply, new tables and provider request are those of the webhook specification applied to the old tables |
| `Webhook.SettlePayment` | app/api/mollie/webhook/route.ts:230-334 | the transition step on the store does what the specification's transition does to the old tables |
| `CheckoutStart.Precheck` | app/api/billing/checkout/start/route.ts:53-126 | the request passes exactly when a signed-in owner names an active plan, the company exists and its subscription is not active; every refusal is an error reply |
| `CheckoutStart.StartCheckoutSpec` | app/api/billing/checkout/start/route.ts:45-273 | the checkout handler as a function of the tables: the guard chain, then the prepared row, then customer linking (502 when it fails), then the payment and its ledger row; its properties are the lemmas below |
| `CheckoutStart.GuardsWriteNothing` | app/api/billing/checkout/start/route.ts:53-126 | no session or profile gives 401, a non-owner 403, an inactive plan 400 INVALID_PLAN, and no refused request writes anything or calls the provider |
| `CheckoutStart.ActiveSubscriptionConflict` | app/api/billing/checkout/start/route.ts:116-126 | a company whose subscription is active gets 409 ACTIVE_SUBSCRIPTION_CONFLICT whatever plan it asks for, with no write and no provider call |
| `CheckoutStart.PreparedRow` | app/api/billing/checkout/start/route.ts:128-175 | the prepared row is pending on the requested plan with no provider subscription and no period; an existing row keeps its customer and pending plan, a new row has neither and enters the company index; other rows and tables are unchanged |
| `CheckoutStart.CustomerCreatedOnlyWhenMissing` | app/api/billing/checkout/start/route.ts:177-204 | a provider customer is requested exactly when the prepared row has none, so never for a row that already has one |
| `CheckoutStart.StartedRecordsFirstAttempt` | app/api/billing/checkout/start/route.ts:217-272 | a started checkout answers with the payment's checkout URL, payment id and subscription id, and records a "first" attempt in EUR for the plan's price |
| `CheckoutStart.Prepare` | app/api/billing/checkout/start/route.ts:128-175 | the insert or reset of the company's row; stated by `CheckoutStart.PreparedRow` and `CheckoutStart.PrepareKeepsConsistent` |
| `CheckoutStart.LinkCustomer` | app/api/billing/checkout/start/route.ts:177-203 | the customer link; stated by `CheckoutStart.CustomerCreatedOnlyWhenMissing` and `CheckoutStart.LaterStepsFrame` |
| `CheckoutStart.StartPayment` | app/api/billing/checkout/start/route.ts:205-272 | the configuration check, the payment and its first attempt; stated by `CheckoutStart.StartedRecordsFirstAttempt`, `CheckoutStart.LaterStepsFrame` and `CheckoutStart.PaymentStepLeavesLinkedRow` |
| `CheckoutStart.PrepareKeepsConsistent` | app/api/billing/checkout/start/route.ts:128-175 | inserting or resetting the row keeps the company index and the subscriptions in agreement and points the company at the prepared row |
| `CheckoutStart.LaterStepsFrame` | app/api/billing/checkout/start/route.ts:177-266 | after the row is prepared, linking the customer changes only that row's customer id and the payment step touches only the ledger |
| `CheckoutStart.CheckoutKeepsConsistent` | app/api/billing/checkout/start/route.ts:45-273 | the whole checkout keeps the company index and the subscriptions in agreement |
| `CheckoutStart.PaymentStepLeavesLinkedRow` | app/api/billing/checkout/start/route.ts:177-243 | once a payment is requested, the company's row is pending and linked to a customer, whatever happens to the payment |
| `CheckoutStart.RetryFromLinkedRow` | app/api/billing/checkout/start/route.ts:116-204 | a company whose row is pending with a customer passes the guards, reuses that row and links no second customer |
| `CheckoutStart.RetryReusesRowAndCustomer` | app/api/billing/checkout/start/route.ts:116-266 | retrying after a failed payment step reuses the same row and asks for no new customer |
| `CheckoutStart.CheckoutMetadataFields` | app/api/billing/checkout/start/route.ts:229-234 | each key of the payment metadata reads back the value checkout put there |
| `CheckoutStart.StringValueReadsBack` | app/api/mollie/webhook/route.ts:23-25 | a non-empty value without white space passes the webhook's string reader unchanged |
| `CheckoutStart.MetadataRoundTrip` | app/api/billing/checkout/start/route.ts:229-234 | the metadata checkout sends is parsed back by the webhook into the same company, subscription, plan and interval |
| `CheckoutStart.WebhookFindsCheckoutRow` | app/api/billing/checkout/start/route.ts:250-262 | the attempt checkout records makes the webhook look up the prepared subscription and treat the payment as a first payment |
| `CheckoutStart.StartCheckout` | app/api/billing/checkout/start/route.ts:45-273 | the handler's reply, new tables and provider calls are those of the checkout specification applied to the old tables |
| `CheckoutStart.PrepareSubscription` | app/api/billing/checkout/start/route.ts:128-175 | the store afterwards is the prepared tables and the returned id is the company's row, or the fresh id for a new row |
| `CheckoutStart.RecordPayment` | app/api/billing/checkout/start/route.ts:206-272 | from the configuration check on, the store and the reply follow the payment step of the specification |
| `ChangePlan.Locate` | app/api/billing/subscription/change-plan/route.ts:61-112 | a subscription is located exactly when a signed-in owner names an active plan and the company has a subscription, and it is the company's |
| `ChangePlan.AlreadyScheduled` | app/api/billing/subscription/change-plan/route.ts:114-144 | the request is already satisfied exactly when the plan is the pending one, or the current one with nothing pending; the answer reports the current plan, the pending plan or null, and the period end |
| `ChangePlan.StateProblem` | app/api/billing/subscription/change-plan/route.ts:146-161 | a plan change may go ahead exactly when the subscription is active, not cancelling, linked to a provider customer and subscription, and has a parsable period end |
| `ChangePlan.ChangePlanSpec` | app/api/billing/subscription/change-plan/route.ts:53-246 | the change-plan handler as a function of the tables: locating the subscription, then the idempotent answers, then the state guards (409), then the provider update and the pending plan; its properties are the lemmas below |
| `ChangePlan.GuardsWriteNothing` | app/api/billing/subscription/change-plan/route.ts:61-112 | without a session 401, a non-owner 403, a bad or inactive plan 400 INVALID_PLAN, no subscription 404 NOT_FOUND, and none of them writes or calls the provider |
| `ChangePlan.AlreadyPendingIsNoOp` | app/api/billing/subscription/change-plan/route.ts:114-128 | asking for the plan already pending succeeds with no change and no provider call, whatever state the subscription is in |
| `ChangePlan.AlreadyOnPlanIsNoOp` | app/api/billing/subscription/change-plan/route.ts:130-144 | asking for the current plan with nothing pending succeeds with pending plan null, no change and no provider call |
| `ChangePlan.StateGuardOrder` | app/api/billing/subscription/change-plan/route.ts:146-161 | not active, then cancellation pending, then not linked are refused in that order with 409 INVALID_STATE, and a refused change writes and sends nothing |
| `ChangePlan.ScheduleWritesOnlyPendingPlan` | app/api/billing/subscription/change-plan/route.ts:188-245 | the only write is the subscription's pending plan, made only after a successful provider update, and the reply then names current plan, new pending plan and period end; a failed update writes nothing |
| `ChangePlan.Schedule` | app/api/billing/subscription/change-plan/route.ts:163-245 | the current-plan lookup, the provider update and the pending plan; stated by `ChangePlan.ScheduleWritesOnlyPendingPlan` and `ChangePlan.UpdateShape` |
| `ChangePlan.UpdateShape` | app/api/billing/subscription/change-plan/route.ts:188-213 | the provider update starts on the date of the period end, carries the new plan's mapped interval and the stored customer and subscription, and is keyed by subscription, plan and that date |
| `ChangePlan.ChangePlanIsIdempotent` | app/api/billing/subscription/change-plan/route.ts:114-128 | sending the same change again after it was scheduled answers with the same pending plan, with no change and no second provider call |
| `ChangePlan.ChangePlanKeepsConsistent` | app/api/billing/subscription/change-plan/route.ts:222-227 | a plan change keeps the company index and the subscriptions in agreement |
| `ChangePlan.ChangeSubscriptionPlan` | app/api/billing/subscription/change-plan/route.ts:53-246 | the handler's reply, new tables and provider update are those of the change-plan specification applied to the old tables |
| `CancelSubscription.Locate` | app/api/billing/subscription/cancel/route.ts:34-64 | a subscription is located exactly when a signed-in owner's company has one, and it is the company's |
| `CancelSubscription.AlreadyCancelled` | app/api/billing/subscription/cancel/route.ts:66-90 | nothing is left to cancel exactly when the subscription is canceled or already cancelling; the answer reports the stored status and period end, and the flag as stored |
| `CancelSubscription.CancelSpec` | app/api/billing/subscription/cancel/route.ts:26-135 | the cancel handler as a function of the tables: locating the subscription, the idempotent answers, 409 for pending or unlinked, 502 when the provider call fails, else only the cancel flag set and "active" reported |
| `CancelSubscription.GuardsWriteNothing` | app/api/billing/subscription/cancel/route.ts:34-64 | without a session 401, a non-owner 403 FORBIDDEN, an owner without a subscription 404 NOT_FOUND, none writing or calling the provider |
| `CancelSubscription.AlreadyCancelledIsNoOp` | app/api/billing/subscription/cancel/route.ts:66-90 | a canceled or cancelling subscription is answered with its status and flag (false for a canceled one without a flag), with no write and no provider call |
| `CancelSubscription.StateGuards` | app/api/billing/subscription/cancel/route.ts:92-98 | a pending subscription, then one not linked to the provider, is refused with 409 INVALID_STATE, writing and sending nothing |
| `CancelSubscription.CancelWritesOnlyFlag` | app/api/billing/subscription/cancel/route.ts:100-134 | the only write is the cancel-at-period-end flag, made only after the provider accepted the cancel of the stored customer and subscription; the reply then says "active" and true |
| `CancelSubscription.CancelTwiceIsCancelOnce` | app/api/billing/subscription/cancel/route.ts:79-90 | cancelling again after an accepted cancel changes nothing, reaches no provider and reports the same flag |
| `CancelSubscription.CancelKeepsConsistent` | app/api/billing/subscription/cancel/route.ts:119-124 | cancelling keeps the company index and the subscriptions in agreement |
| `CancelSubscription.CancelAtPeriodEnd` | app/api/billing/subscription/cancel/route.ts:26-135 | the handler's reply, new tables and provider request are those of the cancel specification applied to the old tables |
| `SubscriptionRequirements.IsEuCountry` | lib/subscription/requirements.ts:25-53 | membership of the 27-code EU list, decided on the code's two letters; `IsEuCountryIff` proves it equal to the list |
| `SubscriptionRequirements.IsEuCountryIff` | lib/subscription/requirements.ts:25-53 | the letter-pair test used by the model accepts exactly the 27 listed EU country codes |
| `SubscriptionRequirements.EuCountryExamples` | lib/subscription/requirements.ts:25-53 | NL and DE are EU codes; US and GB are not |
| `SubscriptionRequirements.DigitsBetweenIff` | lib/subscription/requirements.ts:55 | the recursive digit-run test holds exactly when every character in the range is a digit |
| `SubscriptionRequirements.AlphanumericFromIff` | lib/subscription/requirements.ts:56 | the recursive run test holds exactly when every character from the position on is an ASCII letter or digit |
| `SubscriptionRequirements.RegistrationCharsFromMeans` | lib/subscription/requirements.ts:57-68 | the run test holds exactly when every character is in `[A-Z0-9-_/]`, and such a run contains no white space |
| `SubscriptionRequirements.IsValidBusinessRegistrationId` | lib/subscription/requirements.ts:63-73 | the three checks in the source's order: length 6 to 32, no white space, every character in `[A-Z0-9-_/]`; `RegistrationValidity` states the outcome without the order |
| `SubscriptionRequirements.RegistrationValidity` | lib/subscription/requirements.ts:63-73 | a registration id is valid exactly when it has 6 to 32 characters, all upper-case letters, digits, '-', '_' or '/' (the white-space test never decides on its own) |
| `SubscriptionRequirements.Resolve` | lib/subscription/requirements.ts:75-203 | the requirements of the normalised company: a lone COUNTRY requirement without a country, else the address, VAT and registration requirements in that order, ready iff none; the lemmas below state its properties |
| `SubscriptionRequirements.RequirementsOf` | lib/subscription/requirements.ts:77-196 | the requirements of normalised fields; stated by `SubscriptionRequirements.MissingCountryBlocksAlone`, `SubscriptionRequirements.ExactlyOneRegion`, `SubscriptionRequirements.RequirementsAreOrdered` and the rule lemmas below |
| `SubscriptionRequirements.MatchesNlVatPattern` | lib/subscription/requirements.ts:55 | exactly 14 characters: "NL", nine digits, "B", two digits, letters in either case as the `i` flag allows; the digit runs are stated by `SubscriptionRequirements.DigitsBetweenIff` |
| `SubscriptionRequirements.MatchesEuVatPattern` | lib/subscription/requirements.ts:56 | 8 to 16 characters: two ASCII letters, then 6 to 14 ASCII letters or digits; the run is stated by `SubscriptionRequirements.AlphanumericFromIff` |
| `SubscriptionRequirements.ResolveSubscriptionRequirements` | lib/subscription/requirements.ts:75-203 | the result is the requirements of the normalised company, and it is ready exactly when the list is empty |
| `SubscriptionRequirements.PushRequirements` | lib/subscription/requirements.ts:79-203 | pushing the requirements one group at a time yields the requirement list of the specification, ready exactly when empty |
| `SubscriptionRequirements.PushAddressRequirements` | lib/subscription/requirements.ts:103-131 | the list grows by exactly the address requirements |
| `SubscriptionRequirements.PushVatRequirements` | lib/subscription/requirements.ts:133-170 | the list grows by exactly the VAT requirements |
| `SubscriptionRequirements.PushRegistrationRequirements` | lib/subscription/requirements.ts:172-192 | the list grows by exactly the registration requirements |
| `SubscriptionRequirements.NormalizeString` | lib/subscription/requirements.ts:59-61 | a missing value reads as "", a present one trimmed; `NormalizeBlank` states when the result is empty |
| `SubscriptionRequirements.NormalizeBlank` | lib/subscription/requirements.ts:59-61 | a field normalises to "" exactly when it is null or blank, and upper-casing keeps its length |
| `SubscriptionRequirements.MissingCountryBlocksAlone` | lib/subscription/requirements.ts:79-97 | a blank country gives the single COUNTRY requirement, not ready, with every region flag false |
| `SubscriptionRequirements.ExactlyOneRegion` | lib/subscription/requirements.ts:99-101 | with a country, exactly one of is_nl, is_eu_non_nl and is_non_eu holds |
| `SubscriptionRequirements.AddressRequirementsShape` | lib/subscription/requirements.ts:103-131 | the address requirements come in key order street, city, postal code, without repetition |
| `SubscriptionRequirements.AddressRequirementsReportBlanks` | lib/subscription/requirements.ts:103-131 | each address requirement is present exactly when its field is blank |
| `SubscriptionRequirements.VatRequirementsShape` | lib/subscription/requirements.ts:133-170 | the VAT requirements come in key order VAT id, VIES validation, without repetition |
| `SubscriptionRequirements.RequirementsAreOrdered` | lib/subscription/requirements.ts:75-203 | the requirement list is in strictly increasing key order (no key twice), and is_ready holds exactly when it is empty |
| `SubscriptionRequirements.AddressRequirementsComeFirst` | lib/subscription/requirements.ts:103-192 | with a country, the list starts with the address requirements and everything after them is about tax or registration |
| `SubscriptionRequirements.NetherlandsVatRule` | lib/subscription/requirements.ts:133-158 | for NL the list is the address requirements, then MISSING_VAT_ID for a blank tax id or INVALID_VAT_ID_FORMAT when it does not match `NL` nine digits `B` two digits |
| `SubscriptionRequirements.EuNonNlNeverReady` | lib/subscription/requirements.ts:133-170 | for another EU country the list ends with VIES validation after the VAT check, so such a company is never ready |
| `SubscriptionRequirements.NonEuRegistrationRule` | lib/subscription/requirements.ts:172-192 | outside the EU the list is the address requirements, then a missing or an invalid registration id |
| `SubscriptionRequirements.TaxIdIgnoredOutsideEu` | lib/subscription/requirements.ts:133 | outside the EU the tax id does not affect the result |
| `SubscriptionRequirements.RegistrationIgnoredInEu` | lib/subscription/requirements.ts:172 | inside the EU the registration id does not affect the result |
| `SubscriptionRequirements.NlValidVatIsReady` | lib/subscription/requirements.ts:133-158 | a complete Dutch company with VAT id NL123456789B01 is ready |
| `SubscriptionRequirements.NlMalformedVatIsInvalid` | lib/subscription/requirements.ts:149-157 | a Dutch company with VAT id NL12345 has only INVALID_VAT_ID_FORMAT |
| `SubscriptionRequirements.GermanValidVatIsNotReady` | lib/subscription/requirements.ts:160-169 | a complete German company with a well-formed VAT id is blocked only by VIES validation |
| `SubscriptionRequirements.UsRegistrationWithSpaceIsInvalid` | lib/subscription/requirements.ts:183-190 | registration id "US 123" gives only INVALID_BUSINESS_REGISTRATION_FORMAT |
| `SubscriptionRequirements.UsValidRegistrationIsReady` | lib/subscription/requirements.ts:63-73 | a complete US company with registration id "US-123_45/6" is ready |
| `EmailChange.NormalizeVerifyType` | app/auth/email-change/callback/route.ts:16-37 | a type is accepted exactly when it is one of the six names or one of the two email-change variants; names map to themselves and the variants to email_change |
| `EmailChange.AuthCallOf` | app/auth/email-change/callback/route.ts:90-120 | a code is exchanged first; otherwise a token with a known type is verified; no auth call is made exactly when there is no code and no usable token-and-type pair |
| `EmailChange.Sync` | app/auth/email-change/callback/route.ts:39-86 | syncEmailChangeState as a function of the profiles: invalid for an unreadable or missing profile; the branches on the pending address are stated by `SyncBranches` |
| `EmailChange.SyncBranches` | app/auth/email-change/callback/route.ts:54-85 | a matching pending address is confirmed (success, or invalid when the update fails); another pending address gives pending; without a pending address a differing auth address is reverted to the profile's and is invalid; agreement is success |
| `EmailChange.MissingProfileIsInvalid` | app/auth/email-change/callback/route.ts:44-52 | a profile that cannot be read gives invalid and writes nothing |
| `EmailChange.SyncTouchesOwnProfileOnly` | app/auth/email-change/callback/route.ts:57-69 | only the user's own profile can change |
| `EmailChange.SyncSettles` | app/auth/email-change/callback/route.ts:57-85 | after a successful sync, syncing the same address again is success with no change |
| `EmailChange.RevertRestoresAgreement` | app/auth/email-change/callback/route.ts:75-83 | once the auth address is reverted to the profile's, the next sync is success with no change |
| `EmailChange.CallbackSpec` | app/auth/email-change/callback/route.ts:88-163 | the GET decision: sign in first without a user, pending for a blank address, otherwise the sync's status, always back to the safe path with "/profile" as fallback |
| `EmailChange.CallbackOutcomes` | app/auth/email-change/callback/route.ts:93-115 | without a user the redirect goes to sign-in with reason email_change and status pending; a user without an address gets pending; the redirect path is always a safe local path, "/profile" by default |
| `EmailChange.ProfileStore.constructor` | app/auth/email-change/callback/route.ts:44-48 | the store starts with the given profiles |
| `EmailChange.ProfileStore.SyncEmailChangeState` | app/auth/email-change/callback/route.ts:39-86 | the status, the revert request and the new profiles are those of the sync specification on the old profiles |
| `EmailChange.ProfileStore.HandleCallback` | app/auth/email-change/callback/route.ts:88-163 | the redirect, the auth call, the revert request and the new profiles are those of the callback specification on the old profiles |
| `InviteContext.GetPendingInviteContext` | lib/invite/context.ts:15-44 | no lookup for an empty token; otherwise the row keyed by the token's digest, refused on a lookup error, a missing row, a status other than pending, or an expiry at or before now |
| `InviteContext.ContextIffValid` | lib/invite/context.ts:15-44 | a context is returned exactly when the token is non-empty, the lookup by its digest succeeds, the row is pending and not expired; it carries the row's company and email |
| `InviteContext.ExpiryIsStrict` | lib/invite/context.ts:36-38 | an invitation that expires exactly now is refused; one that expires a millisecond later is accepted |
| `InviteContext.LookupByDigestOnly` | lib/invite/context.ts:21-26 | the answer depends on the token only through its digest, and rows under other digests do not affect it |
| `InviteRoute.InviteSpec` | app/invite/route.ts:5-32 | GET /invite: /invite/invalid without a token; otherwise accept or sign in, with the invite cookie set |
| `InviteRoute.NoTokenNoCookie` | app/invite/route.ts:7-11 | without a token the browser goes to /invite/invalid and no cookie is set |
| `InviteRoute.TokenIsRemembered` | app/invite/route.ts:13-31 | with a token, a signed-in user goes to /invite/accept with the token and anyone else to sign-in, and exactly one invite_token cookie holds the token: http-only, lax, path "/", seven days, secure exactly in production |
| `InviteRoute.HandleInvite` | app/invite/route.ts:5-32 | the response built is the one the invite specification describes |
| `InviteAccept.AcceptToken` | app/invite/accept/route.ts:17-19 | the query token wins over the cookie, and the token is empty exactly when neither is present |
| `InviteAccept.AcceptSpec` | app/invite/accept/route.ts:15-59 | GET /invite/accept: the token by precedence; invalid without one; sign in first without a user; the RPC outcome mapped to the dashboard or invalid, clearing the cookie |
| `InviteAccept.ClearsUnlessSigningIn` | app/invite/accept/route.ts:21-58 | a token without a user sends the browser to sign in, returning here, with no cookie change and no accept call; every other outcome clears the invite cookie |
| `InviteAccept.OutcomeMapping` | app/invite/accept/route.ts:38-58 | accept_invitation is called exactly when there is a token and a user, with the token and the user's email or ""; the dashboard is reached exactly on "accepted" or "already_accepted", every other answer goes to /invite/invalid |
| `InviteAccept.ClearMatchesInviteCookie` | app/invite/accept/route.ts:5-13 | the clearing cookie is the invite cookie with an empty value and max-age 0, so it replaces the cookie the invite route set |
| `InviteAccept.InviteTokenReachesAccept` | app/invite/route.ts:18-29 | the token of an invitation link reaches the accept route, through the query for a signed-in user and through the cookie otherwise |
| `HttpResponse.Response.SetCookie` | app/invite/route.ts:23-29 | `response.cookies.set`: the response keeps its target and gains the cookie as its last write |
| `InviteAccept.ClearInviteCookie` | app/invite/accept/route.ts:5-13 | the response keeps its target and gains the clearing cookie |
| `InviteAccept.HandleAccept` | app/invite/accept/route.ts:15-59 | the response and the accept call are those of the accept specification |
| `PostAuth.PostAuthSpec` | app/auth/post-auth/route.ts:6-27 | the post-sign-in destination: sign in with the safe fallback, the invitation when the cookie is set, else the fallback |
| `PostAuth.PostAuthOutcomes` | app/auth/post-auth/route.ts:6-27 | a user who is not signed in goes to sign-in with the safe redirect; a signed-in user with an invite cookie goes to /invite/accept, otherwise to the safe redirect, "/dashboard" by default |
| `PostAuth.InviteSurvivesSignIn` | app/auth/post-auth/route.ts:22-24 | an invitation opened while signed out leads, after sign-in, to /invite/accept, which reads the same token from the cookie |
| `Middleware.IsGuardedPath` | middleware.ts:10-23 | a path is guarded when it equals one of the six prefixes or lies below one (`prefix + "/"`); `GuardedBelowGuarded` and `GuardedPathExamples` state its consequences |
| `Middleware.IsDomainCookieHost` | middleware.ts:25-31 | not localhost, contains a dot, and not four dot-separated digit runs; `HostWithLetterTakesDomainCookies` and `AddressTakesNoDomainCookies` state what it accepts |
| `Middleware.ExtractProjectRef` | middleware.ts:33-45 | the first label of the Supabase URL's host, or none for a missing URL, one that does not parse, or an empty label |
| `Middleware.KnownProjectCookieNames` | middleware.ts:47-55 | none without a project ref; otherwise `sb-<ref>-auth-token` and its `.0` and `.1` chunks |
| `Middleware.ProjectRefIsFirstLabel` | middleware.ts:33-55 | a project reference is the non-empty first label of the Supabase URL's host; without one there are no project cookie names, with one there are three, all starting "sb-" |
| `Middleware.AddNamesProperties` | middleware.ts:58-66 | adding names to the set keeps it free of duplicates and holds exactly the old names and the added ones |
| `Middleware.SbCookieNamesMembers` | middleware.ts:63-67 | the names taken from the request are exactly its cookies whose names start with "sb-" |
| `Middleware.NamesToClear` | middleware.ts:57-67 | the known names, then the project names, then every request cookie starting with "sb-", added to a set in that order; `NamesToClearSpec` states its members and that none repeats |
| `Middleware.NamesToClearSpec` | middleware.ts:57-67 | the names cleared are distinct and are exactly the known Supabase names, the project names and the request's "sb-" cookies |
| `Middleware.ClearingWritesLength` | middleware.ts:76-103 | each name gets one write, plus one for a host that takes domain cookies, plus one for a parent domain |
| `Middleware.ClearingWritesClear` | middleware.ts:76-103 | every write empties a cleared name at path "/" with max-age 0, for no domain, the host or the parent domain |
| `Middleware.ClearingWritesCover` | middleware.ts:77-82 | every name gets a write without a domain |
| `Middleware.ClearingWritesShape` | middleware.ts:76-103 | the count, the form and the coverage of the writes together |
| `Middleware.ParentDomain` | middleware.ts:69-74 | the host without "www." when the host takes domain cookies and starts with "www.", else none |
| `Middleware.ParentDomainSpec` | middleware.ts:71-74 | there is a parent domain exactly when the host takes domain cookies and starts with "www.", and it is the host without that prefix |
| `Middleware.MiddlewareSpec` | middleware.ts:159-181 | the guarded-path branch: a signed-in user on a guarded path without a profile is signed out and redirected with every auth cookie cleared; anything else passes through |
| `Middleware.RemovedUserIsSignedOut` | middleware.ts:163-181 | the user is signed out exactly when signed in on a guarded path without a profile; then the response goes to /sign-in?reason=removed and clears every auth cookie; otherwise the request passes through with no cookie written |
| `Middleware.GuardedBelowGuarded` | middleware.ts:19-23 | every path below a guarded path is guarded |
| `Middleware.GuardedPathExamples` | middleware.ts:10-23 | /settings and /settings/members are guarded; /settingsX, / and /sign-in are not |
| `Middleware.DottedQuadChars` | middleware.ts:30 | a host matching the dotted-quad pattern holds only digits and dots |
| `Middleware.HostWithLetterTakesDomainCookies` | middleware.ts:25-31 | a dotted host other than localhost that contains a letter takes domain cookies |
| `Middleware.AddressTakesNoDomainCookies` | middleware.ts:25-31 | four digit runs joined by dots never take domain cookies |
| `Middleware.CollectCookieNames` | middleware.ts:58-67 | the loop collects exactly the names the specification clears |
| `Middleware.WriteClearing` | middleware.ts:77-102 | one loop step appends exactly the writes for that name and keeps the target |
| `Middleware.ClearSupabaseAuthCookies` | middleware.ts:57-104 | the response keeps its target and gains the clearing writes for every collected name |
| `Middleware.HandleRequest` | middleware.ts:106-182 | the response and the sign-out are those of the middleware specification |
| `SignupFlow.ToUpperTrimmed` | components/settings/subscription-signup-flow.tsx:89-91 | trim, then upper-case |
| `SignupFlow.GetTaxIdentityMode` | components/settings/subscription-signup-flow.tsx:93-104 | VAT for a blank country, NL and any EU member, compared after trimming and upper-casing; registration otherwise; `TaxModeAgreesWithRequirements` ties it to the billing requirements |
| `SignupFlow.EuListsAgree` | components/settings/subscription-signup-flow.tsx:51-79 | the component's EU list and the billing requirements' EU list hold the same codes |
| `SignupFlow.TaxModeAgreesWithRequirements` | components/settings/subscription-signup-flow.tsx:89-104 | a blank country asks for a VAT number; a filled-in country asks for one exactly when the billing requirements classify it as NL or another EU member |
| `SignupFlow.GetPlanFeatures` | components/settings/subscription-signup-flow.tsx:106-130 | no features for missing or falsy input; an array's items and an object's entries stringified with empty results dropped; a scalar's string form; stated by the lemmas below |
| `SignupFlow.ItemStrings` | components/settings/subscription-signup-flow.tsx:112-113 | one string per array item, in order, each the item's string form |
| `JsonValue.ToJsString` | components/settings/subscription-signup-flow.tsx:111-115 | `String(x)` on parsed JSON: "null", "true"/"false", an integer in decimal, a string as it is, an array joined with ",", an object as "[object Object]"; its use is stated by `SignupFlow.ItemStrings` and `SignupFlow.ItemStringsMembers` |
| `SignupFlow.EntryFeatures` | components/settings/subscription-signup-flow.tsx:118-125 | one line per object entry, in the order the entries are listed, each the entry's feature line |
| `SignupFlow.PlanFeaturesShape` | components/settings/subscription-signup-flow.tsx:106-130 | missing or falsy features give none; no feature line is empty; a truthy scalar gives its string form alone |
| `SignupFlow.ArrayFeatures` | components/settings/subscription-signup-flow.tsx:111-115 | an array gives its items' string forms in order without the empty ones, so a line appears exactly when it is the non-empty string form of some item |
| `SignupFlow.ItemStringsMembers` | components/settings/subscription-signup-flow.tsx:112-113 | a string is among the item strings exactly when it is the string form of some item |
| `SignupFlow.ItemStringsConcat` | components/settings/subscription-signup-flow.tsx:112-113 | the item strings of two arrays joined are the two lists joined |
| `SignupFlow.ArrayDropsEmptyItems` | components/settings/subscription-signup-flow.tsx:114 | an empty string item anywhere in the array leaves the features unchanged |
| `SignupFlow.ObjectFeatures` | components/settings/subscription-signup-flow.tsx:117-126 | an object gives its entries' lines without the empty ones: true gives the key, false nothing, a string "key: value", anything else the key |
| `SignupFlow.HydrateBillingForm` | components/settings/subscription-signup-flow.tsx:145-154 | each billing field of the company, a null read as "" |
| `SignupFlow.HydrateRoundTrip` | components/settings/subscription-signup-flow.tsx:145-154 | hydrating the company a form was saved as gives the form back, and a company with only nulls gives the empty form |
| `SignupFlow.EditTouchesOneField` | components/settings/subscription-signup-flow.tsx:434-492 | an edit sets its field and leaves every other field as it was |
| `SignupFlow.SetParam` | components/settings/subscription-signup-flow.tsx:255-262 | after a set, the pair is present and every pair under another key is kept |
| `SignupFlow.RemoveParam` | components/settings/subscription-signup-flow.tsx:255-262 | removing a key keeps exactly the pairs under other keys |
| `SignupFlow.SetParamAppends` | components/settings/subscription-signup-flow.tsx:255-262 | setting a key that is not yet present appends the pair |
| `SignupFlow.NavigateLocation` | components/settings/subscription-signup-flow.tsx:245-264 | `/settings` with tab=subscription, then plan_id when the given, selected or page plan is known, then the step unless it is the plan step |
| `SignupFlow.NavigateQuery` | components/settings/subscription-signup-flow.tsx:245-264 | the URL is /settings with tab=subscription first; plan_id is present exactly when a plan is known, preferring the argument, then the selected plan, then the page's; step is present exactly when the step is not "plan" |
| `SignupFlow.SignupFlowState.constructor` | components/settings/subscription-signup-flow.tsx:187-195 | the flow starts with the empty form, no selected plan and no errors |
| `SignupFlow.SignupFlowState.Load` | components/settings/subscription-signup-flow.tsx:214-220 | a loaded state sets the selected plan and hydrates the form, leaving the errors |
| `SignupFlow.SignupFlowState.Edit` | components/settings/subscription-signup-flow.tsx:434-492 | an edit changes only that form field |
| `SignupFlow.SignupFlowState.NavigateTo` | components/settings/subscription-signup-flow.tsx:245-264 | the target is the step URL; the checkout error is cleared unless it is to be preserved; nothing else changes |
| `SignupFlow.SignupFlowState.SubmitBilling` | components/settings/subscription-signup-flow.tsx:395-427 | without a plan the form error asks to select one; a save hydrates the form from the saved state, clears the errors and moves to payment with the plan the form was submitted with (the navigation belongs to the render before the save); a failed save shows the field errors and the form error, or the general error when there are no field errors, and rehydrates from a returned state |
| `SignupFlow.SignupFlowState.ProceedToCheckout` | components/settings/subscription-signup-flow.tsx:562-595 | without a plan the checkout error asks to select one and the plan step is shown; a refused start shows its message and returns to the plan step exactly on INVALID_PLAN; an accepted start leaves for the checkout URL, or reports an invalid response when there is none |
| `SubscriptionTab.NormalizeStep` | components/settings/subscription-tab.tsx:20-26 | "billing" and "payment" are kept, anything else (absent included) is the plan step |
| `SubscriptionTab.NormalizeInterval` | components/settings/subscription-tab.tsx:28-33 | the interval is yearly exactly for "yearly", monthly otherwise |
| `SubscriptionTab.NormalizationIdempotent` | components/settings/subscription-tab.tsx:20-40 | normalising a normalised step or interval changes nothing, and every step and interval reads back as itself |
| `CountryCombobox.FilterCountries` | components/settings/country-combobox.tsx:28-30 | the filtered list is no longer than the list |
| `CountryCombobox.FilterMembers` | components/settings/country-combobox.tsx:28-30 | a country is listed exactly when it is in the list and its name contains the search text, ignoring case |
| `CountryCombobox.FilterConcat` | components/settings/country-combobox.tsx:28-30 | filtering keeps the list's order: filtering two lists joined is the two filtered lists joined |
| `CountryCombobox.EmptySearchListsAll` | components/settings/country-combobox.tsx:28-30 | an empty search lists every country |
| `CountryCombobox.FilterIdempotent` | components/settings/country-combobox.tsx:28-30 | filtering the filtered list again changes nothing |
| `CountryCombobox.FindByCode` | components/settings/country-combobox.tsx:25 | nothing is found exactly when no country has the code; otherwise the first country with the code |
| `CountryCombobox.ShowClear` | components/settings/country-combobox.tsx:49 | the clear control shows exactly when a country is chosen |
| `CountryCombobox.Forwarded` | components/settings/country-combobox.tsx:37-41 | a choice is passed on exactly when it is not empty, and unchanged |
| `MembersTab.FirstTwo` | components/settings/members-tab.tsx:30-32 | `substring(0, 2)`: a prefix of at most two characters, exactly two when there are that many |
| `MembersTab.FirstCharText` | components/settings/members-tab.tsx:28 | a part's first character as a template literal spells it: the character, or "undefined" for an empty part |
| `MembersTab.TrailingSpaceSpellsUndefined` | components/settings/members-tab.tsx:24-33 | as written, a one-word name with a trailing space ("Ann ") gives ten letters, the word's initial followed by "UNDEFINED" |
| `MembersTab.GetInitialsAsWritten` | components/settings/members-tab.tsx:24-33 | getInitials as the code reads it, empty split parts included; stated by `MembersTab.TrailingSpaceSpellsUndefined` and `MembersTab.InitialsAgreeOnWellFormedNames` |
| `MembersTab.GetInitials` | components/settings/members-tab.tsx:24-33 | the corrected initials are never longer than two characters |
| `MembersTab.InitialsOfTwoParts` | components/settings/members-tab.tsx:26-29 | a name whose first two parts are non-empty gives their first characters, uppercased |
| `MembersTab.InitialsOfOnePart` | components/settings/members-tab.tsx:30 | a name without a space gives its first two characters (or its only one), uppercased |
| `MembersTab.InitialsOfEmail` | components/settings/members-tab.tsx:25-32 | a missing or empty name gives the first two characters of the email, uppercased |
| `MembersTab.InitialsAgreeOnWellFormedNames` | components/settings/members-tab.tsx:24-33 | the corrected initials equal the written ones whenever the written code does not meet an empty part |
| `MembersTab.GetRoleVariant` | components/settings/members-tab.tsx:35-37 | the badge is "default" exactly for owners and "secondary" for everyone else |
| `MembersTab.CanRemove` | components/settings/members-tab.tsx:230-238 | Remove is shown for a member when the viewer is an owner, the member is not the viewer, and the member is not an owner |
| `MembersTab.RemoveOffered` | components/settings/members-tab.tsx:230-238 | Remove is offered next to a member exactly when the viewer is an owner, the member is not the viewer and not an owner |
| `MembersTab.RemoveNeverOfferedForSelfOrOwner` | components/settings/members-tab.tsx:230-238 | nobody is offered to remove themselves or an owner, and a viewer who is not an owner is offered no removal |
| `MembersTab.ErrorDescription` | components/settings/members-tab.tsx:64-104 | the toast description is the action's error when it has one, never empty otherwise |
| `MembersTab.ResultToast` | components/settings/members-tab.tsx:62-70 | an error toast with the failure title exactly when the action failed; a success toast with the success title otherwise |
| `MembersTab.MembersTabState.constructor` | components/settings/members-tab.tsx:45-50 | the tab starts with an empty invite field, nothing in progress and no member awaiting removal |
| `MembersTab.MembersTabState.SetInviteEmail` | components/settings/members-tab.tsx:46 | typing sets only the invite field |
| `MembersTab.MembersTabState.HandleInvite` | components/settings/members-tab.tsx:52-71 | a non-owner sends nothing and changes nothing; an owner sends the typed address, sees the result toast, and the field is cleared only on success |
| `MembersTab.MembersTabState.HandleRevoke` | components/settings/members-tab.tsx:73-90 | a non-owner sends nothing; an owner revokes that invitation and sees the result toast, and no row is left marked as being revoked |
| `MembersTab.MembersTabState.SelectForRemoval` | components/settings/members-tab.tsx:230-238 | clicking Remove, which is shown only for a removable member, sets that member as awaiting confirmation |
| `MembersTab.MembersTabState.CancelRemoval` | components/settings/members-tab.tsx:260-276 | cancelling or closing the dialog clears the member awaiting confirmation and nothing else |
| `MembersTab.MembersTabState.HandleConfirmRemove` | components/settings/members-tab.tsx:92-111 | without a member or as a non-owner nothing happens; otherwise that member is removed, never the viewer, and the dialog closes only on success |
| `CompanyForm.InitialForm` | components/settings/company-form.tsx:24-36 | the form holds every field; a field is "" exactly when the column is null or empty, and otherwise holds the column's value |
| `CompanyForm.HasChanges` | components/settings/company-form.tsx:49-51 | the walk over the keys finds a change exactly when some listed field differs from the snapshot |
| `CompanyForm.HasChangesIffDiffers` | components/settings/company-form.tsx:48-53 | over the form's keys a change is found exactly when some field differs, that is exactly when the form and the snapshot are not equal |
| `CompanyForm.EveryFieldListed` | components/settings/company-form.tsx:24-36 | every editable field is one of the form's keys |
| `CompanyForm.FieldListed` | components/settings/company-form.tsx:24-36 | each field has a position among the form's keys |
| `CompanyForm.ErrorMessage` | components/settings/company-form.tsx:79-81 | the error toast's description (here and at lines 106 and 123): a non-empty error is shown as it is, otherwise the fallback |
| `CompanyForm.SavingOnlyChangeLeavesNothingDirty` | components/settings/company-form.tsx:48-79 | when one field is the only difference, the form is dirty before, and after a blur-save of that field nothing differs, yet the written handler leaves the dirty flag set |
| `CompanyForm.CanConfirmDelete` | components/settings/company-form.tsx:370 | the delete button is enabled when the typed name equals the company's name and no delete runs |
| `CompanyForm.DeleteGate` | components/settings/company-form.tsx:367-370 | the delete button is enabled only for the company's name typed exactly, and never while a delete runs |
| `CompanyForm.CompanyFormState.constructor` | components/settings/company-form.tsx:23-45 | the form and the snapshot start equal to the initial form, nothing is dirty, no dialog is open and nothing runs |
| `CompanyForm.CompanyFormState.RecomputeDirty` | components/settings/company-form.tsx:48-53 | afterwards the dirty flag holds exactly when the form differs from the snapshot; nothing else changes |
| `CompanyForm.CompanyFormState.HandleFieldChange` | components/settings/company-form.tsx:56-58 | one field of the form takes the value, the snapshot stays, and the dirty flag is kept up to date |
| `CompanyForm.CompanyFormState.HandleFieldBlurAsWritten` | components/settings/company-form.tsx:61-84 | as written: a non-owner or an unchanged value sends nothing; otherwise the field is sent and a success moves that field of the snapshot, while the dirty flag keeps its old value |
| `CompanyForm.CompanyFormState.HandleFieldBlur` | components/settings/company-form.tsx:61-84 | corrected: the same sends, snapshot update and toasts, and the dirty flag again holds exactly when the form differs from the snapshot |
| `CompanyForm.CompanyFormState.HandleSaveAll` | components/settings/company-form.tsx:86-108 | a non-owner or a clean form sends nothing; otherwise the whole form is sent; a success makes it the snapshot and clears the dirty flag, a failure keeps both, and the saving flag ends false |
| `CompanyForm.CompanyFormState.OpenDeleteDialog` | components/settings/company-form.tsx:333 | the dialog opens and nothing else changes |
| `CompanyForm.CompanyFormState.SetDeleteConfirmName` | components/settings/company-form.tsx:352 | the typed name is set and nothing else changes |
| `CompanyForm.CompanyFormState.CancelDelete` | components/settings/company-form.tsx:359-362 | the dialog closes and the typed name is cleared, so delete is disabled again for a named company |
| `CompanyForm.CompanyFormState.HandleDeleteCompany` | components/settings/company-form.tsx:111-126 | a non-owner sends nothing; an owner sends the typed name, which is the company's when the button was enabled; a failure re-enables the dialog with an error toast, a success leaves it busy |
| `ProfileForm.ProfileSchema` | components/profile/profile-form.tsx:29-35 | a name is accepted exactly when its trimmed form has 2 to 100 characters, and the accepted value is the trimmed name; a short name gets the "at least 2" message and a long one the "less than 100" message |
| `ProfileForm.ProfileSchemaSettles` | components/profile/profile-form.tsx:29-35 | an accepted name passes the schema again unchanged, and a blank name is always too short |
| `ProfileForm.CheckAvatarFile` | components/profile/profile-form.tsx:228-250 | a file is kept exactly when it is present, of an allowed type and at most 2 MiB, and a kept file comes with no error |
| `ProfileForm.AvatarFileCases` | lib/profile/avatar.ts:1-7 | no file clears selection and error; a disallowed type is refused for its type whatever its size; an allowed type is refused above 2097152 bytes and kept at 2097152 or less |
| `ProfileForm.FailureToast` | components/profile/profile-form.tsx:92-101 | a failed call always gives an error toast: the read-only notice where the handler checks for it, otherwise the title with the server's error or "Please try again." |
| `ProfileForm.NextPendingEmail` | components/profile/profile-form.tsx:180 | the pending address is the server's when it sends one, otherwise the input trimmed and lowercased |
| `ProfileForm.NextPendingEmailNormalised` | components/profile/profile-form.tsx:180-182 | the fallback address is already normalised, and it is empty exactly when the input was blank |
| `ProfileForm.ProfileFormState.constructor` | components/profile/profile-form.tsx:58-70 | the pending address and the input start from the given pending email, the avatar from the given URL, read-only exactly for the read_only access mode, nothing runs |
| `ProfileForm.ProfileFormState.Submit` | components/profile/profile-form.tsx:84-104 | a name the schema refuses sends nothing and changes nothing; an accepted one sends the trimmed name, ends with saving off, and toasts success or the failure toast with the read-only check |
| `ProfileForm.ProfileFormState.HandleAvatarFileChange` | components/profile/profile-form.tsx:228-250 | the selection and the error become those of the file check; nothing else changes and a kept selection is always an accepted file |
| `ProfileForm.ProfileFormState.StartUpload` | components/profile/profile-form.tsx:106-112 | with no selection or an upload running nothing happens; otherwise the selected, accepted file is sent and the upload is marked running |
| `ProfileForm.ProfileFormState.FinishUpload` | components/profile/profile-form.tsx:117-133 | the upload stops; a success sets the new URL and clears the selection with a success toast, a failure keeps the avatar and shows the failure toast |
| `ProfileForm.ProfileFormState.StartRemoveAvatar` | components/profile/profile-form.tsx:135-142 | the removal is called exactly when an avatar URL is present and no removal runs, and is then marked running; otherwise nothing changes |
| `ProfileForm.ProfileFormState.FinishRemoveAvatar` | components/profile/profile-form.tsx:142-158 | the removal stops; a success clears the URL, the selection and the error, a failure keeps them, each with its toast |
| `ProfileForm.ProfileFormState.SetEmailInput` | components/profile/profile-form.tsx:297-298 | while no request or resend runs, the typed address becomes the input and nothing else changes |
| `ProfileForm.ProfileFormState.StartEmailChangeRequest` | components/profile/profile-form.tsx:160-169 | a second click while a request runs sends nothing; otherwise the input is sent, remembered as the sent address, and the request is marked running |
| `ProfileForm.ProfileFormState.FinishEmailChangeRequest` | components/profile/profile-form.tsx:170-187 | the request stops; a success makes the next pending address (the server's, else the address sent at the click, trimmed and lowercased, whatever the field holds by now) both the pending email and the input and names it in the toast; a failure keeps both |
| `ProfileForm.ProfileFormState.StartResend` | components/profile/profile-form.tsx:189-196 | the resend is called exactly when none runs, and is then marked running |
| `ProfileForm.ProfileFormState.FinishResend` | components/profile/profile-form.tsx:196-206 | the resend stops, nothing else in the email state changes, and the toast reports success or the failure |
| `ProfileForm.ProfileFormState.StartCancelEmailChange` | components/profile/profile-form.tsx:208-215 | the cancellation is called exactly when none runs, and is then marked running |
| `ProfileForm.ProfileFormState.FinishCancelEmailChange` | components/profile/profile-form.tsx:215-226 | the cancellation stops; a success clears the pending address and the input, a failure keeps both, each with its toast |
| `SignUpForm.SignUpSchema` | components/auth/sign-up-form.tsx:14-21 | the data passes exactly when the name has 2 characters or more, the email is valid, a given company name has at most 100 and the password at least 8; the password message appears exactly for a short password |
| `SignUpForm.SignUpCall` | components/auth/sign-up-form.tsx:57-68 | the request carries the typed email, password and name and the invite token; the company name is dropped in the invite flow and sent as typed otherwise |
| `SignUpForm.SubmitSpec` | components/auth/sign-up-form.tsx:14-81 | submitting: the schema's errors first, then the company check outside the invite flow, then the sign-up call, failing with its error or going to /verify-email |
| `SignUpForm.CompanyNameRequiredOutsideInvites` | components/auth/sign-up-form.tsx:46-52 | outside an invite, valid data is refused with the company message exactly when the trimmed company name is missing or shorter than 2; otherwise the sign-up is called with that company name |
| `SignUpForm.InviteFlowSendsToken` | components/auth/sign-up-form.tsx:33-80 | with an invite token the sign-up is always called, with no company name and the token, and it ends on the verification page exactly when it reports no error |
| `SignUpForm.NameIsNotTrimmed` | components/auth/sign-up-form.tsx:15 | the name's length is counted untrimmed: two spaces pass, one letter is refused with the name message |
| `SignUpForm.DefaultEmail` | components/auth/sign-up-form.tsx:41-43 | the email field starts as the invited address when there is one, otherwise empty |
| `SignUpForm.SignUpFormState.constructor` | components/auth/sign-up-form.tsx:30-33 | the form keeps the invite token and email it was given and is not loading |
| `SignUpForm.SignUpFormState.StartSubmit` | components/auth/sign-up-form.tsx:46-68 | with the submit button enabled: outside an invite a missing or short company name toasts, sends nothing and leaves loading off; otherwise the sign-up request is sent and loading is on |
| `SignUpForm.SignUpFormState.FinishSubmit` | components/auth/sign-up-form.tsx:70-81 | loading ends; an error is toasted and stays on the page, no error goes to /verify-email |
| `SignUpForm.SubmitSpecAfterSchema` | components/auth/sign-up-form.tsx:46-81 | for data the schema accepts, submitting is refused exactly for the company check, and otherwise sends the sign-up request and fails exactly with the returned error |

## Left out

- Database queries, RPCs and auth calls are not modelled as I/O. Tables are maps in the `Store` object. Query outcomes that the code branches on are inputs: the `accept_invitation` result, the email-change profile read and update, a found or missing profile, and the sign-up error. Other query errors are not modelled, because the store is taken as reliable. Atomicity, unique constraints and concurrent webhook deliveries are external concurrency and are left out.
- HTTP calls to the payment provider (create, get, update and cancel) are not modelled. Their outcome is an input: success with the fields the handler reads, or failure.
- Floating-point amounts and `toFixed` formatting are not modelled. Plan prices are integers, and the recorded amount is the plan's price.
- Calendar arithmetic is supplied as functions and is not defined here: the month and year rollover of `addBillingInterval`, and `toIsoDate`. The savings and price displays of the sign-up flow are left out.
- `zod`'s `.email()` and `.uuid()` checks and the parsing of the plan id are parameters. So are the SHA-256 digest of an invitation token, `JSON.parse` and `URL` parsing.
- Percent-encoding of query values and `appendEmailChangeStatus`'s URL handling are not modelled. A location is a path and its decoded query parameters.
- `toUpperCase` and `toLowerCase` are modelled on ASCII letters only.
- `SignUpForm.SignUpSchema`: counts lengths in characters (Unicode scalar values). `zod`'s `min` and `max` count UTF-16 code units, so a name of one character outside the Basic Multilingual Plane (an emoji) passes `min(2)` in the program and fails in the model.
- `ProfileForm.ProfileSchema`: counts the trimmed name's length in characters, not in UTF-16 code units as `zod` does, for the same reason as `SignUpForm.SignUpSchema`.
- `MembersTab.FirstTwo`: takes two characters where `substring(0, 2)` takes two UTF-16 code units; for a first character outside the Basic Multilingual Plane the program shows that character alone, the model two characters.
- `MembersTab.FirstCharText`: takes the first character where `parts[i][0]` takes the first UTF-16 code unit; for a letter outside the Basic Multilingual Plane the program shows half a surrogate pair, the model the whole letter.
- The fresh id of a new subscription row is a parameter.
- The Supabase session refresh in the middleware is not modelled. That is the cookie `set`/`remove` callbacks and the response they rebuild. Only the guarded-path branch and its cookie clearing are modelled.
- Framework behaviour is not modelled: Next.js merging of cookie writes, the router, React effects, toasts as displayed, and JSX rendering. The handlers' toasts are modelled as values returned by the methods.
- The members-tab handlers are each a single step. Their awaited server calls are inputs.
- The full country list of the country picker is a parameter.
- `isAvatarUploadEnabled` and `getAvatarPlaceholderMessage` in lib/profile/avatar.ts read an environment flag and return display text; they are not part of this model.
- The settings page passes only the subscription and the user's role to the subscription tab. The tab passes `initialInterval` to the sign-up flow, but the flow's declared properties do not include it, so it has no behaviour to model. The tab passes no `selectedPlanId` either, so in the program the flow's `pagePlanId` is always undefined. The model keeps `pagePlanId` as a constructor parameter.
- A disabled input's value is not modelled. When the invited address fills the sign-up email field, `DefaultEmail` gives the starting value; whether the browser submits it is browser behaviour.
- `CountryCombobox.FilterCountries`: its own `ensures` is only a length bound. `CountryCombobox.FilterMembers` states that the filtered list holds exactly the matching countries. `CountryCombobox.FilterConcat` states that filtering keeps the list's order, since it distributes over concatenation.
- `MembersTab.GetInitials`: its own `ensures` is only the two-character bound. What it computes is stated by `MembersTab.InitialsAgreeOnWellFormedNames` and the lemmas beside it.
- `Webhook.SubscriptionRequest`: the provider subscription request leaves out the `webhookUrl` the webhook sends. The transition functions do not take the app URL and the secret. The handler's first guard only checks that both are configured. The amount is the plan's integer price; `toFixed(2)` is not modelled.
- `Webhook.ActivateReplay`: requires that the provider returns a non-empty subscription id. The source tests the stored id with `!mollieSubscriptionId`, so after an empty id a redelivery would create the provider subscription again.
- `Webhook.SettleReplay`: requires a non-empty provider subscription id, for the same reason as `Webhook.ActivateReplay`.
- `Webhook.WebhookReplayIsIdempotent`: requires a non-empty provider subscription id, for the same reason as `Webhook.ActivateReplay`.
- `SignupFlow.EntryFeatures`: walks a `JObject`'s entries in the order they are listed, which may repeat a key. The source walks `Object.entries` of the parsed object, which never repeats a key and lists integer-like keys first in ascending order. The model does not reorder or deduplicate the entries.
- `SignupFlow.ObjectFeatures`: takes the entries in listed order, for the same reason as `SignupFlow.EntryFeatures`.
- `CheckoutStart.PaymentStepLeavesLinkedRow`: requires a non-empty provider customer id. With an empty id the row is not linked: the source tests `!mollieCustomerId` and would create the customer again on the next checkout.
- `JsonValue.Json`: numbers are integers only. Fractions, exponents and the non-finite values are not modelled.
- `JsonValue.EntryValue`: an object may repeat a key, and the lookup answers the first entry with that key. `JSON.parse` keeps the last one, so the model can disagree on objects with duplicate keys.
- Disabled buttons in the profile form are not modelled. The resend and cancel buttons are disabled while any of the request, resend or cancel calls runs. `ProfileForm.ProfileFormState.StartResend` and `ProfileForm.ProfileFormState.StartCancelEmailChange` model only the handlers' own re-entry guards. `ProfileForm.ProfileFormState.SetEmailInput` does model its input's disabled condition.
- `CheckoutStart.RetryReusesRowAndCustomer`: this lemma requires that the provider returns a non-empty customer id. The source tests the stored id with `!mollieCustomerId`, so an empty id would make it create the customer again. The model stores whatever is returned.

## Findings

| source | as written | input that shows it | evidently intended | confidence | as-written member | corrected member |
|---|---|---|---|---|---|---|
| components/settings/members-tab.tsx:24-33 | `getInitials` splits the name on single spaces and reads `parts[1][0]`, which is `undefined` when the second part is empty | name "Ann " (a trailing space), or "Ann  Lee" (two spaces): the template prints "AUNDEFINED" | the initials of the first two non-empty words, at most two letters | not executed | `MembersTab.TrailingSpaceSpellsUndefined` | `MembersTab.GetInitials` |
| components/settings/company-form.tsx:48-79 | `isDirty` is recomputed by an effect that depends only on `formData`, and a blur-save only moves the snapshot held in a ref | change one field and leave it: the save succeeds and the form equals the snapshot, but "Save changes" stays enabled | after a successful blur-save the dirty flag again says whether the form differs from the snapshot | not executed | `CompanyForm.CompanyFormState.HandleFieldBlurAsWritten` | `CompanyForm.CompanyFormState.HandleFieldBlur` |
| lib/auth/redirect.ts:1-6 | the sanitizer refuses only paths that do not start with "/" or that start with "//" | redirect `/\evil.example`: it is kept, and `new URL(path, request.url)` at app/auth/callback/route.ts:16 and app/auth/post-auth/route.ts:26 resolves it to the host evil.example, because the URL parser reads a backslash as "/" for http and https | only destinations on the application's own origin are followed | not executed | `Redirect.BackslashPathLeavesOrigin` | `Redirect.GetSameOriginRedirectPath` |

The post-auth and email-change callback models keep the written sanitizer, because they model those routes as they stand. `Redirect.CorrectedRedirectStaysLocal` shows that the corrected sanitizer changes only the redirects that would leave the origin.
