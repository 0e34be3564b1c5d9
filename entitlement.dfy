/**
 * Billing state and write access of a company (lib/subscriptions/helpers.ts): the
 * stored status is normalized to one of five billing states, an expired trial loses
 * full access, and writes require full access.
 */
module Entitlement {
  import opened Wrappers
  import CompanyStatus
  import opened Time

  datatype BillingState = Trial | Active | PastDue | Suspended | Canceled {
    function Name(): string {
      match this
      case Trial => "trial"
      case Active => "active"
      case PastDue => "past_due"
      case Suspended => "suspended"
      case Canceled => "canceled"
    }
  }

  /** The columns of the company row the entitlement reads. */
  datatype CompanyRow = CompanyRow(status: Option<string>, trialEndsAt: Option<Timestamp>)

  datatype CompanyEntitlement = CompanyEntitlement(
    status: BillingState,
    accessMode: CompanyStatus.AccessMode,
    isTrialExpired: bool,
    trialEndsAt: Option<Timestamp>)

  /** normalizeBillingState: a known state is kept, anything else (null included)
      becomes suspended. */
  function NormalizeBillingState(status: Option<string>): (b: BillingState)
    ensures status == Some(b.Name()) || b == Suspended
  {
    if status == Some("trial") then Trial
    else if status == Some("active") then Active
    else if status == Some("past_due") then PastDue
    else if status == Some("suspended") then Suspended
    else if status == Some("canceled") then Canceled
    else Suspended
  }

  /** Each state's name normalizes to that state, so normalizing is idempotent. */
  lemma NormalizeKnownState(b: BillingState)
    ensures NormalizeBillingState(Some(b.Name())) == b
  {
  }

  lemma NormalizeIdempotent(status: Option<string>)
    ensures var b := NormalizeBillingState(status);
      NormalizeBillingState(Some(b.Name())) == b
  {
    NormalizeKnownState(NormalizeBillingState(status));
  }

  /** parseTimestampMs: the milliseconds, or None for NaN (null or unparseable text). */
  function ParseTimestampMs(value: Option<Timestamp>): (r: Option<int>)
    ensures r.Some? <==> value.Some? && value.value.At?
  {
    match value
    case Some(At(ms)) => Some(ms)
    case _ => None
  }

  /** The trial is over: the state is trial, the end parses, and now is strictly later. */
  function IsTrialExpired(status: BillingState, trialEndsAt: Option<Timestamp>, now: int): (e: bool)
    ensures e ==> status == Trial
    ensures ParseTimestampMs(trialEndsAt).None? ==> !e
    ensures status == Trial && trialEndsAt.Some? && trialEndsAt.value.At? ==> (e <==> trialEndsAt.value.ms < now)
  {
    var endMs := ParseTimestampMs(trialEndsAt);
    status == Trial && endMs.Some? && now > endMs.value
  }

  /** The entitlement computed from a company row that was found. */
  function EntitlementOf(row: CompanyRow, now: int): (e: CompanyEntitlement)
    ensures e.accessMode == CompanyStatus.Full <==> (e.status == Trial || e.status == Active) && !e.isTrialExpired
    ensures e.status == NormalizeBillingState(row.status) && e.trialEndsAt == row.trialEndsAt
  {
    var status := NormalizeBillingState(row.status);
    var expired := IsTrialExpired(status, row.trialEndsAt, now);
    var mode := if (status == Trial || status == Active) && !expired then CompanyStatus.Full else CompanyStatus.ReadOnly;
    CompanyEntitlement(status, mode, expired, row.trialEndsAt)
  }

  /** getCompanyEntitlement: the lookup's error or a missing row is thrown as an error;
      otherwise the entitlement of the row at `now`. */
  function GetCompanyEntitlement(lookupError: Option<string>, row: Option<CompanyRow>, now: int): (r: Result<CompanyEntitlement>)
    ensures lookupError.Some? ==> r == Failure(lookupError.value)
    ensures lookupError.None? && row.None? ==> r == Failure("Company not found")
    ensures r.Success? ==> lookupError.None? && row.Some? && r.value == EntitlementOf(row.value, now)
  {
    if lookupError.Some? then Failure(lookupError.value)
    else if row.None? then Failure("Company not found")
    else Success(EntitlementOf(row.value, now))
  }

  /** requireWriteAccess: None when writes are allowed, otherwise the thrown message. */
  function RequireWriteAccess(lookupError: Option<string>, row: Option<CompanyRow>, now: int): (r: Option<string>)
    ensures r == None <==> (GetCompanyEntitlement(lookupError, row, now).Success?
      && GetCompanyEntitlement(lookupError, row, now).value.accessMode == CompanyStatus.Full)
    ensures lookupError.None? && row.Some? && r.Some? ==> r.value == "WORKSPACE_READ_ONLY"
  {
    match GetCompanyEntitlement(lookupError, row, now)
    case Failure(message) => Some(message)
    case Success(e) => if e.accessMode != CompanyStatus.Full then Some("WORKSPACE_READ_ONLY") else None
  }

  /** past_due, suspended and canceled companies are always read-only. */
  lemma LapsedStatesAreReadOnly(row: CompanyRow, now: int)
    requires NormalizeBillingState(row.status) in {PastDue, Suspended, Canceled}
    ensures EntitlementOf(row, now).accessMode == CompanyStatus.ReadOnly
  {
  }

  /** A trial without a parseable end date never expires. */
  lemma TrialWithoutEndNeverExpires(row: CompanyRow, now: int)
    requires row.status == Some("trial") && ParseTimestampMs(row.trialEndsAt).None?
    ensures EntitlementOf(row, now).accessMode == CompanyStatus.Full
  {
  }

  /** A trial expires strictly after its end: at every time up to and including the
      end instant it has full access, and at every later time it is read-only. */
  lemma TrialExpiryBoundary(end: int, now: int)
    ensures EntitlementOf(CompanyRow(Some("trial"), Some(At(end))), now).accessMode == CompanyStatus.Full <==> now <= end
    ensures EntitlementOf(CompanyRow(Some("trial"), Some(At(end))), now).accessMode == CompanyStatus.ReadOnly <==> end < now
  {
  }

  /** Until a trial expires, the entitlement agrees with the status-only rule of
      lib/company/status.ts applied to the raw status. */
  lemma AgreesWithStatusRule(row: CompanyRow, now: int)
    requires !EntitlementOf(row, now).isTrialExpired
    ensures EntitlementOf(row, now).accessMode == CompanyStatus.AccessModeFromStatus(row.status)
  {
  }

  /** Once a trial has expired the two rules disagree: the status alone still says full. */
  lemma ExpiredTrialDisagrees(row: CompanyRow, now: int)
    requires EntitlementOf(row, now).isTrialExpired
    ensures EntitlementOf(row, now).accessMode == CompanyStatus.ReadOnly
    ensures CompanyStatus.AccessModeFromStatus(row.status) == CompanyStatus.Full
  {
  }
}
