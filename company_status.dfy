/** Access mode of a company from its stored status (lib/company/status.ts). */
module CompanyStatus {
  import opened Wrappers

  datatype AccessMode = Full | ReadOnly

  /** `FULL_ACCESS_STATUSES`: the statuses that allow writes. */
  predicate IsFullAccessStatus(status: string) {
    status in {"trial", "active"}
  }

  /** getCompanyAccessModeFromStatus: full exactly for "trial" and "active" (compared
      case-sensitively); a missing or empty status is read-only. */
  function AccessModeFromStatus(status: Option<string>): (m: AccessMode)
    ensures m == Full <==> status == Some("trial") || status == Some("active")
  {
    if status.None? || status.value == "" then ReadOnly
    else if IsFullAccessStatus(status.value) then Full
    else ReadOnly
  }

  /** isCompanyReadOnlyStatus */
  function IsCompanyReadOnlyStatus(status: Option<string>): (r: bool)
    ensures r <==> !(status == Some("trial") || status == Some("active"))
  {
    AccessModeFromStatus(status) == ReadOnly
  }

  /** Read-only is exactly the negation of full access. */
  lemma ReadOnlyIsNotFull(status: Option<string>)
    ensures IsCompanyReadOnlyStatus(status) <==> AccessModeFromStatus(status) != Full
  {
  }

  lemma StatusExamples()
    ensures AccessModeFromStatus(None) == ReadOnly
    ensures AccessModeFromStatus(Some("")) == ReadOnly
    ensures AccessModeFromStatus(Some("Active")) == ReadOnly
    ensures AccessModeFromStatus(Some("past_due")) == ReadOnly
    ensures AccessModeFromStatus(Some("trial")) == Full
  {
  }
}
