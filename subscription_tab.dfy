/**
 * The subscription tab (components/settings/subscription-tab.tsx) reads the step and
 * the interval from the page URL; anything it does not recognise falls back to the
 * first step and the monthly interval.
 */
module SubscriptionTab {
  import opened Wrappers
  import opened SignupFlow

  /** SubscriptionFlowInterval */
  datatype FlowInterval = Monthly | Yearly
  {
    function Name(): string {
      match this
      case Monthly => "monthly"
      case Yearly => "yearly"
    }
  }

  /** normalizeStep: "billing" and "payment" as they are, anything else the plan step. */
  function NormalizeStep(step: Option<string>): (r: FlowStep)
    ensures step == Some("billing") || step == Some("payment") ==> r.Name() == step.value
    ensures !(step == Some("billing") || step == Some("payment")) ==> r == PlanStep
  {
    if step == Some("billing") then BillingStep
    else if step == Some("payment") then PaymentStep
    else PlanStep
  }

  /** normalizeInterval: "yearly" as it is, anything else monthly. */
  function NormalizeInterval(interval: Option<string>): (r: FlowInterval)
    ensures r == Yearly <==> interval == Some("yearly")
  {
    if interval == Some("yearly") then Yearly else Monthly
  }

  /** Both normalisations are total and idempotent, and a step's or interval's own
      name reads back as itself. */
  lemma NormalizationIdempotent(step: Option<string>, interval: Option<string>)
    ensures NormalizeStep(Some(NormalizeStep(step).Name())) == NormalizeStep(step)
    ensures NormalizeInterval(Some(NormalizeInterval(interval).Name())) == NormalizeInterval(interval)
    ensures forall s: FlowStep :: NormalizeStep(Some(s.Name())) == s
    ensures forall i: FlowInterval :: NormalizeInterval(Some(i.Name())) == i
  {
  }
}
