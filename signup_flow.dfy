/**
 * The subscription sign-up flow on the settings page
 * (components/settings/subscription-signup-flow.tsx): choose a plan, complete the
 * company's billing details, then start the provider checkout. The pure helpers
 * (tax identity mode, plan features, form hydration, the step URL) and the state the
 * component keeps between those steps.
 */
module SignupFlow {
  import opened Wrappers
  import opened Text
  import opened JsonValue
  import opened HttpResponse
  import SubscriptionRequirements

  /** SubscriptionFlowStep */
  datatype FlowStep = PlanStep | BillingStep | PaymentStep
  {
    function Name(): string {
      match this
      case PlanStep => "plan"
      case BillingStep => "billing"
      case PaymentStep => "payment"
    }
  }

  // ---------------------------------------------------------------------------
  // Tax identity

  /** This component's own copy of the 27 member states of the European Union. */
  const EuCountryCodes: set<string> := {
    "AT", "BE", "BG", "HR", "CY", "CZ", "DK", "EE", "FI", "FR", "DE", "GR", "HU", "IE",
    "IT", "LV", "LT", "LU", "MT", "NL", "PL", "PT", "RO", "SK", "SI", "ES", "SE"
  }

  datatype TaxIdentityMode = Vat | Registration

  function ToUpperTrimmed(value: string): string {
    Upper(Trim(value))
  }

  /** getTaxIdentityMode: a VAT number for a blank country, NL and any EU member; a
      business registration id otherwise. */
  function GetTaxIdentityMode(country: string): TaxIdentityMode {
    var normalized := ToUpperTrimmed(country);
    if normalized == "" || normalized == "NL" then Vat
    else if normalized in EuCountryCodes then Vat
    else Registration
  }

  /** The component's list and the billing requirements' list are the same set. */
  lemma EuListsAgree(code: string)
    ensures code in EuCountryCodes <==> SubscriptionRequirements.ListedEuCountry(code)
  {
  }

  /** For a country that is filled in, the form asks for a VAT number exactly when the
      billing requirements classify the country as NL or another EU member, so the
      form asks for the identifier the requirements will check. A blank country asks
      for a VAT number. */
  lemma TaxModeAgreesWithRequirements(country: string)
    ensures IsBlank(country) ==> GetTaxIdentityMode(country) == Vat
    ensures !IsBlank(country) ==>
      var derived := SubscriptionRequirements.Classify(Upper(SubscriptionRequirements.NormalizeString(Some(country))));
      (GetTaxIdentityMode(country) == Vat <==> derived.isNl || derived.isEuNonNl)
  {
    var normalized := ToUpperTrimmed(country);
    EuListsAgree(normalized);
    SubscriptionRequirements.IsEuCountryIff(normalized);
  }

  // ---------------------------------------------------------------------------
  // Plan features

  /** `.map((item) => typeof item === 'string' ? item : String(item))` */
  function ItemStrings(items: seq<Json>): (r: seq<string>)
    ensures |r| == |items|
    ensures forall i :: 0 <= i < |items| ==> r[i] == ToJsString(items[i])
  {
    if items == [] then [] else [ToJsString(items[0])] + ItemStrings(items[1..])
  }

  /** One object entry as a feature line: a boolean gives the key when true and
      nothing when false, a string gives "key: value", anything else the key. */
  function EntryFeature(key: string, value: Json): string {
    match value
    case JBool(b) => if b then key else ""
    case JString(s) => key + ": " + s
    case _ => key
  }

  function EntryFeatures(entries: seq<(string, Json)>): (r: seq<string>)
    ensures |r| == |entries|
    ensures forall i :: 0 <= i < |entries| ==> r[i] == EntryFeature(entries[i].0, entries[i].1)
  {
    if entries == [] then [] else [EntryFeature(entries[0].0, entries[0].1)] + EntryFeatures(entries[1..])
  }

  /** getPlanFeatures over the plan's `features` column (None is null or undefined). */
  function GetPlanFeatures(features: Option<Json>): seq<string> {
    if features.None? || Falsy(features.value) then []
    else match features.value
      case JArray(items) => NonEmpty(ItemStrings(items))
      case JObject(entries) => NonEmpty(EntryFeatures(entries))
      case _ => [ToJsString(features.value)]
  }

  /** Nothing, null and the falsy scalars give no features; every feature given is
      non-empty; a truthy scalar gives its string form alone. */
  lemma PlanFeaturesShape(features: Option<Json>)
    ensures features.None? || Falsy(features.value) ==> GetPlanFeatures(features) == []
    ensures forall x :: x in GetPlanFeatures(features) ==> x != ""
    ensures features.Some? && !Falsy(features.value) && !features.value.JArray? && !features.value.JObject? ==>
      GetPlanFeatures(features) == [ToJsString(features.value)]
  {
    if features.Some? && !Falsy(features.value) && !features.value.JArray? && !features.value.JObject? {
      match features.value
      case JBool(b) =>
      case JNumber(n) =>
        assert n != 0;
        assert IntToDecimal(n) != "";
      case JString(s) =>
      case JNull =>
    }
  }

  /** An array gives its items' string forms, in order, without the empty ones. */
  lemma ArrayFeatures(items: seq<Json>)
    requires items != []
    ensures GetPlanFeatures(Some(JArray(items))) == NonEmpty(ItemStrings(items))
    ensures forall x :: x in GetPlanFeatures(Some(JArray(items))) <==>
      x != "" && exists i :: 0 <= i < |items| && ToJsString(items[i]) == x
  {
    var strings := ItemStrings(items);
    assert GetPlanFeatures(Some(JArray(items))) == NonEmpty(strings);
    ItemStringsMembers(items);
  }

  /** The item strings are exactly the string forms of the items. */
  lemma ItemStringsMembers(items: seq<Json>)
    ensures forall x :: x in ItemStrings(items) <==> exists i :: 0 <= i < |items| && ToJsString(items[i]) == x
  {
    var strings := ItemStrings(items);
    forall x
      ensures x in strings <==> exists i :: 0 <= i < |items| && ToJsString(items[i]) == x
    {
      if x in strings {
        var i :| 0 <= i < |strings| && strings[i] == x;
      }
    }
  }

  lemma ItemStringsConcat(a: seq<Json>, b: seq<Json>)
    ensures ItemStrings(a + b) == ItemStrings(a) + ItemStrings(b)
  {
    var left := ItemStrings(a + b);
    var right := ItemStrings(a) + ItemStrings(b);
    assert |left| == |right|;
    forall i | 0 <= i < |left|
      ensures left[i] == right[i]
    {
      if i < |a| {
        assert (a + b)[i] == a[i];
      } else {
        assert (a + b)[i] == b[i - |a|];
      }
    }
  }

  /** An empty string among the items changes nothing: the order of the others is
      kept. */
  lemma ArrayDropsEmptyItems(before: seq<Json>, after: seq<Json>)
    ensures NonEmpty(ItemStrings(before + [JString("")] + after)) == NonEmpty(ItemStrings(before + after))
  {
    var sb := ItemStrings(before);
    var sa := ItemStrings(after);
    ItemStringsConcat(before + [JString("")], after);
    ItemStringsConcat(before, [JString("")]);
    ItemStringsConcat(before, after);
    assert ItemStrings([JString("")]) == [""];
    NonEmptyConcat(sb + [""], sa);
    NonEmptyConcat(sb, [""]);
    NonEmptyConcat(sb, sa);
    assert NonEmpty([""]) == [];
    assert sb + [] == sb;
  }

  /** An object gives one line per entry, in entry order, except entries whose line is
      empty: a true flag gives the key, a false flag nothing, a string "key: value",
      and anything else the key. */
  lemma ObjectFeatures(entries: seq<(string, Json)>)
    requires entries != []
    ensures GetPlanFeatures(Some(JObject(entries))) == NonEmpty(EntryFeatures(entries))
    ensures forall key :: EntryFeature(key, JBool(true)) == key && EntryFeature(key, JBool(false)) == ""
    ensures forall key, n :: EntryFeature(key, JNumber(n)) == key
    ensures forall key, s :: EntryFeature(key, JString(s)) == key + ": " + s
  {
  }

  // ---------------------------------------------------------------------------
  // The billing form

  /** BillingFormState */
  datatype BillingForm = BillingForm(
    streetAddress: string,
    city: string,
    postalCode: string,
    country: string,
    taxId: string,
    companyRegistrationId: string)

  const EmptyBillingForm := BillingForm("", "", "", "", "", "")

  /** hydrateBillingForm: each company field, null read as "". */
  function HydrateBillingForm(company: SubscriptionRequirements.BillingCompany): BillingForm {
    BillingForm(
      company.streetAddress.GetOr(""),
      company.city.GetOr(""),
      company.postalCode.GetOr(""),
      company.country.GetOr(""),
      company.taxId.GetOr(""),
      company.companyRegistrationId.GetOr(""))
  }

  /** The company row a saved form reads back as. */
  function CompanyOf(form: BillingForm): SubscriptionRequirements.BillingCompany {
    SubscriptionRequirements.BillingCompany(
      Some(form.country), Some(form.streetAddress), Some(form.city), Some(form.postalCode),
      Some(form.taxId), Some(form.companyRegistrationId))
  }

  /** Hydrating the row of a saved form gives the form back; a company with every field
      null gives the empty form. */
  lemma HydrateRoundTrip(form: BillingForm)
    ensures HydrateBillingForm(CompanyOf(form)) == form
    ensures HydrateBillingForm(SubscriptionRequirements.BillingCompany(None, None, None, None, None, None)) == EmptyBillingForm
  {
  }

  /** The form fields a user edits. */
  datatype BillingField = StreetAddress | City | PostalCode | Country | TaxId | CompanyRegistrationId

  /** `setBillingForm((prev) => ({ ...prev, field: value }))` */
  function WithField(form: BillingForm, field: BillingField, value: string): BillingForm {
    match field
    case StreetAddress => form.(streetAddress := value)
    case City => form.(city := value)
    case PostalCode => form.(postalCode := value)
    case Country => form.(country := value)
    case TaxId => form.(taxId := value)
    case CompanyRegistrationId => form.(companyRegistrationId := value)
  }

  function FieldOf(form: BillingForm, field: BillingField): string {
    match field
    case StreetAddress => form.streetAddress
    case City => form.city
    case PostalCode => form.postalCode
    case Country => form.country
    case TaxId => form.taxId
    case CompanyRegistrationId => form.companyRegistrationId
  }

  /** Editing a field sets that field and leaves every other field alone. */
  lemma EditTouchesOneField(form: BillingForm, field: BillingField, value: string)
    ensures FieldOf(WithField(form, field, value), field) == value
    ensures forall other :: other != field ==> FieldOf(WithField(form, field, value), other) == FieldOf(form, other)
  {
  }

  // ---------------------------------------------------------------------------
  // The step URL

  /** `params.set(key, value)`: replaces the key's value, or appends the key. */
  function SetParam(params: seq<(string, string)>, key: string, value: string): (r: seq<(string, string)>)
    ensures (key, value) in r
    ensures forall p :: p in params && p.0 != key ==> p in r
  {
    if params == [] then [(key, value)]
    else if params[0].0 == key then [(key, value)] + RemoveParam(params[1..], key)
    else [params[0]] + SetParam(params[1..], key, value)
  }

  function RemoveParam(params: seq<(string, string)>, key: string): (r: seq<(string, string)>)
    ensures forall p :: p in r <==> p in params && p.0 != key
  {
    if params == [] then []
    else (if params[0].0 == key then [] else [params[0]]) + RemoveParam(params[1..], key)
  }

  /** Setting a key the parameters do not hold appends it. */
  lemma {:induction false} SetParamAppends(params: seq<(string, string)>, key: string, value: string)
    requires forall p :: p in params ==> p.0 != key
    ensures SetParam(params, key, value) == params + [(key, value)]
    decreases |params|
  {
    if params != [] {
      assert params[0] in params;
      assert forall p :: p in params[1..] ==> p in params;
      SetParamAppends(params[1..], key, value);
      assert [params[0]] + (params[1..] + [(key, value)]) == params + [(key, value)];
    }
  }

  /** The plan kept in the URL: the explicit id (null counts as not given), else the
      loaded selection's id, else the page's `plan_id`. */
  function NextPlanId(planId: Option<string>, selectedPlanId: Option<string>, pagePlanId: Option<string>): Option<string> {
    planId.OrElse(selectedPlanId).OrElse(pagePlanId)
  }

  /** The URL navigateTo replaces the page with. */
  function NavigateLocation(nextStep: FlowStep, planId: Option<string>, selectedPlanId: Option<string>, pagePlanId: Option<string>): Location {
    var nextPlanId := NextPlanId(planId, selectedPlanId, pagePlanId);
    var params := [("tab", "subscription")]
      + (if Present(nextPlanId) then [("plan_id", nextPlanId.value)] else [])
      + (if nextStep != PlanStep then [("step", nextStep.Name())] else []);
    Location("/settings", params)
  }

  /** The URL always names the subscription tab; it names a plan when one is known
      (an explicit null keeps the known one), and a step other than "plan". */
  lemma NavigateQuery(nextStep: FlowStep, planId: Option<string>, selectedPlanId: Option<string>, pagePlanId: Option<string>)
    ensures var loc := NavigateLocation(nextStep, planId, selectedPlanId, pagePlanId);
      && loc.path == "/settings" && loc.query[0] == ("tab", "subscription")
      && (("plan_id", NextPlanId(planId, selectedPlanId, pagePlanId).GetOr("")) in loc.query <==> Present(NextPlanId(planId, selectedPlanId, pagePlanId)))
      && (planId.None? ==> NavigateLocation(nextStep, None, selectedPlanId, pagePlanId) == NavigateLocation(nextStep, selectedPlanId.OrElse(pagePlanId), None, None))
      && (("step", nextStep.Name()) in loc.query <==> nextStep != PlanStep)
  {
    var nextPlanId := NextPlanId(planId, selectedPlanId, pagePlanId);
    var loc := NavigateLocation(nextStep, planId, selectedPlanId, pagePlanId);
    if ("plan_id", nextPlanId.GetOr("")) in loc.query {
      var k :| 0 <= k < |loc.query| && loc.query[k] == ("plan_id", nextPlanId.GetOr(""));
    }
    if ("step", nextStep.Name()) in loc.query {
      var k :| 0 <= k < |loc.query| && loc.query[k] == ("step", nextStep.Name());
    }
  }

  // ---------------------------------------------------------------------------
  // The component's state

  /** What the provider-checkout request answered: whether the status was OK, and
      the parsed body when there was one. */
  datatype CheckoutPayload = CheckoutPayload(checkoutUrl: Option<string>, errorCode: Option<string>, errorMessage: Option<string>)
  datatype CheckoutResponse = CheckoutResponse(ok: bool, payload: Option<CheckoutPayload>)

  /** What saving the billing details answered; `state` is the company and selected
      plan the server reloaded, when it sent them. */
  datatype SignupSnapshot = SignupSnapshot(company: SubscriptionRequirements.BillingCompany, selectedPlanId: Option<string>)
  datatype SaveResult =
    | Saved(state: SignupSnapshot)
    | NotSaved(fieldErrors: Option<map<string, string>>, formError: Option<string>, error: string, reloaded: Option<SignupSnapshot>)

  const SelectPlanFirstMessage := "Select a plan first to continue."
  const CheckoutFailedMessage := "Failed to start checkout."
  const InvalidCheckoutMessage := "Checkout response was invalid."

  /** The error shown after a failed checkout request, and whether to go back to
      choosing a plan. */
  function CheckoutFailure(payload: Option<CheckoutPayload>): (string, bool) {
    var message := if payload.Some? && payload.value.errorMessage.Some? then payload.value.errorMessage.value else CheckoutFailedMessage;
    (message, payload.Some? && payload.value.errorCode == Some("INVALID_PLAN"))
  }

  class SignupFlowState {
    var billingForm: BillingForm
    var selectedPlanId: Option<string>
    var checkoutError: Option<string>
    var formError: Option<string>
    var fieldErrors: map<string, string>
    /** The page's `plan_id` property. */
    const pagePlanId: Option<string>

    constructor(pagePlanId: Option<string>)
      ensures this.pagePlanId == pagePlanId
      ensures billingForm == EmptyBillingForm && selectedPlanId.None?
      ensures checkoutError.None? && formError.None? && fieldErrors == map[]
    {
      this.pagePlanId := pagePlanId;
      billingForm := EmptyBillingForm;
      selectedPlanId := None;
      checkoutError := None;
      formError := None;
      fieldErrors := map[];
    }

    /** The sign-up state arrived: keep its selection and fill the form from it. */
    method Load(state: SignupSnapshot)
      modifies this
      ensures billingForm == HydrateBillingForm(state.company) && selectedPlanId == state.selectedPlanId
      ensures checkoutError == old(checkoutError) && formError == old(formError) && fieldErrors == old(fieldErrors)
    {
      selectedPlanId := state.selectedPlanId;
      billingForm := HydrateBillingForm(state.company);
    }

    /** Typing in one field. */
    method Edit(field: BillingField, value: string)
      modifies this
      ensures billingForm == WithField(old(billingForm), field, value)
      ensures selectedPlanId == old(selectedPlanId) && checkoutError == old(checkoutError)
      ensures formError == old(formError) && fieldErrors == old(fieldErrors)
    {
      billingForm := WithField(billingForm, field, value);
    }

    /** navigateTo: clears the checkout error unless asked to keep it, and answers the
        URL to show. */
    method NavigateTo(nextStep: FlowStep, planId: Option<string>, preserveCheckoutError: bool) returns (target: Location)
      modifies this
      ensures target == NavigateLocation(nextStep, planId, old(selectedPlanId), pagePlanId)
      ensures checkoutError == (if preserveCheckoutError then old(checkoutError) else None)
      ensures billingForm == old(billingForm) && selectedPlanId == old(selectedPlanId)
      ensures formError == old(formError) && fieldErrors == old(fieldErrors)
    {
      if !preserveCheckoutError {
        checkoutError := None;
      }
      var nextPlanId := planId.OrElse(selectedPlanId).OrElse(pagePlanId);
      var params := SetParam([], "tab", "subscription");
      if Present(nextPlanId) {
        SetParamAppends(params, "plan_id", nextPlanId.value);
        params := SetParam(params, "plan_id", nextPlanId.value);
      }
      if nextStep != PlanStep {
        SetParamAppends(params, "step", nextStep.Name());
        params := SetParam(params, "step", nextStep.Name());
      }
      target := Location("/settings", params);
    }

    /** Submitting the billing step: without a selected plan only the form error is
        set; otherwise the errors are cleared, the answer shown, and on success the
        flow moves on to payment with the plan that was submitted, whatever plan the
        saved state selects. */
    method SubmitBilling(result: SaveResult) returns (target: Option<Location>)
      modifies this
      ensures old(selectedPlanId).None? ==>
        && formError == Some(SelectPlanFirstMessage) && target.None?
        && billingForm == old(billingForm) && checkoutError == old(checkoutError) && fieldErrors == old(fieldErrors)
        && selectedPlanId.None?
      ensures old(selectedPlanId).Some? && result.Saved? ==>
        && billingForm == HydrateBillingForm(result.state.company) && selectedPlanId == result.state.selectedPlanId
        && formError.None? && fieldErrors == map[] && checkoutError.None?
        && target == Some(NavigateLocation(PaymentStep, None, old(selectedPlanId), pagePlanId))
      ensures old(selectedPlanId).Some? && result.NotSaved? ==>
        && target.None? && checkoutError.None?
        && fieldErrors == (if result.fieldErrors.Some? then result.fieldErrors.value else map[])
        && formError == (if result.formError.Some? then result.formError else if result.fieldErrors.Some? then None else Some(result.error))
        && (result.reloaded.Some? ==>
              billingForm == HydrateBillingForm(result.reloaded.value.company)
              && selectedPlanId == result.reloaded.value.selectedPlanId)
        && (result.reloaded.None? ==> billingForm == old(billingForm) && selectedPlanId == old(selectedPlanId))
    {
      if selectedPlanId.None? {
        formError := Some(SelectPlanFirstMessage);
        return None;
      }
      formError := None;
      fieldErrors := map[];
      checkoutError := None;
      if result.NotSaved? {
        fieldErrors := if result.fieldErrors.Some? then result.fieldErrors.value else map[];
        formError := if result.formError.Some? then result.formError else if result.fieldErrors.Some? then None else Some(result.error);
        if result.reloaded.Some? {
          Load(result.reloaded.value);
        }
        return None;
      }
      // navigateTo belongs to the render before the save, so it still reads the
      // selection the form was submitted with.
      var next := NavigateTo(PaymentStep, None, false);
      Load(result.state);
      target := Some(next);
    }

    /** The payment step's button: without a plan, back to choosing one with the error
        kept; otherwise the checkout is requested, and either the browser goes to the
        provider's checkout page or an error is shown (going back to choosing a plan
        for an invalid plan). */
    method ProceedToCheckout(response: CheckoutResponse) returns (checkoutPage: Option<string>, target: Option<Location>)
      modifies this
      ensures old(selectedPlanId).None? ==>
        && checkoutError == Some(SelectPlanFirstMessage) && checkoutPage.None?
        && target == Some(NavigateLocation(PlanStep, None, old(selectedPlanId), pagePlanId))
      ensures old(selectedPlanId).Some? && !response.ok ==>
        && checkoutError == Some(CheckoutFailure(response.payload).0) && checkoutPage.None?
        && (target.Some? <==> CheckoutFailure(response.payload).1)
        && (target.Some? ==> target.value == NavigateLocation(PlanStep, None, old(selectedPlanId), pagePlanId))
      ensures old(selectedPlanId).Some? && response.ok ==>
        && target.None?
        && (checkoutPage.Some? <==> response.payload.Some? && Present(response.payload.value.checkoutUrl))
        && (checkoutPage.Some? ==> checkoutPage == response.payload.value.checkoutUrl && checkoutError.None?)
        && (checkoutPage.None? ==> checkoutError == Some(InvalidCheckoutMessage))
      ensures billingForm == old(billingForm) && selectedPlanId == old(selectedPlanId)
      ensures formError == old(formError) && fieldErrors == old(fieldErrors)
    {
      checkoutPage := None;
      target := None;
      if selectedPlanId.None? {
        checkoutError := Some(SelectPlanFirstMessage);
        var back := NavigateTo(PlanStep, None, true);
        target := Some(back);
        return;
      }
      checkoutError := None;
      if !response.ok {
        var failure := CheckoutFailure(response.payload);
        checkoutError := Some(failure.0);
        if failure.1 {
          var back := NavigateTo(PlanStep, None, true);
          target := Some(back);
        }
        return;
      }
      if response.payload.None? || !Present(response.payload.value.checkoutUrl) {
        checkoutError := Some(InvalidCheckoutMessage);
        return;
      }
      checkoutPage := response.payload.value.checkoutUrl;
    }
  }
}
