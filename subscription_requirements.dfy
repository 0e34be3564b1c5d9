/**
 * Billing readiness of a company (lib/subscription/requirements.ts): from the company's
 * billing fields, the ordered list of requirements that still block a subscription,
 * a ready flag, and the country classification (NL, other EU member, outside the EU).
 */
module SubscriptionRequirements {
  import opened Wrappers
  import opened Text

  datatype RequirementKey =
    | CountryKey
    | StreetAddressKey
    | CityKey
    | PostalCodeKey
    | VatIdKey
    | BusinessRegistrationIdKey
    | ViesValidationKey

  datatype BlockingReason =
    | MissingCountry
    | MissingStreetAddress
    | MissingCity
    | MissingPostalCode
    | MissingVatId
    | InvalidVatIdFormat
    | RequiresViesValidation
    | MissingBusinessRegistrationId
    | InvalidBusinessRegistrationFormat

  /** One blocking requirement. The title, description and form fields the UI shows
      are fixed by the key and the reason. */
  datatype Requirement = Requirement(key: RequirementKey, blockingReason: BlockingReason) {
    function Title(): string {
      match key
      case CountryKey => "Billing country"
      case StreetAddressKey => "Street address"
      case CityKey => "City"
      case PostalCodeKey => "Postal code"
      case VatIdKey => "VAT ID"
      case ViesValidationKey => "VAT validation"
      case BusinessRegistrationIdKey => "Business registration ID"
    }

    function Description(): string {
      if key == ViesValidationKey then "VAT validation required" else "Required to continue"
    }

    function Fields(): seq<string> {
      match key
      case CountryKey => ["country"]
      case StreetAddressKey => ["street_address"]
      case CityKey => ["city"]
      case PostalCodeKey => ["postal_code"]
      case VatIdKey => ["tax_id"]
      case ViesValidationKey => ["tax_id"]
      case BusinessRegistrationIdKey => ["company_registration_id"]
    }
  }

  /** The billing columns of a company row; every one of them may be null. */
  datatype BillingCompany = BillingCompany(
    country: Option<string>,
    streetAddress: Option<string>,
    city: Option<string>,
    postalCode: Option<string>,
    taxId: Option<string>,
    companyRegistrationId: Option<string>)

  datatype Derived = Derived(isNl: bool, isEuNonNl: bool, isNonEu: bool)

  datatype Resolution = Resolution(orderedRequirements: seq<Requirement>, isReady: bool, derived: Derived)

  /** `EU_COUNTRY_CODES`: the 27 member states of the European Union, as ISO 3166-1
      alpha-2 codes. */
  predicate ListedEuCountry(code: string) {
    code in {
      "AT", "BE", "BG", "HR", "CY", "CZ", "DK", "EE", "FI", "FR", "DE", "GR", "HU", "IE",
      "IT", "LV", "LT", "LU", "MT", "NL", "PL", "PT", "RO", "SK", "SI", "ES", "SE"
    }
  }

  /** `EU_COUNTRY_CODES.has(code)`, decided on the two letters of the code
      (IsEuCountryIff shows the two agree). */
  predicate IsEuCountry(code: string) {
    |code| == 2 && IsEuLetterPair(code[0], code[1])
  }

  predicate IsEuLetterPair(a: char, b: char) {
    match a
    case 'A' => b == 'T'
    case 'B' => b == 'E' || b == 'G'
    case 'C' => b == 'Y' || b == 'Z'
    case 'D' => b == 'K' || b == 'E'
    case 'E' => b == 'E' || b == 'S'
    case 'F' => b == 'I' || b == 'R'
    case 'G' => b == 'R'
    case 'H' => b == 'R' || b == 'U'
    case 'I' => b == 'E' || b == 'T'
    case 'L' => b == 'V' || b == 'T' || b == 'U'
    case 'M' => b == 'T'
    case 'N' => b == 'L'
    case 'P' => b == 'L' || b == 'T'
    case 'R' => b == 'O'
    case 'S' => b == 'K' || b == 'I' || b == 'E'
    case _ => false
  }

  /** The letter-pair test accepts exactly the listed codes. */
  lemma IsEuCountryIff(code: string)
    ensures IsEuCountry(code) <==> ListedEuCountry(code)
  {
    if IsEuCountry(code) {
      assert code == [code[0], code[1]];
    }
  }

  lemma EuCountryExamples()
    ensures IsEuCountry("NL") && IsEuCountry("DE")
    ensures !IsEuCountry("US") && !IsEuCountry("GB")
  {
  }

  /** `value?.trim() ?? ''` */
  function NormalizeString(value: Option<string>): string {
    match value
    case None => ""
    case Some(s) => Trim(s)
  }

  /** The requirement the source pushes for each blocking reason. */
  function RequirementFor(reason: BlockingReason): Requirement {
    match reason
    case MissingCountry => Requirement(CountryKey, reason)
    case MissingStreetAddress => Requirement(StreetAddressKey, reason)
    case MissingCity => Requirement(CityKey, reason)
    case MissingPostalCode => Requirement(PostalCodeKey, reason)
    case MissingVatId => Requirement(VatIdKey, reason)
    case InvalidVatIdFormat => Requirement(VatIdKey, reason)
    case RequiresViesValidation => Requirement(ViesValidationKey, reason)
    case MissingBusinessRegistrationId => Requirement(BusinessRegistrationIdKey, reason)
    case InvalidBusinessRegistrationFormat => Requirement(BusinessRegistrationIdKey, reason)
  }

  /** Every character of s[lo..hi] is a decimal digit. */
  predicate DigitsBetween(s: string, lo: nat, hi: nat)
    requires lo <= hi <= |s|
    decreases hi - lo
  {
    lo == hi || (IsDigit(s[lo]) && DigitsBetween(s, lo + 1, hi))
  }

  lemma {:induction false} DigitsBetweenIff(s: string, lo: nat, hi: nat)
    requires lo <= hi <= |s|
    ensures DigitsBetween(s, lo, hi) <==> forall i :: lo <= i < hi ==> IsDigit(s[i])
    decreases hi - lo
  {
    if lo < hi {
      DigitsBetweenIff(s, lo + 1, hi);
    }
  }

  /** `/^NL[0-9]{9}B[0-9]{2}$/i` */
  predicate MatchesNlVatPattern(s: string) {
    && |s| == 14
    && UpperChar(s[0]) == 'N' && UpperChar(s[1]) == 'L'
    && DigitsBetween(s, 2, 11)
    && UpperChar(s[11]) == 'B'
    && DigitsBetween(s, 12, 14)
  }

  predicate IsAsciiAlphanumeric(c: char) { IsAsciiLetter(c) || IsDigit(c) }

  /** Every character of s[k..] is an ASCII letter or digit. */
  predicate AlphanumericFrom(s: string, k: nat)
    requires k <= |s|
    decreases |s| - k
  {
    k == |s| || (IsAsciiAlphanumeric(s[k]) && AlphanumericFrom(s, k + 1))
  }

  lemma {:induction false} AlphanumericFromIff(s: string, k: nat)
    requires k <= |s|
    ensures AlphanumericFrom(s, k) <==> forall i :: k <= i < |s| ==> IsAsciiAlphanumeric(s[i])
    decreases |s| - k
  {
    if k < |s| {
      AlphanumericFromIff(s, k + 1);
    }
  }

  /** `/^([A-Z]{2})([A-Z0-9]{6,14})$/i` */
  predicate MatchesEuVatPattern(s: string) {
    && 8 <= |s| <= 16
    && IsAsciiLetter(s[0]) && IsAsciiLetter(s[1])
    && AlphanumericFrom(s, 2)
  }

  predicate IsRegistrationChar(c: char) {
    IsAsciiUpper(c) || IsDigit(c) || c == '-' || c == '_' || c == '/'
  }

  /** Every character of s[k..] is in the class `[A-Z0-9\-_\/]`. */
  predicate RegistrationCharsFrom(s: string, k: nat)
    requires k <= |s|
    decreases |s| - k
  {
    k == |s| || (IsRegistrationChar(s[k]) && RegistrationCharsFrom(s, k + 1))
  }

  /** `/^[A-Z0-9\-_\/]+$/` (case-sensitive) */
  predicate MatchesRegistrationPattern(s: string) {
    |s| >= 1 && RegistrationCharsFrom(s, 0)
  }

  /** Some character of s[k..] is white space: `/\s/.test` from position k. */
  predicate WhiteSpaceFrom(s: string, k: nat)
    requires k <= |s|
    decreases |s| - k
  {
    k < |s| && (IsWhiteSpace(s[k]) || WhiteSpaceFrom(s, k + 1))
  }

  /** isValidBusinessRegistrationId: length 6 to 32, no white space, and the pattern. */
  predicate IsValidBusinessRegistrationId(value: string) {
    if |value| < 6 || |value| > 32 then false
    else if WhiteSpaceFrom(value, 0) then false
    else MatchesRegistrationPattern(value)
  }

  /** The registration-id test, stated with quantifiers: the pattern admits no white
      space, so the separate white-space test never decides the outcome. */
  lemma {:induction false} RegistrationCharsFromMeans(s: string, k: nat)
    requires k <= |s|
    ensures RegistrationCharsFrom(s, k) <==> forall i :: k <= i < |s| ==> IsRegistrationChar(s[i])
    ensures RegistrationCharsFrom(s, k) ==> !WhiteSpaceFrom(s, k)
    decreases |s| - k
  {
    if k < |s| {
      RegistrationCharsFromMeans(s, k + 1);
      if IsRegistrationChar(s[k]) {
        assert !IsWhiteSpace(s[k]);
      }
    }
  }

  lemma RegistrationValidity(value: string)
    ensures IsValidBusinessRegistrationId(value)
      <==> 6 <= |value| <= 32 && forall i :: 0 <= i < |value| ==> IsRegistrationChar(value[i])
  {
    RegistrationCharsFromMeans(value, 0);
  }

  /** The billing fields as the resolver reads them: trimmed, with the country and
      the tax id also upper-cased. */
  datatype NormalizedBilling = NormalizedBilling(
    country: string,
    streetAddress: string,
    city: string,
    postalCode: string,
    taxId: string,
    registrationId: string)

  function Normalize(company: BillingCompany): NormalizedBilling {
    NormalizedBilling(
      Upper(NormalizeString(company.country)),
      NormalizeString(company.streetAddress),
      NormalizeString(company.city),
      NormalizeString(company.postalCode),
      Upper(NormalizeString(company.taxId)),
      NormalizeString(company.companyRegistrationId))
  }

  function Classify(code: string): Derived {
    Derived(code == "NL", code != "NL" && IsEuCountry(code), !IsEuCountry(code))
  }

  /** One requirement per blank address field, in the order street, city, postal code. */
  function AddressRequirements(n: NormalizedBilling): seq<Requirement> {
    (if n.streetAddress == "" then [RequirementFor(MissingStreetAddress)] else [])
    + (if n.city == "" then [RequirementFor(MissingCity)] else [])
    + (if n.postalCode == "" then [RequirementFor(MissingPostalCode)] else [])
  }

  /** The VAT id check: missing, or not in the shape of the country's VAT ids. */
  function VatIdRequirement(taxId: string, isNl: bool): seq<Requirement> {
    if taxId == "" then [RequirementFor(MissingVatId)]
    else if !(if isNl then MatchesNlVatPattern(taxId) else MatchesEuVatPattern(taxId)) then [RequirementFor(InvalidVatIdFormat)]
    else []
  }

  /** VAT requirements for NL and the other EU members; none outside the EU. */
  function VatRequirements(n: NormalizedBilling, d: Derived): seq<Requirement> {
    if d.isNl || d.isEuNonNl then
      VatIdRequirement(n.taxId, d.isNl) + (if d.isEuNonNl then [RequirementFor(RequiresViesValidation)] else [])
    else []
  }

  /** Registration-id requirements outside the EU; none inside it. */
  function RegistrationRequirements(n: NormalizedBilling, d: Derived): seq<Requirement> {
    if d.isNonEu then
      if n.registrationId == "" then [RequirementFor(MissingBusinessRegistrationId)]
      else if !IsValidBusinessRegistrationId(n.registrationId) then [RequirementFor(InvalidBusinessRegistrationFormat)]
      else []
    else []
  }

  function RequirementsOf(n: NormalizedBilling): Resolution {
    if n.country == "" then
      Resolution([RequirementFor(MissingCountry)], false, Derived(false, false, false))
    else
      var d := Classify(n.country);
      var reqs := AddressRequirements(n) + VatRequirements(n, d) + RegistrationRequirements(n, d);
      Resolution(reqs, |reqs| == 0, d)
  }

  /** The specification of resolveSubscriptionRequirements. */
  function Resolve(company: BillingCompany): Resolution {
    RequirementsOf(Normalize(company))
  }

  lemma AppendAssociative(a: seq<Requirement>, b: seq<Requirement>, c: seq<Requirement>)
    ensures (a + b) + c == a + (b + c)
  {
  }

  lemma AppendCongruent(a: seq<Requirement>, a': seq<Requirement>, b: seq<Requirement>, b': seq<Requirement>,
                        c: seq<Requirement>, c': seq<Requirement>)
    requires a == a' && b == b' && c == c'
    ensures a + b + c == a' + b' + c'
  {
  }

  /** resolveSubscriptionRequirements: normalizes the fields, then pushes each blocking
      requirement in turn. */
  method ResolveSubscriptionRequirements(company: BillingCompany) returns (result: Resolution)
    ensures result == Resolve(company)
    ensures result.isReady <==> result.orderedRequirements == []
  {
    result := PushRequirements(Normalize(company));
  }

  /** The body of resolveSubscriptionRequirements after normalization: the conditional
      `push` calls, in the source's order. */
  method PushRequirements(n: NormalizedBilling) returns (result: Resolution)
    ensures result == RequirementsOf(n)
    ensures result.isReady <==> result.orderedRequirements == []
  {
    var ordered: seq<Requirement> := [];

    if n.country == "" {
      ordered := ordered + [RequirementFor(MissingCountry)];
      return Resolution(ordered, false, Derived(false, false, false));
    }

    var isNl := n.country == "NL";
    var isEuNonNl := n.country != "NL" && IsEuCountry(n.country);
    var isNonEu := !IsEuCountry(n.country);
    var d := Derived(isNl, isEuNonNl, isNonEu);
    assert d == Classify(n.country);

    ordered := PushAddressRequirements(ordered, n);
    ordered := PushVatRequirements(ordered, n, d);
    ordered := PushRegistrationRequirements(ordered, n, d);
    AppendAssociative(AddressRequirements(n), VatRequirements(n, d), RegistrationRequirements(n, d));

    result := Resolution(ordered, |ordered| == 0, d);
  }

  /** The street, city and postal-code pushes. */
  method PushAddressRequirements(ordered: seq<Requirement>, n: NormalizedBilling) returns (pushed: seq<Requirement>)
    ensures pushed == ordered + AddressRequirements(n)
  {
    pushed := ordered;
    if n.streetAddress == "" {
      pushed := pushed + [RequirementFor(MissingStreetAddress)];
    }
    if n.city == "" {
      pushed := pushed + [RequirementFor(MissingCity)];
    }
    if n.postalCode == "" {
      pushed := pushed + [RequirementFor(MissingPostalCode)];
    }
    var x := if n.streetAddress == "" then [RequirementFor(MissingStreetAddress)] else [];
    var y := if n.city == "" then [RequirementFor(MissingCity)] else [];
    var z := if n.postalCode == "" then [RequirementFor(MissingPostalCode)] else [];
    assert pushed == ordered + x + y + z;
    assert AddressRequirements(n) == x + y + z;
  }

  /** The VAT pushes inside the EU. */
  method PushVatRequirements(ordered: seq<Requirement>, n: NormalizedBilling, d: Derived) returns (pushed: seq<Requirement>)
    ensures pushed == ordered + VatRequirements(n, d)
  {
    pushed := ordered;
    if d.isNl || d.isEuNonNl {
      if n.taxId == "" {
        pushed := pushed + [RequirementFor(MissingVatId)];
      } else {
        var vatFormatIsValid := if d.isNl then MatchesNlVatPattern(n.taxId) else MatchesEuVatPattern(n.taxId);
        if !vatFormatIsValid {
          pushed := pushed + [RequirementFor(InvalidVatIdFormat)];
        }
      }
      assert pushed == ordered + VatIdRequirement(n.taxId, d.isNl);
      if d.isEuNonNl {
        AppendAssociative(ordered, VatIdRequirement(n.taxId, d.isNl), [RequirementFor(RequiresViesValidation)]);
        pushed := pushed + [RequirementFor(RequiresViesValidation)];
      }
    }
  }

  /** The registration-id pushes outside the EU. */
  method PushRegistrationRequirements(ordered: seq<Requirement>, n: NormalizedBilling, d: Derived)
    returns (pushed: seq<Requirement>)
    ensures pushed == ordered + RegistrationRequirements(n, d)
  {
    pushed := ordered;
    if d.isNonEu {
      if n.registrationId == "" {
        pushed := pushed + [RequirementFor(MissingBusinessRegistrationId)];
      } else if !IsValidBusinessRegistrationId(n.registrationId) {
        pushed := pushed + [RequirementFor(InvalidBusinessRegistrationFormat)];
      }
    }
  }

  // ---------------------------------------------------------------------------
  // Properties of the specification
  // ---------------------------------------------------------------------------

  predicate BlankField(value: Option<string>) {
    value.None? || IsBlank(value.value)
  }

  lemma NormalizeBlank(value: Option<string>)
    ensures NormalizeString(value) == "" <==> BlankField(value)
    ensures |Upper(NormalizeString(value))| == |NormalizeString(value)|
  {
  }

  /** A blank or missing country yields exactly the COUNTRY requirement, whatever else is set. */
  lemma MissingCountryBlocksAlone(company: BillingCompany)
    requires BlankField(company.country)
    ensures Resolve(company).orderedRequirements == [RequirementFor(MissingCountry)]
    ensures !Resolve(company).isReady
    ensures Resolve(company).derived == Derived(false, false, false)
  {
    NormalizeBlank(company.country);
  }

  /** With a country set, exactly one of the three classification flags holds. */
  lemma ExactlyOneRegion(company: BillingCompany)
    requires !BlankField(company.country)
    ensures var d := Resolve(company).derived;
      (if d.isNl then 1 else 0) + (if d.isEuNonNl then 1 else 0) + (if d.isNonEu then 1 else 0) == 1
  {
    NormalizeBlank(company.country);
  }

  function KeyRank(k: RequirementKey): nat {
    match k
    case CountryKey => 0
    case StreetAddressKey => 1
    case CityKey => 2
    case PostalCodeKey => 3
    case VatIdKey => 4
    case ViesValidationKey => 5
    case BusinessRegistrationIdKey => 6
  }

  /** Keys appear in strictly increasing rank: in particular no key appears twice. */
  predicate StrictlyOrdered(reqs: seq<Requirement>) {
    forall i, j :: 0 <= i < j < |reqs| ==> KeyRank(reqs[i].key) < KeyRank(reqs[j].key)
  }

  predicate RanksWithin(reqs: seq<Requirement>, lo: nat, hi: nat) {
    forall i :: 0 <= i < |reqs| ==> lo <= KeyRank(reqs[i].key) <= hi
  }

  /** Two ordered runs whose rank ranges do not overlap concatenate into an ordered run. */
  lemma OrderedConcat(x: seq<Requirement>, y: seq<Requirement>, lo: nat, mid: nat, hi: nat)
    requires lo <= mid < hi
    requires StrictlyOrdered(x) && RanksWithin(x, lo, mid)
    requires StrictlyOrdered(y) && RanksWithin(y, mid + 1, hi)
    ensures StrictlyOrdered(x + y) && RanksWithin(x + y, lo, hi)
  {
    var xy := x + y;
    forall i, j | 0 <= i < j < |xy| ensures KeyRank(xy[i].key) < KeyRank(xy[j].key) {
      if j < |x| {
        assert xy[i] == x[i] && xy[j] == x[j];
      } else if i < |x| {
        assert xy[i] == x[i] && xy[j] == y[j - |x|];
      } else {
        assert xy[i] == y[i - |x|] && xy[j] == y[j - |x|];
      }
    }
    forall i | 0 <= i < |xy| ensures lo <= KeyRank(xy[i].key) <= hi {
      if i < |x| { assert xy[i] == x[i]; } else { assert xy[i] == y[i - |x|]; }
    }
  }

  /** The address requirements come in the order street, city, postal code. */
  lemma AddressRequirementsShape(n: NormalizedBilling)
    ensures StrictlyOrdered(AddressRequirements(n)) && RanksWithin(AddressRequirements(n), 1, 3)
  {
    var x := if n.streetAddress == "" then [RequirementFor(MissingStreetAddress)] else [];
    var y := if n.city == "" then [RequirementFor(MissingCity)] else [];
    var z := if n.postalCode == "" then [RequirementFor(MissingPostalCode)] else [];
    AtMostOne(n.streetAddress == "", RequirementFor(MissingStreetAddress), 1);
    AtMostOne(n.city == "", RequirementFor(MissingCity), 2);
    AtMostOne(n.postalCode == "", RequirementFor(MissingPostalCode), 3);
    OrderedConcat(x, y, 1, 1, 2);
    OrderedConcat(x + y, z, 1, 2, 3);
    assert AddressRequirements(n) == x + y + z;
  }

  /** A run of at most one requirement is ordered, within its own rank. */
  lemma AtMostOne(present: bool, r: Requirement, rank: nat)
    requires KeyRank(r.key) == rank
    ensures var s := if present then [r] else [];
      StrictlyOrdered(s) && RanksWithin(s, rank, rank)
  {
  }

  /** Street, city and postal code are each reported exactly when blank. */
  lemma AddressRequirementsReportBlanks(n: NormalizedBilling)
    ensures var a := AddressRequirements(n);
      && (RequirementFor(MissingStreetAddress) in a <==> n.streetAddress == "")
      && (RequirementFor(MissingCity) in a <==> n.city == "")
      && (RequirementFor(MissingPostalCode) in a <==> n.postalCode == "")
  {
    var x := if n.streetAddress == "" then [RequirementFor(MissingStreetAddress)] else [];
    var y := if n.city == "" then [RequirementFor(MissingCity)] else [];
    var z := if n.postalCode == "" then [RequirementFor(MissingPostalCode)] else [];
    var a := x + y + z;
    forall i | 0 <= i < |a|
      ensures a[i] == RequirementFor(MissingStreetAddress) ==> n.streetAddress == ""
      ensures a[i] == RequirementFor(MissingCity) ==> n.city == ""
      ensures a[i] == RequirementFor(MissingPostalCode) ==> n.postalCode == ""
    {
      if i < |x| {
        assert a[i] == x[i];
      } else if i < |x| + |y| {
        assert a[i] == y[i - |x|];
      } else {
        assert a[i] == z[i - |x| - |y|];
      }
    }
    if n.streetAddress == "" { assert a[0] == RequirementFor(MissingStreetAddress); }
    if n.city == "" { assert a[|x|] == RequirementFor(MissingCity); }
    if n.postalCode == "" { assert a[|x| + |y|] == RequirementFor(MissingPostalCode); }
  }

  lemma VatRequirementsShape(n: NormalizedBilling, d: Derived)
    ensures StrictlyOrdered(VatRequirements(n, d)) && RanksWithin(VatRequirements(n, d), 4, 5)
  {
    if d.isNl || d.isEuNonNl {
      OrderedConcat(VatIdRequirement(n.taxId, d.isNl), if d.isEuNonNl then [RequirementFor(RequiresViesValidation)] else [], 4, 4, 5);
    }
  }

  /** The requirements never repeat a key and come in the order country, street, city,
      postal code, VAT id, VIES validation, registration id; ready means nothing blocks. */
  lemma RequirementsAreOrdered(n: NormalizedBilling)
    ensures StrictlyOrdered(RequirementsOf(n).orderedRequirements)
    ensures RequirementsOf(n).isReady <==> RequirementsOf(n).orderedRequirements == []
  {
    if n.country != "" {
      var d := Classify(n.country);
      AddressRequirementsShape(n);
      VatRequirementsShape(n, d);
      var a := AddressRequirements(n);
      var v := VatRequirements(n, d);
      var g := RegistrationRequirements(n, d);
      assert StrictlyOrdered(g) && RanksWithin(g, 6, 6);
      OrderedConcat(a, v, 1, 3, 5);
      OrderedConcat(a + v, g, 1, 5, 6);
    }
  }

  /** The address requirements come first and are followed only by tax and registration ones. */
  lemma AddressRequirementsComeFirst(n: NormalizedBilling)
    requires n.country != ""
    ensures var reqs := RequirementsOf(n).orderedRequirements;
      var a := AddressRequirements(n);
      && |a| <= |reqs| && reqs[..|a|] == a
      && (forall i :: |a| <= i < |reqs| ==> KeyRank(reqs[i].key) >= 4)
  {
    var d := Classify(n.country);
    var a := AddressRequirements(n);
    var rest := VatRequirements(n, d) + RegistrationRequirements(n, d);
    VatRequirementsShape(n, d);
    OrderedConcat(VatRequirements(n, d), RegistrationRequirements(n, d), 4, 5, 6);
    var reqs := RequirementsOf(n).orderedRequirements;
    assert reqs == a + rest;
    forall i | |a| <= i < |reqs| ensures KeyRank(reqs[i].key) >= 4 {
      assert reqs[i] == rest[i - |a|];
    }
  }

  /** Dutch companies: the VAT id must be NL, nine digits, B, two digits; the
      registration id is not required. */
  lemma NetherlandsVatRule(n: NormalizedBilling)
    requires n.country == "NL"
    ensures RequirementsOf(n).orderedRequirements == AddressRequirements(n) +
        (if n.taxId == "" then [RequirementFor(MissingVatId)]
         else if !MatchesNlVatPattern(n.taxId) then [RequirementFor(InvalidVatIdFormat)]
         else [])
    ensures RequirementsOf(n).derived == Derived(true, false, false)
  {
    EuCountryExamples();
  }

  /** Other EU members: the VAT id is checked against the generic EU shape and a VIES
      validation requirement is always appended, so such a company is never ready. */
  lemma EuNonNlNeverReady(n: NormalizedBilling)
    requires n.country != "NL" && IsEuCountry(n.country)
    ensures RequirementsOf(n).orderedRequirements == AddressRequirements(n) +
        (if n.taxId == "" then [RequirementFor(MissingVatId)]
         else if !MatchesEuVatPattern(n.taxId) then [RequirementFor(InvalidVatIdFormat)]
         else [])
        + [RequirementFor(RequiresViesValidation)]
    ensures !RequirementsOf(n).isReady
  {
  }

  /** Outside the EU: a registration id of 6 to 32 characters from A-Z, 0-9, '-', '_', '/'. */
  lemma NonEuRegistrationRule(n: NormalizedBilling)
    requires n.country != "" && !IsEuCountry(n.country)
    ensures var id := n.registrationId;
      RequirementsOf(n).orderedRequirements == AddressRequirements(n) +
        (if id == "" then [RequirementFor(MissingBusinessRegistrationId)]
         else if !(6 <= |id| <= 32 && forall i :: 0 <= i < |id| ==> IsRegistrationChar(id[i]))
         then [RequirementFor(InvalidBusinessRegistrationFormat)]
         else [])
  {
    RegistrationValidity(n.registrationId);
  }

  /** tax_id is never examined outside the EU. */
  lemma TaxIdIgnoredOutsideEu(n: NormalizedBilling, otherTaxId: string)
    requires n.country != "" && !IsEuCountry(n.country)
    ensures RequirementsOf(n.(taxId := otherTaxId)) == RequirementsOf(n)
  {
  }

  /** The registration id is never examined for EU countries. */
  lemma RegistrationIgnoredInEu(n: NormalizedBilling, otherId: string)
    requires IsEuCountry(n.country)
    ensures RequirementsOf(n.(registrationId := otherId)) == RequirementsOf(n)
  {
  }

  // ---------------------------------------------------------------------------
  // The cases of the repository's own test suite (tests/e2e/subscription-requirements.spec.ts)
  // ---------------------------------------------------------------------------

  lemma NlValidVatIsReady()
    ensures RequirementsOf(NormalizedBilling("NL", "Keizersgracht 1", "Amsterdam", "1015CJ", "NL123456789B01", "")).isReady
  {
    EuCountryExamples();
    assert MatchesNlVatPattern("NL123456789B01");
  }

  lemma NlMalformedVatIsInvalid()
    ensures RequirementsOf(NormalizedBilling("NL", "Keizersgracht 1", "Amsterdam", "1015CJ", "NL12345", "")).orderedRequirements
      == [RequirementFor(InvalidVatIdFormat)]
  {
    EuCountryExamples();
  }

  /** The suite expects a DE company with a well-formed VAT id to be ready; the code
      always appends the VIES requirement, so it is not. */
  lemma GermanValidVatIsNotReady()
    ensures RequirementsOf(NormalizedBilling("DE", "Hauptstrasse 1", "Berlin", "10115", "DE123456789", "")).orderedRequirements
      == [RequirementFor(RequiresViesValidation)]
  {
    EuCountryExamples();
    assert MatchesEuVatPattern("DE123456789");
  }

  lemma UsRegistrationWithSpaceIsInvalid()
    ensures RequirementsOf(NormalizedBilling("US", "1 Main St", "Austin", "78701", "", "US 123")).orderedRequirements
      == [RequirementFor(InvalidBusinessRegistrationFormat)]
  {
    EuCountryExamples();
    assert !IsRegistrationChar("US 123"[2]);
  }

  lemma UsValidRegistrationIsReady()
    ensures RequirementsOf(NormalizedBilling("US", "1 Main St", "Austin", "78701", "", "US-123_45/6")).isReady
  {
    EuCountryExamples();
    assert RegistrationCharsFrom("US-123_45/6", 0);
    RegistrationCharsFromMeans("US-123_45/6", 0);
  }
}
