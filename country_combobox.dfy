/**
 * The country picker (components/settings/country-combobox.tsx): the countries whose
 * name contains the search text, ignoring case, and the country the current code
 * names. The country list is a parameter.
 */
module CountryCombobox {
  import opened Wrappers
  import opened Text

  datatype Country = Country(code: string, name: string)

  /** `country.name.toLowerCase().includes(searchValue.toLowerCase())` */
  predicate Matches(country: Country, search: string) {
    Contains(Lower(country.name), Lower(search))
  }

  /** The filtered list, in the list's order. */
  function FilterCountries(countries: seq<Country>, search: string): (r: seq<Country>)
    ensures |r| <= |countries|
  {
    if countries == [] then []
    else (if Matches(countries[0], search) then [countries[0]] else []) + FilterCountries(countries[1..], search)
  }

  /** The filtered list holds exactly the matching countries. */
  lemma {:induction false} FilterMembers(countries: seq<Country>, search: string)
    ensures forall c :: c in FilterCountries(countries, search) <==> c in countries && Matches(c, search)
    decreases |countries|
  {
    if countries != [] {
      FilterMembers(countries[1..], search);
      assert forall c :: c in countries <==> c == countries[0] || c in countries[1..];
    }
  }

  /** Filtering keeps the order: it distributes over concatenation. */
  lemma {:induction false} FilterConcat(a: seq<Country>, b: seq<Country>, search: string)
    ensures FilterCountries(a + b, search) == FilterCountries(a, search) + FilterCountries(b, search)
    decreases |a|
  {
    if a == [] {
      assert a + b == b;
    } else {
      FilterConcat(a[1..], b, search);
      var head := if Matches(a[0], search) then [a[0]] else [];
      assert (a + b)[0] == a[0];
      assert (a + b)[1..] == a[1..] + b;
      assert FilterCountries(a + b, search) == head + FilterCountries(a[1..] + b, search);
      assert FilterCountries(a, search) == head + FilterCountries(a[1..], search);
    }
  }

  /** An empty search lists every country. */
  lemma {:induction false} EmptySearchListsAll(countries: seq<Country>)
    ensures FilterCountries(countries, "") == countries
    decreases |countries|
  {
    if countries != [] {
      assert Matches(countries[0], "");
      EmptySearchListsAll(countries[1..]);
      assert [countries[0]] + countries[1..] == countries;
    }
  }

  /** Searching again with the same text changes nothing. */
  lemma {:induction false} FilterIdempotent(countries: seq<Country>, search: string)
    ensures FilterCountries(FilterCountries(countries, search), search) == FilterCountries(countries, search)
    decreases |countries|
  {
    if countries != [] {
      var rest := FilterCountries(countries[1..], search);
      FilterIdempotent(countries[1..], search);
      if Matches(countries[0], search) {
        var once := [countries[0]] + rest;
        assert once[0] == countries[0] && once[1..] == rest;
        assert FilterCountries(countries, search) == once;
        assert FilterCountries(once, search) == [countries[0]] + FilterCountries(rest, search);
      } else {
        assert FilterCountries(countries, search) == rest;
      }
    }
  }

  /** `COUNTRIES.find((c) => c.code === value)`: the first country with that code. */
  function FindByCode(countries: seq<Country>, code: string): (r: Option<Country>)
    ensures r.None? <==> forall i :: 0 <= i < |countries| ==> countries[i].code != code
    ensures r.Some? ==>
      exists i :: 0 <= i < |countries| && countries[i] == r.value && r.value.code == code && forall j :: 0 <= j < i ==> countries[j].code != code
  {
    if countries == [] then None
    else if countries[0].code == code then Some(countries[0])
    else
      var r := FindByCode(countries[1..], code);
      assert r.Some? ==>
        exists i :: 0 <= i < |countries| && countries[i] == r.value && r.value.code == code && forall j :: 0 <= j < i ==> countries[j].code != code
      by {
        if r.Some? {
          var i :| 0 <= i < |countries[1..]| && countries[1..][i] == r.value && r.value.code == code &&
            forall j :: 0 <= j < i ==> countries[1..][j].code != code;
          assert countries[i + 1] == r.value;
          assert forall j :: 1 <= j < i + 1 ==> countries[j].code != code by {
            forall j | 1 <= j < i + 1 ensures countries[j].code != code {
              assert countries[j] == countries[1..][j - 1];
            }
          }
        }
      }
      r
  }

  /** The input's placeholder: the selected country's name, or a prompt. */
  function Placeholder(countries: seq<Country>, value: string): string {
    match FindByCode(countries, value)
    case Some(c) => c.name
    case None => "Select a country..."
  }

  /** A choice is passed on only when it is not empty. */
  function Forwarded(newValue: string): (r: Option<string>)
    ensures r.Some? <==> newValue != ""
    ensures r.Some? ==> r.value == newValue
  {
    if newValue != "" then Some(newValue) else None
  }

  /** The clear control shows exactly when a country is chosen. */
  predicate ShowClear(value: string) {
    value != ""
  }
}
