/**
 * JSON values as the sources see them after parsing (provider metadata, the plan
 * `features` column), with JavaScript's truthiness and `String(value)` conversion.
 * Numbers are integers in this model.
 */
module JsonValue {
  import opened Wrappers
  import opened Text

  datatype Json =
    | JNull
    | JBool(b: bool)
    | JNumber(n: int)
    | JString(s: string)
    | JArray(items: seq<Json>)
    | JObject(entries: seq<(string, Json)>)

  /** `obj.key` for a parsed value: the first entry with that key of an object, and
      `undefined` (None) for every other kind of value. */
  function Field(j: Json, key: string): (r: Option<Json>)
    ensures r.Some? ==> j.JObject? && exists i :: 0 <= i < |j.entries| && j.entries[i] == (key, r.value)
    ensures j.JObject? && (exists i :: 0 <= i < |j.entries| && j.entries[i].0 == key) ==> r.Some?
  {
    match j
    case JObject(entries) => EntryValue(entries, key)
    case _ => None
  }

  function EntryValue(entries: seq<(string, Json)>, key: string): (r: Option<Json>)
    ensures r.Some? ==> exists i :: 0 <= i < |entries| && entries[i] == (key, r.value)
    ensures (exists i :: 0 <= i < |entries| && entries[i].0 == key) ==> r.Some?
  {
    if entries == [] then None
    else if entries[0].0 == key then Some(entries[0].1)
    else
      var r := EntryValue(entries[1..], key);
      assert r.Some? ==> exists i :: 0 <= i < |entries| && entries[i] == (key, r.value) by {
        if r.Some? {
          var i :| 0 <= i < |entries[1..]| && entries[1..][i] == (key, r.value);
          assert entries[i + 1] == (key, r.value);
        }
      }
      assert (exists i :: 0 <= i < |entries| && entries[i].0 == key) ==> r.Some? by {
        if exists i :: 0 <= i < |entries| && entries[i].0 == key {
          var i :| 0 <= i < |entries| && entries[i].0 == key;
          assert entries[1..][i - 1].0 == key;
        }
      }
      r
  }

  /** `!value`: the falsy JSON values are null, false, 0 and "". */
  predicate Falsy(j: Json) {
    j == JNull || j == JBool(false) || j == JNumber(0) || j == JString("")
  }

  /** `String(value)`: arrays are joined with "," (null elements become empty),
      objects print as "[object Object]". */
  function ToJsString(j: Json): string
    decreases j, 1
  {
    match j
    case JNull => "null"
    case JBool(b) => if b then "true" else "false"
    case JNumber(n) => IntToDecimal(n)
    case JString(s) => s
    case JArray(items) => JoinElements(j, items)
    case JObject(_) => "[object Object]"
  }

  /** `Array.prototype.join(",")` over the elements of `whole`, which holds `items`. */
  function JoinElements(ghost whole: Json, items: seq<Json>): string
    requires forall x :: x in items ==> x < whole
    decreases whole, 0, |items|
  {
    if items == [] then ""
    else
      assert items[0] in items;
      assert forall x :: x in items[1..] ==> x in items;
      var head := if items[0] == JNull then "" else ToJsString(items[0]);
      if |items| == 1 then head else head + "," + JoinElements(whole, items[1..])
  }

  lemma JsStringExamples()
    ensures ToJsString(JArray([JNumber(1), JNull, JString("a")])) == "1,,a"
    ensures ToJsString(JBool(true)) == "true"
    ensures ToJsString(JNumber(-12)) == "-12"
  {
    var items := [JNumber(1), JNull, JString("a")];
    assert items[1..] == [JNull, JString("a")];
    assert items[1..][1..] == [JString("a")];
    assert NatToDecimal(12) == NatToDecimal(1) + [DigitChar(2)];
  }
}
