/** Invoice documents and knowledge-base entries as the services receive them:
    decoded JSON, with Python's dictionary access (`d.get(key, default)`) and
    conversions (`float(x)`, `str`, truthiness). */
module Json {
  import opened Wrappers
  import opened Text

  /** A decoded JSON value.  Objects keep their keys in insertion order, as Python
      dictionaries do. */
  datatype Json =
    | JNull
    | JBool(b: bool)
    | JNum(x: real)
    | JStr(s: string)
    | JArr(items: seq<Json>)
    | JObj(fields: seq<(string, Json)>)

  /** The value stored under `key` in an object's fields (keys are unique, so the first is the only one). */
  function Lookup(fields: seq<(string, Json)>, key: string): Option<Json> {
    if fields == [] then None
    else if fields[0].0 == key then Some(fields[0].1)
    else Lookup(fields[1..], key)
  }

  /** A key is found exactly when some field has it, and then the value is that of the
      first such field. */
  lemma {:induction false} LookupFinds(fields: seq<(string, Json)>, key: string)
    ensures Lookup(fields, key).Some? <==> exists i :: 0 <= i < |fields| && fields[i].0 == key
    ensures Lookup(fields, key).Some? ==>
              exists i :: 0 <= i < |fields| && fields[i] == (key, Lookup(fields, key).value) &&
                          forall j :: 0 <= j < i ==> fields[j].0 != key
  {
    if fields != [] && fields[0].0 != key {
      var r := Lookup(fields[1..], key);
      LookupFinds(fields[1..], key);
      assert forall i :: 1 <= i < |fields| ==> fields[i] == fields[1..][i - 1];
      if r.Some? {
        var i :| 0 <= i < |fields[1..]| && fields[1..][i] == (key, r.value) &&
                 forall j :: 0 <= j < i ==> fields[1..][j].0 != key;
        assert fields[i + 1] == (key, r.value);
      }
    }
  }

  function Keys(fields: seq<(string, Json)>): seq<string> {
    seq(|fields|, i requires 0 <= i < |fields| => fields[i].0)
  }

  /** `j.get(key, default)`: `None` when `j` is not a dictionary (Python raises
      `AttributeError`), the stored value when the key is present, else `default`. */
  function PyGet(j: Json, key: string, default: Json): (r: Option<Json>)
    ensures r.None? <==> !j.JObj?
    ensures j.JObj? && (forall i :: 0 <= i < |j.fields| ==> j.fields[i].0 != key) ==> r == Some(default)
  {
    match j
    case JObj(fields) =>
      LookupFinds(fields, key);
      Some(Lookup(fields, key).GetOr(default))
    case _ => None
  }

  /** Lenient access: a missing key, or a node that is not a dictionary, reads as null,
      which every conversion below turns into the default the invoice code passes. */
  function Field(j: Json, key: string): (r: Json)
    ensures !j.JObj? ==> r == JNull
    ensures j.JObj? ==> r == PyGet(j, key, JNull).value
  {
    PyGet(j, key, JNull).GetOr(JNull)
  }

  /** Lenient access along a path of keys. */
  function Path(j: Json, keys: seq<string>): Json
    decreases |keys|
  {
    if keys == [] then j else Path(Field(j, keys[0]), keys[1..])
  }

  /** Python's truthiness of a JSON value. */
  predicate Truthy(j: Json) {
    match j
    case JNull => false
    case JBool(b) => b
    case JNum(x) => x != 0.0
    case JStr(s) => s != []
    case JArr(items) => items != []
    case JObj(fields) => fields != []
  }

  /** `float(j)` for numbers, booleans and numeric text; anything else reads as 0. */
  function AsReal(j: Json): real {
    match j
    case JNum(x) => x
    case JBool(b) => if b then 1.0 else 0.0
    case JStr(s) => ParseDecimal(Strip(s)).GetOr(0.0)
    case _ => 0.0
  }

  /** A text field; anything that is not text reads as "". */
  function AsString(j: Json): string {
    if j.JStr? then j.s else []
  }

  /** A list field; anything that is not a list reads as []. */
  function AsList(j: Json): seq<Json> {
    if j.JArr? then j.items else []
  }

  /** The number stored under `key`, as `float(d.get(key, 0))` reads it. */
  function NumberAt(j: Json, key: string): (r: real)
    ensures Field(j, key) == JNull ==> r == 0.0
    ensures Field(j, key).JNum? ==> r == Field(j, key).x
  {
    AsReal(Field(j, key))
  }

  /** The text stored under `key`, as `d.get(key, "")` reads it. */
  function TextAt(j: Json, key: string): (r: string)
    ensures Field(j, key) == JNull ==> r == []
    ensures Field(j, key).JStr? ==> r == Field(j, key).s
  {
    AsString(Field(j, key))
  }

  /** Text holding a whole number in decimal reads back as that number. */
  lemma NumberTextRoundTrip(n: nat)
    ensures AsReal(JStr(NatToString(n))) == n as real
  {
    DigitTextValue(NatToString(n));
    NatToStringRoundTrip(n);
  }

  /** Text made of decimal digits only reads as the number they spell. */
  lemma DigitTextValue(s: string)
    requires s != [] && forall i :: 0 <= i < |s| ==> IsDigit(s[i])
    ensures AsReal(JStr(s)) == DigitsValue(s) as real
  {
    StripDigits(s);
    ParseDigits(s);
  }

  lemma ParseDigits(s: string)
    requires s != [] && forall i :: 0 <= i < |s| ==> IsDigit(s[i])
    ensures ParseDecimal(s) == Some(DigitsValue(s) as real)
  {
    DigitRunAll(s);
    assert s[..|s|] == s;
    assert IsDigit(s[0]);
  }

  lemma {:induction false} DigitRunAll(s: string)
    requires forall i :: 0 <= i < |s| ==> IsDigit(s[i])
    ensures DigitRun(s) == |s|
  {
    if s != [] {
      DigitRunAll(s[1..]);
    }
  }

  lemma StripDigits(s: string)
    requires forall i :: 0 <= i < |s| ==> IsDigit(s[i])
    ensures Strip(s) == s
  {
    if s != [] {
      assert IsDigit(s[0]) && IsDigit(s[|s| - 1]);
      assert !IsSpace(s[0]) && !IsSpace(s[|s| - 1]);
    }
  }
}
