/** Decoded JSON values, as Python's `json` module hands them to the core,
    with the two Python conversions the core applies to them: truthiness
    (`x or ""`) and `str(x)`. */
module JsonValues {

  /** A decoded JSON value. Numbers are kept as integers. */
  datatype Json =
    | JNull
    | JBool(b: bool)
    | JNum(n: int)
    | JStr(s: string)
    | JArr(items: seq<Json>)
    | JObj(fields: map<string, Json>)

  /** A JSON object, Python's `dict[str, Any]`. */
  type Object = map<string, Json>

  /** Python truthiness: `None`, `False`, `0` and empty strings, lists and
      dicts are false, everything else is true. */
  predicate Truthy(v: Json)
  {
    match v
    case JNull => false
    case JBool(b) => b
    case JNum(n) => n != 0
    case JStr(s) => s != ""
    case JArr(items) => items != []
    case JObj(fields) => fields != map[]
  }

  /** The number a string of decimal digits denotes, most significant digit
      first; the empty string denotes 0. */
  function DigitsValue(s: string): nat
    requires forall i :: 0 <= i < |s| ==> '0' <= s[i] <= '9'
  {
    if s == [] then 0 else DigitsValue(s[..|s| - 1]) * 10 + (s[|s| - 1] - '0') as nat
  }

  /** The decimal digits of a natural number, as `str(n)` writes them:
      digits that denote `n`, with no leading zero. */
  function Digits(n: nat): (r: string)
    ensures r != []
    ensures forall i :: 0 <= i < |r| ==> '0' <= r[i] <= '9'
    ensures DigitsValue(r) == n
    ensures |r| > 1 ==> r[0] != '0'
  {
    var d := ['0' + (n % 10) as char];
    if n < 10 then d
    else
      var r := Digits(n / 10) + d;
      assert r[..|r| - 1] == Digits(n / 10);
      r
  }

  /** `str(v)`. Strings are themselves and scalars print as Python prints
      them; a list or dict is written as `[...]` or `{...}`,
      without its contents. */
  function PyStr(v: Json): string
  {
    match v
    case JNull => "None"
    case JBool(b) => if b then "True" else "False"
    case JNum(n) => if n < 0 then "-" + Digits(-n) else Digits(n)
    case JStr(s) => s
    case JArr(_) => "[...]"
    case JObj(_) => "{...}"
  }

  /** `str(obj.get(key) or "")`: a missing or falsy field reads as the empty
      string and a string field as itself. */
  function TextOrEmpty(obj: Object, key: string): (r: string)
    ensures key !in obj || !Truthy(obj[key]) ==> r == ""
    ensures key in obj && obj[key].JStr? ==> r == obj[key].s
  {
    if key in obj && Truthy(obj[key]) then PyStr(obj[key]) else ""
  }
}
