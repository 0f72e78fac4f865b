/**
 * JSON values as the modelled code sees them after `JSON.parse`, with the
 * JavaScript coercions it applies to them: truthiness (`||`, `if (x)`),
 * property access, `String(v)` and the numeric conversion of `v * 1000`.
 * Numbers are integers here.
 */
module Json {
  import opened Wrappers
  import opened Text

  datatype Json =
    | JNull
    | JBool(b: bool)
    | JNum(n: int)
    | JStr(s: string)
    | JArr(items: seq<Json>)
    | JObj(fields: map<string, Json>)

  /** A JavaScript number: an integer or NaN. */
  datatype Number = Finite(n: int) | NaN

  /** Truthiness of a value that may be `undefined` (`None`). */
  predicate Truthy(v: Option<Json>) {
    match v
    case None => false
    case Some(JNull) => false
    case Some(JBool(b)) => b
    case Some(JNum(n)) => n != 0
    case Some(JStr(s)) => s != ""
    case Some(_) => true
  }

  /** `v.key` (or `v?.key`) on a value: defined only for an object holding that key. */
  function Prop(v: Json, key: string): (r: Option<Json>)
    ensures r.Some? <==> v.JObj? && key in v.fields
    ensures r.Some? ==> r.value == v.fields[key]
  {
    if v.JObj? && key in v.fields then Some(v.fields[key]) else None
  }

  /** `a || b`: the first operand when it is truthy, the second otherwise. */
  function Or(a: Option<Json>, b: Option<Json>): (r: Option<Json>)
    ensures Truthy(a) ==> r == a
    ensures !Truthy(a) ==> r == b
    ensures Truthy(r) <==> Truthy(a) || Truthy(b)
  {
    if Truthy(a) then a else b
  }

  /** `String(v)`: arrays join their elements with ',' (null as ''), objects print as `[object Object]`. */
  function JsString(v: Json): string
    decreases v
  {
    match v
    case JNull => "null"
    case JBool(b) => if b then "true" else "false"
    case JNum(n) => IntToString(n)
    case JStr(s) => s
    case JArr(items) =>
      Join(seq(|items|, i requires 0 <= i < |items| =>
        if items[i].JNull? then "" else JsString(items[i])), ',')
    case JObj(_) => "[object Object]"
  }

  /** A truthy value other than an array never renders as the empty string under `String(v)`. */
  lemma TruthyNonArrayRendersNonEmpty(v: Json)
    requires Truthy(Some(v)) && !v.JArr?
    ensures JsString(v) != ""
  {
  }

  /** Arrays are the exception: `[]` is truthy, yet `String([])` is the empty string. */
  lemma EmptyArrayIsTruthyButRendersEmpty()
    ensures Truthy(Some(JArr([]))) && JsString(JArr([])) == ""
  {
  }

  /** Numeric conversion of a string: surrounding whitespace is ignored, "" is 0, decimal digits are read. */
  function StringToNumber(s: string): Number {
    var t := Trim(s);
    if t == "" then Finite(0)
    else if forall i :: 0 <= i < |t| ==> IsAsciiDigit(t[i]) then Finite(DigitsValue(t))
    else NaN
  }

  /** `ToNumber(v)`, as applied by `v * 1000`. */
  function ToNumber(v: Json): Number {
    match v
    case JNull => Finite(0)
    case JBool(b) => Finite(if b then 1 else 0)
    case JNum(n) => Finite(n)
    case JStr(s) => StringToNumber(s)
    case JArr(_) => StringToNumber(JsString(v))
    case JObj(_) => NaN
  }

  /** A number survives the round trip through its decimal text. */
  lemma {:induction false} StringToNumberOfRendering(n: nat)
    ensures StringToNumber(NatToString(n)) == Finite(n)
  {
    var s := NatToString(n);
    assert Trim(s) == s by {
      assert !IsWhitespace(s[0]);
      assert TrimStart(s) == s;
      assert !IsWhitespace(s[|s| - 1]);
    }
    DigitsValueOfNatToString(n);
  }
}
