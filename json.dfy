/** The parsed JSON values the offline scripts inspect, and the JavaScript
    readings of them the scripts rely on: property access, truthiness,
    `Array.isArray` and string interpolation. Numbers are integers. */
module JsonValues {
  import opened Wrappers
  import opened Text

  datatype Json =
    | JNull
    | JBool(b: bool)
    | JNum(n: int)
    | JStr(s: string)
    | JArr(items: seq<Json>)
    | JObj(fields: map<string, Json>)

  /** `value[key]`: a member of an object, `undefined` (None) otherwise. */
  function Field(j: Json, key: string): (v: Option<Json>)
    ensures v.Some? <==> j.JObj? && key in j.fields
    ensures v.Some? ==> v.value == j.fields[key]
  {
    if j.JObj? && key in j.fields then Some(j.fields[key]) else None
  }

  /** JavaScript truthiness of a possibly undefined value. */
  predicate Truthy(v: Option<Json>) {
    match v
    case None => false
    case Some(JNull) => false
    case Some(JBool(b)) => b
    case Some(JNum(n)) => n != 0
    case Some(JStr(s)) => s != ""
    case Some(_) => true
  }

  /** The value of a field, or `fallback` when it is falsy (`a || b`). */
  function OrElse(v: Option<Json>, fallback: Json): (r: Json)
    ensures Truthy(v) ==> r == v.value
    ensures !Truthy(v) ==> r == fallback
  {
    if Truthy(v) then v.value else fallback
  }

  /** `Array.isArray(value)`. */
  predicate IsArray(v: Option<Json>) {
    v.Some? && v.value.JArr?
  }

  /** The elements of an array, none for anything else. */
  function Elements(v: Option<Json>): (xs: seq<Json>)
    ensures !IsArray(v) ==> xs == []
    ensures IsArray(v) ==> xs == v.value.items
  {
    if IsArray(v) then v.value.items else []
  }

  /** `${value}` (and `value.toString()`) for a defined value: an array is
      its elements' texts joined by commas, a null element giving "". */
  function JsText(j: Json): (s: string)
    ensures j.JStr? ==> s == j.s
    ensures j.JNum? ==> s == IntToString(j.n)
    ensures j.JArr? && |j.items| == 1 ==> s == if j.items[0].JNull? then "" else JsText(j.items[0])
  {
    match j
    case JNull => "null"
    case JBool(b) => if b then "true" else "false"
    case JNum(n) => IntToString(n)
    case JStr(s) => s
    case JArr(xs) =>
      Join(seq(|xs|, i requires 0 <= i < |xs| => if xs[i].JNull? then "" else JsText(xs[i])), ",")
    case JObj(_) => "[object Object]"
  }

  /** An array of numbers prints as their decimal forms separated by
      commas, so splitting the text on commas gives them back. */
  lemma NumberArrayText(xs: seq<Json>)
    requires |xs| >= 1
    requires forall i :: 0 <= i < |xs| ==> xs[i].JNum?
    ensures Split(JsText(JArr(xs)), ',') == seq(|xs|, i requires 0 <= i < |xs| => IntToString(xs[i].n))
  {
    var parts := seq(|xs|, i requires 0 <= i < |xs| => IntToString(xs[i].n));
    forall i | 0 <= i < |xs| {
      IntToStringNoComma(xs[i].n);
    }
    assert seq(|xs|, i requires 0 <= i < |xs| => if xs[i].JNull? then "" else JsText(xs[i])) == parts;
    SplitJoin(parts, ',');
  }

  /** `${value}` for a possibly undefined value. */
  function FieldText(v: Option<Json>): (s: string)
    ensures v.None? ==> s == "undefined"
    ensures v.Some? ==> s == JsText(v.value)
  {
    if v.None? then "undefined" else JsText(v.value)
  }

  /** JavaScript's `ToNumber`, as `<=` applies it to a value that may be
      undefined: a number is itself, a boolean 1 or 0, null 0, a string or
      an array is read from its text; undefined and an object are NaN
      (None). */
  function ToNumber(v: Option<Json>): (n: Option<int>)
    ensures v.Some? && v.value.JNum? ==> n == Some(v.value.n)
    ensures v.Some? && v.value.JStr? ==> n == StringToNumber(v.value.s)
    ensures v.Some? && v.value.JArr? ==> n == StringToNumber(JsText(v.value))
    ensures v.None? || v.value.JObj? ==> n.None?
    ensures v == Some(JNull) ==> n == Some(0)
  {
    match v
    case None => None
    case Some(JNum(k)) => Some(k)
    case Some(JBool(b)) => Some(if b then 1 else 0)
    case Some(JNull) => Some(0)
    case Some(JStr(t)) => StringToNumber(t)
    case Some(JArr(_)) => StringToNumber(JsText(v.value))
    case Some(JObj(_)) => None
  }

  /** A one-element array compares as its element, booleans aside (`[true]`
      reads as the text "true", which is NaN). */
  lemma ToNumberSingleton(x: Json)
    requires !x.JBool?
    ensures ToNumber(Some(JArr([x]))) == ToNumber(Some(x))
  {
    assert JsText(JArr([x])) == if x.JNull? then "" else JsText(x);
    match x
    case JNum(k) => StringToNumberOfInt(k);
    case JNull => BlankReadsZero();
    case JObj(_) => ObjectTextIsNaN();
    case _ =>
  }

  lemma BlankReadsZero()
    ensures StringToNumber("") == Some(0)
  {
    assert TrimEnd(TrimStart("")) == "";
  }

  lemma ObjectTextIsNaN()
    ensures StringToNumber("[object Object]") == None
  {
    var t := "[object Object]";
    assert t[0] == '[' && t[|t| - 1] == ']';
    assert !IsJsSpace(t[0]) && !IsJsSpace(t[|t| - 1]);
    assert TrimStart(t) == t;
    assert TrimEnd(t) == t;
    assert !IsDigit(t[0]);
  }

  /** `Object.keys(value).length`. */
  function KeyCount(j: Json): (n: nat)
    ensures j.JObj? ==> n == |j.fields|
    ensures j.JArr? ==> n == |j.items|
  {
    match j
    case JObj(m) => |m|
    case JArr(xs) => |xs|
    case JStr(s) => |s|
    case _ => 0
  }
}
