// Decoded JSON as the Python side sees it: objects are insertion-ordered
// dictionaries, so a field list keeps its order. A frame cell may also hold a
// float that round(x, 3) produced, kept exactly as a number of thousandths.
module Json {
  import opened Wrappers
  import opened Strings
  import opened OrderedMaps

  datatype Json =
    | JNull
    | JBool(b: bool)
    | JInt(n: int)
    | JFloat(milli: int)
    | JStr(s: string)
    | JArr(items: seq<Json>)
    | JObj(fields: OMap<Json>)
  {
    /** Neither a dict nor a list. */
    predicate IsLeaf() { !JArr? && !JObj? }
  }

  /** Python's str() of a decoded value. */
  function PyStr(j: Json): (r: string)
    ensures j.JStr? ==> r == j.s
    ensures j.JNull? ==> r == "None"
  {
    match j
    case JStr(s) => s
    case _ => Repr(j)
  }

  /** Python's repr() of a decoded value (strings always in single quotes). */
  function Repr(j: Json): (r: string)
    ensures r != []
    decreases j
  {
    match j
    case JNull => "None"
    case JBool(b) => if b then "True" else "False"
    case JInt(n) => IntToString(n)
    case JFloat(m) => FloatRepr(m)
    case JStr(s) => "'" + s + "'"
    case JArr(items) =>
      "[" + Join(seq(|items|, i requires 0 <= i < |items| => Repr(items[i])), ", ") + "]"
    case JObj(fields) =>
      "{" + Join(seq(|fields|, i requires 0 <= i < |fields| =>
                   "'" + fields[i].0 + "': " + Repr(fields[i].1)), ", ") + "}"
  }

  /** repr of a float with at most three decimals, given in thousandths:
      the integer part, a point and the decimals without trailing zeros. */
  function FloatRepr(milli: int): (r: string)
    ensures r != []
  {
    var m := if milli < 0 then -milli else milli;
    (if milli < 0 then "-" else "") + NatToString(m / 1000) + "." + FractionDigits(m % 1000)
  }

  function FractionDigits(f: nat): string
    requires f < 1000
  {
    var d1, d2, d3 := f / 100, f / 10 % 10, f % 10;
    if d3 != 0 then [DigitChar(d1), DigitChar(d2), DigitChar(d3)]
    else if d2 != 0 then [DigitChar(d1), DigitChar(d2)]
    else [DigitChar(d1)]
  }

  /** d[key]: fails (KeyError / TypeError) unless d is a dict holding key. */
  function Field(d: Json, key: string): (r: Result<Json>)
    ensures r.Ok? <==> d.JObj? && key in Keys(d.fields)
    ensures r.Ok? ==> Get(d.fields, key) == Some(r.value)
  {
    if d.JObj? then
      match Get(d.fields, key)
      case Some(v) => Ok(v)
      case None => Failure
    else Failure
  }

  /** d.get(key, default) on a dict; calling get on anything else fails. */
  function FieldOr(d: Json, key: string, default: Json): (r: Result<Json>)
    ensures r.Ok? <==> d.JObj?
    ensures r.Ok? && key in Keys(d.fields) ==> Get(d.fields, key) == Some(r.value)
    ensures r.Ok? && key !in Keys(d.fields) ==> r.value == default
  {
    if d.JObj? then Ok(Get(d.fields, key).GetOr(default)) else Failure
  }

  /** key in d, for a dict. */
  predicate HasField(d: Json, key: string) {
    d.JObj? && key in Keys(d.fields)
  }

  /** d[i] on a list. */
  function At(d: Json, i: nat): (r: Result<Json>)
    ensures r.Ok? <==> d.JArr? && i < |d.items|
    ensures r.Ok? ==> r.value == d.items[i]
  {
    if d.JArr? && i < |d.items| then Ok(d.items[i]) else Failure
  }

  /** Iterating over a value with a for loop: a list yields its items, a dict
      its keys and a string its one-character strings; anything else fails. */
  function Iterate(d: Json): (r: Result<seq<Json>>)
    ensures d.JArr? ==> r == Ok(d.items)
    ensures r.Ok? <==> d.JArr? || d.JObj? || d.JStr?
    ensures d.JObj? ==> r.Ok? && |r.value| == |d.fields| && forall i :: 0 <= i < |d.fields| ==> r.value[i] == JStr(d.fields[i].0)
    ensures d.JStr? ==> r.Ok? && |r.value| == |d.s| && forall i :: 0 <= i < |d.s| ==> r.value[i] == JStr([d.s[i]])
  {
    match d
    case JArr(items) => Ok(items)
    case JObj(fields) => Ok(seq(|fields|, i requires 0 <= i < |fields| => JStr(fields[i].0)))
    case JStr(s) => Ok(seq(|s|, i requires 0 <= i < |s| => JStr([s[i]])))
    case _ => Failure
  }

  /** len(d) for a list, a dict or a string; anything else has no length. */
  function Len(d: Json): (r: Result<nat>)
    ensures r.Ok? <==> d.JArr? || d.JObj? || d.JStr?
    ensures d.JArr? ==> r == Ok(|d.items|)
    ensures d.JObj? ==> r == Ok(|d.fields|)
    ensures d.JStr? ==> r == Ok(|d.s|)
  {
    match d
    case JArr(items) => Ok(|items|)
    case JObj(fields) => Ok(|fields|)
    case JStr(s) => Ok(|s|)
    case _ => Failure
  }

  /** Python truthiness of a decoded value: empty containers, "", 0, False and None are false. */
  predicate Truthy(d: Json) {
    match d
    case JNull => false
    case JBool(b) => b
    case JInt(n) => n != 0
    case JFloat(m) => m != 0
    case JStr(s) => s != []
    case JArr(items) => items != []
    case JObj(fields) => fields != []
  }
}
