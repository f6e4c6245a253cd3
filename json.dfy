/** The already-parsed JSON tree that Foundation's JSONSerialization hands to
    the decoder, and the conditional casts (`as? T`) the decoder applies to it. */
module Json {
  import opened Wrappers

  datatype Json =
    | JNull
    | JBool(b: bool)
    | JNum(n: real)
    | JStr(s: string)
    | JArr(items: seq<Json>)
    | JObj(fields: map<string, Json>)

  /** `value as? [String: Any]` */
  function AsObject(j: Json): (r: Option<map<string, Json>>)
    ensures r.Some? <==> j.JObj?
    ensures r.Some? ==> JObj(r.value) == j
  {
    if j.JObj? then Some(j.fields) else None
  }

  /** `value as? String` */
  function AsString(j: Json): (r: Option<string>)
    ensures r.Some? <==> j.JStr?
    ensures r.Some? ==> JStr(r.value) == j
  {
    if j.JStr? then Some(j.s) else None
  }

  /** `value as? Double`. Foundation stores JSON numbers and booleans as
      NSNumber, and an NSNumber boolean bridges to 1.0 or 0.0. */
  function AsDouble(j: Json): (r: Option<real>)
    ensures r.Some? <==> j.JNum? || j.JBool?
    ensures j.JNum? ==> r == Some(j.n)
  {
    match j
    case JNum(n) => Some(n)
    case JBool(b) => Some(if b then 1.0 else 0.0)
    case _ => None
  }

  /** `value as? [String]`: an array every element of which is a string. */
  function AsStringArray(j: Json): (r: Option<seq<string>>)
    ensures r.Some? <==> j.JArr? && forall i :: 0 <= i < |j.items| ==> j.items[i].JStr?
    ensures r.Some? ==> |r.value| == |j.items| && forall i :: 0 <= i < |r.value| ==> j.items[i] == JStr(r.value[i])
  {
    if j.JArr? then StringsOf(j.items) else None
  }

  function StringsOf(items: seq<Json>): (r: Option<seq<string>>)
    ensures r.Some? <==> forall i :: 0 <= i < |items| ==> items[i].JStr?
    ensures r.Some? ==> |r.value| == |items| && forall i :: 0 <= i < |r.value| ==> items[i] == JStr(r.value[i])
  {
    if items == [] then Some([])
    else if !items[0].JStr? then None
    else match StringsOf(items[1..])
      case None => None
      case Some(rest) => Some([items[0].s] + rest)
  }

  /** The JSON array holding the given strings, in order. */
  function StringArray(ss: seq<string>): (j: Json)
    ensures j.JArr? && |j.items| == |ss|
    ensures forall i :: 0 <= i < |ss| ==> j.items[i] == JStr(ss[i])
  {
    JArr(seq(|ss|, i requires 0 <= i < |ss| => JStr(ss[i])))
  }

  /** Reading back a string array gives the strings it was built from. */
  lemma StringArrayRoundTrip(ss: seq<string>)
    ensures AsStringArray(StringArray(ss)) == Some(ss)
  {
    var r := AsStringArray(StringArray(ss));
    assert r.Some?;
    assert forall i :: 0 <= i < |ss| ==> r.value[i] == ss[i];
    assert r.value == ss;
  }

  /** `object[key] as? [String: Any]`, absent key included. */
  function ObjectAt(m: map<string, Json>, key: string): (r: Option<map<string, Json>>)
    ensures r.Some? <==> key in m && m[key].JObj?
    ensures r.Some? ==> m[key] == JObj(r.value)
  {
    if key in m then AsObject(m[key]) else None
  }

  /** `object[key] as? String`, absent key included. */
  function StringAt(m: map<string, Json>, key: string): (r: Option<string>)
    ensures r.Some? <==> key in m && m[key].JStr?
    ensures r.Some? ==> m[key] == JStr(r.value)
  {
    if key in m then AsString(m[key]) else None
  }

  /** `object[key] as? Double`, absent key included. */
  function DoubleAt(m: map<string, Json>, key: string): (r: Option<real>)
    ensures r.Some? <==> key in m && (m[key].JNum? || m[key].JBool?)
    ensures key in m && m[key].JNum? ==> r == Some(m[key].n)
  {
    if key in m then AsDouble(m[key]) else None
  }
}
