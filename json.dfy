/**
 * org.json values as a datatype, with the two families of accessors the
 * app uses: `get*` throws when the key is missing or holds a value it
 * cannot convert (here: None), `opt*` falls back to a default instead.
 * Only exact kinds are accepted here: org.json's conversions of numeric
 * strings and of "true"/"false" strings are not modelled.
 */
module Json {
  import opened Wrappers

  datatype Json =
    | JNull
    | JBool(b: bool)
    | JInt(n: int)
    | JStr(s: string)
    | JArr(items: seq<Json>)
    | JObj(fields: map<string, Json>)

  /** A JSONObject: its keys and values. */
  type Object = map<string, Json>

  predicate Has(o: Object, key: string) { key in o }

  function GetString(o: Object, key: string): (r: Option<string>)
    ensures r.Some? <==> key in o && o[key].JStr?
    ensures r.Some? ==> o[key] == JStr(r.value)
  {
    if key in o && o[key].JStr? then Some(o[key].s) else None
  }

  function OptString(o: Object, key: string, default: string): (r: string)
    ensures key in o && o[key].JStr? ==> r == o[key].s
    ensures !(key in o && o[key].JStr?) ==> r == default
  {
    if key in o && o[key].JStr? then o[key].s else default
  }

  function GetInt(o: Object, key: string): (r: Option<int>)
    ensures r.Some? <==> key in o && o[key].JInt?
    ensures r.Some? ==> o[key] == JInt(r.value)
  {
    if key in o && o[key].JInt? then Some(o[key].n) else None
  }

  function OptInt(o: Object, key: string, default: int): (r: int)
    ensures key in o && o[key].JInt? ==> r == o[key].n
    ensures !(key in o && o[key].JInt?) ==> r == default
  {
    if key in o && o[key].JInt? then o[key].n else default
  }

  function GetBool(o: Object, key: string): (r: Option<bool>)
    ensures r.Some? <==> key in o && o[key].JBool?
    ensures r.Some? ==> o[key] == JBool(r.value)
  {
    if key in o && o[key].JBool? then Some(o[key].b) else None
  }

  function OptBool(o: Object, key: string, default: bool): (r: bool)
    ensures key in o && o[key].JBool? ==> r == o[key].b
    ensures !(key in o && o[key].JBool?) ==> r == default
  {
    if key in o && o[key].JBool? then o[key].b else default
  }

  /** getJSONArray, and optJSONArray (which gives null instead of throwing). */
  function GetArray(o: Object, key: string): (r: Option<seq<Json>>)
    ensures r.Some? <==> key in o && o[key].JArr?
    ensures r.Some? ==> o[key] == JArr(r.value)
  {
    if key in o && o[key].JArr? then Some(o[key].items) else None
  }

  /** getJSONObject, and optJSONObject (which gives null instead of throwing). */
  function GetObject(o: Object, key: string): (r: Option<Object>)
    ensures r.Some? <==> key in o && o[key].JObj?
    ensures r.Some? ==> o[key] == JObj(r.value)
  {
    if key in o && o[key].JObj? then Some(o[key].fields) else None
  }

  /** Reading every element of an array with JSONArray.getString. */
  function Strings(a: seq<Json>): (r: Option<seq<string>>)
    ensures r.Some? <==> forall i :: 0 <= i < |a| ==> a[i].JStr?
    ensures r.Some? ==> |r.value| == |a| && forall i :: 0 <= i < |a| ==> a[i] == JStr(r.value[i])
  {
    if forall i :: 0 <= i < |a| ==> a[i].JStr? then Some(seq(|a|, i requires 0 <= i < |a| => a[i].s)) else None
  }

  /** Reading every element of an array with JSONArray.getInt. */
  function Ints(a: seq<Json>): (r: Option<seq<int>>)
    ensures r.Some? <==> forall i :: 0 <= i < |a| ==> a[i].JInt?
    ensures r.Some? ==> |r.value| == |a| && forall i :: 0 <= i < |a| ==> a[i] == JInt(r.value[i])
  {
    if forall i :: 0 <= i < |a| ==> a[i].JInt? then Some(seq(|a|, i requires 0 <= i < |a| => a[i].n)) else None
  }

  /** `new JSONArray(list)` for a list of strings. */
  function StringArray(ss: seq<string>): (r: Json)
    ensures r.JArr? && |r.items| == |ss|
  {
    JArr(seq(|ss|, i requires 0 <= i < |ss| => JStr(ss[i])))
  }

  /** `new JSONArray(list)` for a list of ints. */
  function IntArray(ns: seq<int>): (r: Json)
    ensures r.JArr? && |r.items| == |ns|
  {
    JArr(seq(|ns|, i requires 0 <= i < |ns| => JInt(ns[i])))
  }

  /** A list of strings written to JSON reads back unchanged. */
  lemma {:induction false} StringsOfStringArray(ss: seq<string>)
    ensures Strings(StringArray(ss).items) == Some(ss)
  {
    var r := Strings(StringArray(ss).items);
    assert r.Some?;
    assert r.value == ss;
  }

  /** A list of ints written to JSON reads back unchanged. */
  lemma {:induction false} IntsOfIntArray(ns: seq<int>)
    ensures Ints(IntArray(ns).items) == Some(ns)
  {
    var r := Ints(IntArray(ns).items);
    assert r.Some?;
    assert r.value == ns;
  }
}
