/** The already-parsed JSON values the message layer works on, after Qt's
    QJsonValue / QJsonObject. Numbers carry only an integer stand-in: the
    message layer inspects their type, never their precision. */
module QJson {

  /** One case per QJsonValue::Type. `JUndefined` is what a lookup of a missing
      key yields. Qt never stores it inside an object or an array: Insert
      removes the key instead, and Append stores null. */
  datatype Json =
    | JUndefined
    | JNull
    | JBool(b: bool)
    | JNumber(n: int)
    | JString(s: string)
    | JArray(elements: seq<Json>)
    | JObject(members: map<string, Json>)

  /** A QJsonObject: members keyed by name. */
  type Object = map<string, Json>

  /** QJsonObject::value: the member under `key`, or JUndefined if there is none. */
  function Value(obj: Object, key: string): (v: Json)
    ensures key !in obj ==> v == JUndefined
    ensures key in obj ==> v == obj[key]
  {
    if key in obj then obj[key] else JUndefined
  }

  /** QJsonObject::insert: sets `key` to `v`; inserting an undefined value
      removes the key instead. Either way `key` reads back as `v` and no other
      key changes. */
  function Insert(obj: Object, key: string, v: Json): (r: Object)
    ensures Value(r, key) == v
    ensures forall k :: k != key ==> Value(r, k) == Value(obj, k)
    ensures r.Keys == if v.JUndefined? then obj.Keys - {key} else obj.Keys + {key}
  {
    if v.JUndefined? then obj - {key} else obj[key := v]
  }

  /** The value QJsonArray::append stores for `v`: an undefined value becomes
      null, any other value is stored as it is. */
  function ArrayElement(v: Json): (w: Json)
    ensures !w.JUndefined?
    ensures v.JUndefined? ==> w == JNull
    ensures !v.JUndefined? ==> w == v
  {
    if v.JUndefined? then JNull else v
  }

  /** QJsonArray::append: adds `v` at the end, stored as ArrayElement gives it. */
  function Append(elements: seq<Json>, v: Json): (r: seq<Json>)
    ensures |r| == |elements| + 1
    ensures r[..|elements|] == elements && r[|elements|] == ArrayElement(v)
  {
    elements + [ArrayElement(v)]
  }

  /** The array appending each of `vs` in turn gives: element by element their
      stored values, and `vs` itself when none of them is undefined. */
  function ArrayOf(vs: seq<Json>): (a: seq<Json>)
    ensures |a| == |vs|
    ensures forall i :: 0 <= i < |vs| ==> a[i] == ArrayElement(vs[i])
    ensures (forall i :: 0 <= i < |vs| ==> !vs[i].JUndefined?) ==> a == vs
  {
    seq(|vs|, i requires 0 <= i < |vs| => ArrayElement(vs[i]))
  }
}
