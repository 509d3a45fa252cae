/** The values `json.loads` can produce and a collaborator can hand back:
    the JSON data model, with objects as maps from key to value. */
module JsonValues {
  import opened Wrappers

  datatype Json =
    | JNull
    | JBool(b: bool)
    | JNum(n: int)
    | JStr(s: string)
    | JArr(items: seq<Json>)
    | JObj(fields: map<string, Json>)

  /** Python's `d.get(key, default)` on a dictionary. */
  function Get(d: map<string, Json>, key: string, default: Json): (v: Json)
    ensures key in d ==> v == d[key]
    ensures key !in d ==> v == default
  {
    if key in d then d[key] else default
  }

  /** The dictionary laws `get` obeys: a stored key gives its latest value,
      storing under another key changes nothing, and the empty dictionary
      always gives the default. */
  lemma GetLaws(d: map<string, Json>, key: string, other: string, v: Json, default: Json)
    ensures Get(d[key := v], key, default) == v
    ensures other != key ==> Get(d[other := v], key, default) == Get(d, key, default)
    ensures Get(map[], key, default) == default
  {
  }

  /** A JSON object all of whose values are strings, read as a
      string-to-string dictionary; `None` for anything else. */
  function AsStringMap(j: Json): (r: Option<map<string, string>>)
    ensures r.Some? <==> j.JObj? && forall k | k in j.fields :: j.fields[k].JStr?
    ensures r.Some? ==> r.value.Keys == j.fields.Keys
    ensures r.Some? ==> forall k | k in r.value :: j.fields[k] == JStr(r.value[k])
  {
    if j.JObj? && forall k | k in j.fields :: j.fields[k].JStr? then
      Some(map k | k in j.fields :: j.fields[k].s)
    else
      None
  }

  /** The inverse view: a string-to-string dictionary as a JSON object. */
  function FromStringMap(m: map<string, string>): (j: Json)
    ensures j.JObj? && j.fields.Keys == m.Keys
  {
    JObj(map k | k in m :: JStr(m[k]))
  }

  /** Reading back a dictionary that was written as JSON gives the dictionary. */
  lemma StringMapRoundTrip(m: map<string, string>)
    ensures AsStringMap(FromStringMap(m)) == Some(m)
  {
    var j := FromStringMap(m);
    assert forall k | k in j.fields :: j.fields[k] == JStr(m[k]);
    var r := AsStringMap(j);
    assert r.Some?;
    assert r.value == m;
  }
}
