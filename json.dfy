/**
  JSON values as the Codable types see them once the text has been parsed.
  Objects are maps from key to value; a date is carried as `JDate(ms)`, the
  ISO 8601 date-time string for that instant, with time counted in whole
  milliseconds.
 */
module Json {

  import opened Wrappers

  datatype Value =
    | JNull
    | JBool(b: bool)
    | JInt(i: int)
    | JString(s: string)
    | JDate(ms: int)
    | JArray(items: seq<Value>)
    | JObject(fields: map<string, Value>)

  type Object = map<string, Value>

  /** `container.decode(String.self, forKey: k)`: present and a string. */
  function GetString(m: Object, k: string): (r: Option<string>)
    ensures r.Some? <==> k in m && m[k].JString?
    ensures r.Some? ==> m[k] == JString(r.value)
  {
    if k in m && m[k].JString? then Some(m[k].s) else None
  }

  /** `container.decode(Int.self, forKey: k)`. */
  function GetInt(m: Object, k: string): (r: Option<int>)
    ensures r.Some? <==> k in m && m[k].JInt?
    ensures r.Some? ==> m[k] == JInt(r.value)
  {
    if k in m && m[k].JInt? then Some(m[k].i) else None
  }

  /** `container.decode(Bool.self, forKey: k)`. */
  function GetBool(m: Object, k: string): (r: Option<bool>)
    ensures r.Some? <==> k in m && m[k].JBool?
    ensures r.Some? ==> m[k] == JBool(r.value)
  {
    if k in m && m[k].JBool? then Some(m[k].b) else None
  }

  /**
    `container.decode(Date.self, forKey: k)` with the ISO 8601 strategy. Every
    date decodes, at whatever precision it was written: the peers' `.iso8601`
    decoders are taken to read the relay's fractional-second dates.
   */
  function GetDate(m: Object, k: string): (r: Option<int>)
    ensures r.Some? <==> k in m && m[k].JDate?
    ensures r.Some? ==> m[k] == JDate(r.value)
  {
    if k in m && m[k].JDate? then Some(m[k].ms) else None
  }

  /** A nested keyed container. */
  function GetObject(m: Object, k: string): (r: Option<Object>)
    ensures r.Some? <==> k in m && m[k].JObject?
    ensures r.Some? ==> m[k] == JObject(r.value)
  {
    if k in m && m[k].JObject? then Some(m[k].fields) else None
  }

  /** The top-level keyed container of a decoded value. */
  function AsObject(j: Value): (r: Option<Object>)
    ensures r.Some? <==> j.JObject?
    ensures r.Some? ==> j == JObject(r.value)
  {
    if j.JObject? then Some(j.fields) else None
  }

  /**
    The instant that JSONEncoder's `.iso8601` strategy writes: the internet
    date-time format has no fraction of a second, so the milliseconds are lost.
   */
  function WholeSeconds(ms: int): (r: int)
    ensures r <= ms < r + 1000
    ensures r % 1000 == 0
  {
    ms - ms % 1000
  }

  /** Writing an already whole-second date again changes nothing. */
  lemma WholeSecondsIdempotent(ms: int)
    ensures WholeSeconds(WholeSeconds(ms)) == WholeSeconds(ms)
  {
    var r := WholeSeconds(ms);
    assert r % 1000 == 0;
  }
}
