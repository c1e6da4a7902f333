/**
 The parts of Go's net/http, net/http/httptest, encoding/json and regexp that
 httptestutil calls into. Only what the package observes of them is modelled:
 header maps, the recorded response, the decoded JSON object, and two
 uninterpreted decisions (whether http.NewRequest accepts a method and URL,
 whether regexp.MatchString finds a pattern in a string).
 */
module Http {

  datatype Option<+T> = None | Some(value: T)

  /** http.Header: each header name carries a list of values. */
  type Header = map<string, seq<string>>

  /** Header.Get: the first value stored for the name, or "" when there is none. */
  function Get(h: Header, name: string): (r: string)
    ensures (name !in h || h[name] == []) ==> r == ""
    ensures name in h && h[name] != [] ==> r == h[name][0]
  {
    if name in h && h[name] != [] then h[name][0] else ""
  }

  /** Header.Set: the name ends up with exactly one value; every other name keeps its values. */
  function Set(h: Header, name: string, value: string): (r: Header)
    ensures name in r && r[name] == [value] && Get(r, name) == value
    ensures r.Keys == h.Keys + {name}
    ensures forall k :: k in h && k != name ==> r[k] == h[k]
  {
    h[name := [value]]
  }

  /**
   A value decoded by json.Unmarshal into an interface{}. json.Unmarshal turns numbers into
   float64; this model keeps a number's literal text instead, and nothing here compares numbers.
   */
  datatype Json =
    | JNull
    | JBool(b: bool)
    | JNumber(literal: string)
    | JString(s: string)
    | JArray(items: seq<Json>)
    | JObject(members: map<string, Json>)

  /** An outgoing *http.Request as far as the package touches it. */
  datatype Request = Request(httpMethod: string, url: string, body: string, header: Header)

  /**
   What json.Unmarshal does to a map[string]interface{} target: whether it returned an error,
   and the fields the map holds afterwards. A map left nil reads like an empty one. An error
   does not imply an empty map: a type error found midway (a number out of float64's range,
   say) is reported after the rest of the object has been stored.
   */
  datatype Decoded = Decoded(failed: bool, fields: map<string, Json>)

  /**
   What an httptest.ResponseRecorder holds after the handler returns: the status code, the
   body text and the header map, with `decoded` the outcome of json.Unmarshal on the body.
   */
  datatype Response = Response(code: int, body: string, header: Header, decoded: Decoded)

  /**
   The two library decisions the package depends on and does not implement:
   `accepts(method, url)` holds when http.NewRequest returns no error, and
   `matches(pattern, s)` holds when regexp.MatchString reports a match without error.
   */
  datatype Library = Library(accepts: (string, string) -> bool, matches: (string, string) -> bool)

  /** http.NewRequest: a request with no headers yet, or None when it reports an error. */
  function NewRequest(lib: Library, httpMethod: string, url: string, body: string): (r: Option<Request>)
    ensures r.Some? <==> lib.accepts(httpMethod, url)
    ensures r.Some? ==> r.value.header == map[] && r.value.url == url && r.value.body == body
  {
    if lib.accepts(httpMethod, url) then Some(Request(httpMethod, url, body, map[])) else None
  }
}
