/**
 The response assertions of httptestutil: each inspects the recorded response and
 reports zero or more non-fatal errors. An assertion here is data; `Errors` is what
 running it reports.
 */
module Assertions {
  import opened Http

  /** One variant per assertion option the package offers. */
  datatype Assertion =
    | ResponseStatus(expectedStatus: int)
    | ResponseBody(expectedBody: string)
    | ResponseHeader(header: string, expected: string)
    | ResponseJsonField(field: string, expected: string)
    | ResponseJsonFieldPattern(field: string, pattern: string)

  /** Indexing the decoded map[string]interface{}: a field the map does not hold reads as nil. */
  function Lookup(fields: map<string, Json>, field: string): (v: Option<Json>)
    ensures v.Some? <==> field in fields
    ensures v.Some? ==> v.value == fields[field]
  {
    if field in fields then Some(fields[field]) else None
  }

  /** The field check of a JSON assertion, made on whatever the decoded map holds. */
  predicate FieldMatches(a: Assertion, fields: map<string, Json>, matches: (string, string) -> bool)
    requires a.ResponseJsonField? || a.ResponseJsonFieldPattern?
  {
    match a
    case ResponseJsonField(f, e) => f in fields && fields[f] == JString(e)
    case ResponseJsonFieldPattern(f, p) => f in fields && fields[f].JString? && matches(p, fields[f].s)
  }

  /**
   What each assertion expects of the response, stated directly on the response. The JSON
   assertions also expect the body to decode without error.
   */
  predicate Holds(a: Assertion, r: Response, matches: (string, string) -> bool)
  {
    match a
    case ResponseStatus(e) => r.code == e
    case ResponseBody(e) => r.body == e
    case ResponseHeader(h, e) => Get(r.header, h) == e
    case _ => !r.decoded.failed && FieldMatches(a, r.decoded.fields, matches)
  }

  /** One error when json.Unmarshal returns an error. */
  function ParseErrors(r: Response): nat
  {
    if r.decoded.failed then 1 else 0
  }

  /**
   The number of t.Errorf calls an assertion makes against the response. It is zero
   exactly when the assertion holds. The two JSON assertions go on to the field check
   after a decode error, so they report two errors exactly when decoding failed and the
   field check fails too; on a body that decodes they report at most one. The others
   report at most one.
   */
  function Errors(a: Assertion, r: Response, matches: (string, string) -> bool): (n: nat)
    ensures n == 0 <==> Holds(a, r, matches)
    ensures !a.ResponseJsonField? && !a.ResponseJsonFieldPattern? ==> n <= 1
    ensures a.ResponseJsonField? || a.ResponseJsonFieldPattern? ==>
      && n <= 2
      && (!r.decoded.failed ==> n <= 1)
      && (n == 2 <==> r.decoded.failed && !FieldMatches(a, r.decoded.fields, matches))
  {
    match a
    case ResponseStatus(e) => if e != r.code then 1 else 0
    case ResponseBody(e) => if r.body != e then 1 else 0
    case ResponseHeader(h, e) => if Get(r.header, h) != e then 1 else 0
    case ResponseJsonField(f, e) =>
      ParseErrors(r) + (if Lookup(r.decoded.fields, f) != Some(JString(e)) then 1 else 0)
    case ResponseJsonFieldPattern(f, p) =>
      ParseErrors(r) +
        match Lookup(r.decoded.fields, f)
        case Some(JString(actual)) => if matches(p, actual) then 0 else 1
        case _ => 1
  }
}
