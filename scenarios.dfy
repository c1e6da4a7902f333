/**
 Whole-case consequences of the model: what a configuration built by Test reports when
 Run dispatches it to a handler, for the situations the package is written for.
 */
module Scenarios {
  import opened Http
  import opened Assertions
  import opened Config
  import opened Runner

  /** Test with two options applies the first, then the second, to the fresh record. */
  lemma BuildTwo(name: string, first: TestOption, second: TestOption)
    ensures Build(name, [first, second]) == Apply(Apply(Fresh(name), first), second)
  {
    var t := Apply(Fresh(name), first);
    assert [first, second][0] == first && [first, second][1..] == [second];
    assert [second][0] == second && [second][1..] == [];
    assert ApplyAll(t, [second]) == ApplyAll(Apply(t, second), []);
  }

  /** Options that register no assertion and no check. */
  predicate Plain(options: seq<TestOption>)
  {
    forall i :: 0 <= i < |options| ==> !options[i].Assert? && !options[i].Before? && !options[i].After?
  }

  lemma {:induction false} PlainOptionsRegisterNothing(options: seq<TestOption>)
    requires Plain(options)
    ensures AssertionsOf(options) == [] && PrechecksOf(options) == []
  {
    if options != [] {
      PlainOptionsRegisterNothing(options[..|options| - 1]);
    }
  }

  /**
   A case built without assertions or checks fails only when its request cannot be built.
   */
  lemma NoAssertionsNoFailure(name: string, options: seq<TestOption>, handler: Request -> Response, lib: Library)
    requires Plain(options)
    ensures var test := Build(name, options);
      CaseOutcome(test, handler, lib).Failed() <==> !lib.accepts(test.httpMethod, test.route)
  {
    BuildIsReference(name, options);
    PlainOptionsRegisterNothing(options);
  }

  /** The configuration of a case that sends GET and expects the status `expected`. */
  function StatusCase(name: string, expected: int): TestConfig
  {
    Build(name, [RequestMethod("GET"), Assert(ResponseStatus(expected))])
  }

  /**
   Against a handler that always answers with status `actual`, a case that sends GET and
   expects status `expected` fails exactly when the two differ.
   */
  lemma StatusDecidesOutcome(name: string, expected: int, actual: int, handler: Request -> Response, lib: Library)
    requires lib.accepts("GET", "")
    requires forall req :: handler(req).code == actual
    ensures var r := CaseOutcome(StatusCase(name, expected), handler, lib);
      r.name == name && (r.Failed() <==> expected != actual)
  {
    BuildTwo(name, RequestMethod("GET"), Assert(ResponseStatus(expected)));
    var test := StatusCase(name, expected);
    assert test == TestConfig(name, "GET", "", "", [], [ResponseStatus(expected)], [], []);
    var response := handler(ApplyModifiers(Request("GET", "", "", map[]), []));
    AssertionsAllRun(test.assertions, response, lib.matches);
  }

  /**
   A case named "RejectGET405" that sends GET to a handler answering 405 to everything
   passes when it expects 405. Expecting 200 instead, it fails, and its trace holds both
   the recorded 405 and the failed expectation of 200.
   */
  lemma RejectGet405(handler: Request -> Response, lib: Library)
    requires lib.accepts("GET", "")
    requires forall req :: handler(req).code == 405
    ensures var r := CaseOutcome(StatusCase("RejectGET405", 405), handler, lib);
      r.name == "RejectGET405" && !r.Failed()
    ensures var r := CaseOutcome(StatusCase("RejectGET405", 200), handler, lib);
      && r.name == "RejectGET405" && r.Failed()
      && Asserted(ResponseStatus(200), 1) in r.events
      && exists e :: e in r.events && e.Dispatched? && e.response.code == 405
  {
    StatusDecidesOutcome("RejectGET405", 405, 405, handler, lib);
    StatusDecidesOutcome("RejectGET405", 200, 405, handler, lib);
    var test := StatusCase("RejectGET405", 200);
    var sent := ApplyModifiers(Request("GET", "", "", map[]), []);
    var r := CaseOutcome(test, handler, lib);
    assert r.events[1] == Dispatched(sent, handler(sent));
    assert r.events[2] == Asserted(ResponseStatus(200), 1);
  }

  /**
   ResponseJsonField on field k passes for {"k": v}, and reports one error for a different
   string at k or for a missing k. A decode error costs one error more, unless the map was
   filled up to k before the error, in which case the parse error is the only one.
   */
  lemma JsonFieldScenarios(k: string, v: string, other: string, code: int, body: string, header: Header,
                           matches: (string, string) -> bool)
    requires other != v
    ensures Errors(ResponseJsonField(k, v), Response(code, body, header, Decoded(false, map[k := JString(v)])), matches) == 0
    ensures Errors(ResponseJsonField(k, v), Response(code, body, header, Decoded(false, map[k := JString(other)])), matches) == 1
    ensures Errors(ResponseJsonField(k, v), Response(code, body, header, Decoded(false, map[])), matches) == 1
    ensures Errors(ResponseJsonField(k, v), Response(code, body, header, Decoded(true, map[])), matches) == 2
    ensures Errors(ResponseJsonField(k, v), Response(code, body, header, Decoded(true, map[k := JString(v)])), matches) == 1
  {
  }

  /** ResponseJsonFieldPattern reports an error for a field that is not a string, whatever the pattern. */
  lemma PatternNeedsString(r: Response, k: string, pattern: string, matches: (string, string) -> bool)
    requires !r.decoded.failed && k in r.decoded.fields && !r.decoded.fields[k].JString?
    ensures Errors(ResponseJsonFieldPattern(k, pattern), r, matches) == 1
  {
  }

  /**
   RequestHeader("X", "1") followed by RequestJSON leaves both headers on the request that
   is sent: X is 1 and Content-Type is application/json.
   */
  lemma HeaderAndJsonBothSent(name: string, encoded: string, req: Request)
    ensures var sent := ApplyModifiers(req, Build(name, [RequestHeader("X", "1"), RequestJSON(encoded)]).modifiers);
      Get(sent.header, "X") == "1" && Get(sent.header, ContentType) == ApplicationJson
  {
    BuildTwo(name, RequestHeader("X", "1"), RequestJSON(encoded));
    var mods := [SetHeader("X", "1"), SetHeader(ContentType, ApplicationJson)];
    LastModifierWins(req, mods, 0);
    LastModifierWins(req, mods, 1);
  }

  /** When two options set Content-Type, the one declared later decides the header sent. */
  lemma LaterHeaderWins(name: string, encoded: string, value: string, req: Request)
    ensures var sent := ApplyModifiers(req, Build(name, [RequestHeader(ContentType, value), RequestJSON(encoded)]).modifiers);
      Get(sent.header, ContentType) == ApplicationJson
    ensures var sent := ApplyModifiers(req, Build(name, [RequestJSON(encoded), RequestHeader(ContentType, value)]).modifiers);
      Get(sent.header, ContentType) == value
  {
    BuildTwo(name, RequestHeader(ContentType, value), RequestJSON(encoded));
    var mods1 := [SetHeader(ContentType, value), SetHeader(ContentType, ApplicationJson)];
    LastModifierWins(req, mods1, 1);

    BuildTwo(name, RequestJSON(encoded), RequestHeader(ContentType, value));
    var mods2 := [SetHeader(ContentType, ApplicationJson), SetHeader(ContentType, value)];
    LastModifierWins(req, mods2, 1);
  }

  /** RequestBody and RequestJSON both write the body; whichever comes last wins. */
  lemma LastBodyWins(name: string, encoded: string, body: string)
    ensures Build(name, [RequestJSON(encoded), RequestBody(body)]).body == body
    ensures Build(name, [RequestBody(body), RequestJSON(encoded)]).body == encoded
  {
    BuildTwo(name, RequestJSON(encoded), RequestBody(body));
    BuildTwo(name, RequestBody(body), RequestJSON(encoded));
  }
}
