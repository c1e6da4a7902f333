/**
 The configuration builder of httptestutil: a TestConfig record, the options that
 update it, and Test, which folds a list of options over a fresh record. The options
 are Go closures over *TestConfig; here each is a tagged variant and `Apply` is what
 calling it does to the record.
 */
module Config {
  import opened Http
  import opened Assertions

  /**
   A pre- or post-check: a caller's func(*testing.T). All the sub-test sees of it is how
   many errors it reports and whether it ends the sub-test with t.Fatal.
   */
  datatype Check = Check(id: string, errors: nat, fatal: bool)

  /** A request modifier. Both modifiers the package creates (RequestHeader's and RequestJSON's) call req.Header.Set. */
  datatype Modifier = SetHeader(header: string, value: string)

  /** Running a modifier on the outgoing request: one header set, nothing else touched. */
  function Modify(req: Request, m: Modifier): (r: Request)
    ensures m.header in r.header && r.header[m.header] == [m.value] && Get(r.header, m.header) == m.value
    ensures r.header.Keys == req.header.Keys + {m.header}
    ensures forall k :: k in req.header && k != m.header ==> k in r.header && r.header[k] == req.header[k]
    ensures r.httpMethod == req.httpMethod && r.url == req.url && r.body == req.body
  {
    req.(header := Set(req.header, m.header, m.value))
  }

  const ContentType := "Content-Type"
  const ApplicationJson := "application/json"

  /**
   The options. RequestJSON carries the text json.Marshal produced for the caller's value;
   Assert stands for every option built with the responseAssertion helper.
   */
  datatype TestOption =
    | RequestMethod(httpMethod: string)
    | RequestHeader(header: string, value: string)
    | RequestJSON(encoded: string)
    | RequestBody(body: string)
    | RequestRel(rel: string)
    | Assert(assertion: Assertion)
    | Before(check: Check)
    | After(check: Check)

  datatype TestConfig = TestConfig(
    name: string,
    httpMethod: string,
    route: string,
    body: string,
    modifiers: seq<Modifier>,
    assertions: seq<Assertion>,
    precheck: seq<Check>,
    postcheck: seq<Check>)

  type TestSet = seq<TestConfig>

  /** The record Test starts from: the name, empty strings, empty lists. */
  function Fresh(name: string): TestConfig
  {
    TestConfig(name, "", "", "", [], [], [], [])
  }

  /**
   What applying one option does to the record. No option renames the case or touches
   `postcheck`; `modifiers` and `assertions` only grow, one element at a time; each scalar
   field is changed only by the options that target it. Before appends to `precheck`, while
   After, as written, replaces `precheck` with `postcheck + [check]`.
   */
  function Apply(test: TestConfig, option: TestOption): (r: TestConfig)
    ensures r.name == test.name && r.postcheck == test.postcheck
    ensures r.httpMethod != test.httpMethod ==> option.RequestMethod?
    ensures r.route != test.route ==> option.RequestRel?
    ensures r.body != test.body ==> option.RequestBody? || option.RequestJSON?
    ensures test.modifiers <= r.modifiers
    ensures |r.modifiers| == |test.modifiers| + (if option.RequestHeader? || option.RequestJSON? then 1 else 0)
    ensures test.assertions <= r.assertions
    ensures |r.assertions| == |test.assertions| + (if option.Assert? then 1 else 0)
    ensures r.precheck != test.precheck ==> option.Before? || option.After?
    ensures option.Before? ==> test.precheck <= r.precheck && |r.precheck| == |test.precheck| + 1
    ensures option.After? ==> test.postcheck <= r.precheck && |r.precheck| == |test.postcheck| + 1
    ensures option.RequestMethod? ==> r.httpMethod == option.httpMethod
    ensures option.RequestRel? ==> r.route == option.rel
    ensures option.RequestBody? ==> r.body == option.body
    ensures option.RequestHeader? ==> r.modifiers == test.modifiers + [SetHeader(option.header, option.value)]
    ensures option.RequestJSON? ==>
      r.body == option.encoded && r.modifiers == test.modifiers + [SetHeader(ContentType, ApplicationJson)]
    ensures option.Assert? ==> r.assertions == test.assertions + [option.assertion]
    ensures option.Before? ==> r.precheck == test.precheck + [option.check]
    ensures option.After? ==> r.precheck == test.postcheck + [option.check]
  {
    match option
    case RequestMethod(m) => test.(httpMethod := m)
    case RequestHeader(h, v) => test.(modifiers := test.modifiers + [SetHeader(h, v)])
    case RequestJSON(encoded) =>
      test.(modifiers := test.modifiers + [SetHeader(ContentType, ApplicationJson)], body := encoded)
    case RequestBody(b) => test.(body := b)
    case RequestRel(rel) => test.(route := rel)
    case Assert(a) => test.(assertions := test.assertions + [a])
    case Before(c) => test.(precheck := test.precheck + [c])
    case After(c) => test.(precheck := test.postcheck + [c])
  }

  /** The options applied left to right, each once. */
  function ApplyAll(test: TestConfig, options: seq<TestOption>): (r: TestConfig)
    ensures r.name == test.name && r.postcheck == test.postcheck
    ensures test.modifiers <= r.modifiers && test.assertions <= r.assertions
    decreases |options|
  {
    if options == [] then test else ApplyAll(Apply(test, options[0]), options[1..])
  }

  /** The configuration Test returns for a name and a list of options. */
  function Build(name: string, options: seq<TestOption>): TestConfig
  {
    ApplyAll(Fresh(name), options)
  }

  /** Test: start from the fresh record and apply each option to it in turn. */
  method Test(name: string, options: seq<TestOption>) returns (test: TestConfig)
    ensures test == Build(name, options)
  {
    test := Fresh(name);
    for i := 0 to |options|
      invariant ApplyAll(test, options[i..]) == Build(name, options)
    {
      test := Apply(test, options[i]);
    }
  }

  /** Applying a + b is applying a, then b. */
  lemma {:induction false} ApplyAllAppend(test: TestConfig, a: seq<TestOption>, b: seq<TestOption>)
    ensures ApplyAll(test, a + b) == ApplyAll(ApplyAll(test, a), b)
    decreases |a|
  {
    if a == [] {
      assert a + b == b;
    } else {
      assert (a + b)[0] == a[0];
      assert (a + b)[1..] == a[1..] + b;
      ApplyAllAppend(Apply(test, a[0]), a[1..], b);
    }
  }

  /** Test with the options a + b is the configuration for a, carried on by b. */
  lemma BuildAppend(name: string, a: seq<TestOption>, b: seq<TestOption>)
    ensures Build(name, a + b) == ApplyAll(Build(name, a), b)
  {
    ApplyAllAppend(Fresh(name), a, b);
  }

  // The configuration read field by field from the options, last option first.

  /** The method given by the last RequestMethod, or "" when there is none. */
  function LastMethod(options: seq<TestOption>): string
  {
    if options == [] then ""
    else if options[|options| - 1].RequestMethod? then options[|options| - 1].httpMethod
    else LastMethod(options[..|options| - 1])
  }

  /** The route given by the last RequestRel, or "" when there is none. */
  function LastRoute(options: seq<TestOption>): string
  {
    if options == [] then ""
    else if options[|options| - 1].RequestRel? then options[|options| - 1].rel
    else LastRoute(options[..|options| - 1])
  }

  /** The body given by the last RequestBody or RequestJSON, or "" when there is none. */
  function LastBody(options: seq<TestOption>): string
  {
    if options == [] then ""
    else match options[|options| - 1]
      case RequestBody(b) => b
      case RequestJSON(encoded) => encoded
      case _ => LastBody(options[..|options| - 1])
  }

  /** One header modifier per RequestHeader or RequestJSON, in option order. */
  function ModifiersOf(options: seq<TestOption>): seq<Modifier>
  {
    if options == [] then []
    else
      var added := match options[|options| - 1]
        case RequestHeader(h, v) => [SetHeader(h, v)]
        case RequestJSON(_) => [SetHeader(ContentType, ApplicationJson)]
        case _ => [];
      ModifiersOf(options[..|options| - 1]) + added
  }

  /** One assertion per Assert option, in option order. */
  function AssertionsOf(options: seq<TestOption>): seq<Assertion>
  {
    if options == [] then []
    else
      var added := if options[|options| - 1].Assert? then [options[|options| - 1].assertion] else [];
      AssertionsOf(options[..|options| - 1]) + added
  }

  /**
   The prechecks as the code leaves them: the last After's check, followed by the checks of
   the Before options that come after it (all the Before checks when there is no After).
   */
  function PrechecksOf(options: seq<TestOption>): seq<Check>
  {
    if options == [] then []
    else match options[|options| - 1]
      case Before(c) => PrechecksOf(options[..|options| - 1]) + [c]
      case After(c) => [c]
      case _ => PrechecksOf(options[..|options| - 1])
  }

  function Reference(name: string, options: seq<TestOption>): TestConfig
  {
    TestConfig(name, LastMethod(options), LastRoute(options), LastBody(options),
      ModifiersOf(options), AssertionsOf(options), PrechecksOf(options), [])
  }

  /**
   Test's result, field by field: the given name; the last method, route and body set (or
   ""); every modifier and assertion in option order; the prechecks PrechecksOf describes;
   and no postchecks at all.
   */
  lemma {:induction false} BuildIsReference(name: string, options: seq<TestOption>)
    ensures Build(name, options) == Reference(name, options)
  {
    if options != [] {
      var init, last := options[..|options| - 1], options[|options| - 1];
      assert options == init + [last];
      BuildIsReference(name, init);
      BuildAppend(name, init, [last]);
    }
  }

  /** An After discards every precheck registered before it and leaves postcheck empty. */
  lemma AfterReplacesPrechecks(name: string, options: seq<TestOption>, c: Check)
    ensures Build(name, options + [After(c)]).precheck == [c]
    ensures Build(name, options + [After(c)]).postcheck == []
  {
    BuildIsReference(name, options + [After(c)]);
    assert (options + [After(c)])[..|options|] == options;
  }
}
