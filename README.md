# httptestutil, modelled in Dafny

httptestutil is a small Go helper for table-style tests of HTTP handlers. A test
author calls `Test(name, options...)` to get a `TestConfig`. The options set the
request's method, route and body. They also register request modifiers (header
setters), response assertions, and pre- and post-checks. `TestSet.Run` then runs
every configuration as a sub-test named after it. A sub-test runs its prechecks,
builds the request and applies the modifiers. It then sends the request to the
handler under test, runs the assertions against the recorded response, and runs
the postchecks.

This project models that core:

- `http.dfy` (module `Http`): the library values the package handles. It has
  header maps with Go's `Set`/`Get` meaning, the request, and the recorded
  response. The response carries what `json.Unmarshal` made of its body: whether it
  returned an error, and the fields the target map holds. It also has the
  two library decisions the package depends on: whether `http.NewRequest`
  accepts a method and URL, and whether `regexp.MatchString` matches.
- `assertions.dfy` (module `Assertions`): the five response assertions. Each is a
  variant of `Assertion`, and `Errors` gives the number of `t.Errorf` calls it
  makes. `Holds` states each assertion's expectation directly.
- `config.dfy` (module `Config`): the `TestConfig` record and the options. Each
  option is a tagged variant, not a closure, and `Apply` is its effect on the
  record. The method `Test` runs the loop over the options. `Reference` reads the
  resulting configuration field by field, and `BuildIsReference` proves the two
  agree.
- `runner.dfy` (module `Runner`): `Run` and the body of each sub-test. A
  sub-test's report is a trace of `Event`s, an error count and a fatal flag. The
  methods `RunCase` and `Run` are proved equal to the specification function
  `CaseOutcome`. The lemmas prove the order of steps, the single dispatch, the
  fatal build failure, and when a sub-test fails.
- `scenarios.dfy` (module `Scenarios`): end-to-end consequences for typical
  cases. These cover a status check against a fixed-status handler, the
  `RejectGET405` case, the JSON field checks, and header and body overrides.

Two behaviours of the code are worth stating plainly:

- `After` (httptestutil.go:247-251): the comment at line 236 describes Before and After
  as utilities run before or after tests. The code assigns `postcheck + [check]` to `precheck` instead of appending to
  `postcheck`. So an `After` check runs before the request, as a precheck. It also
  throws away every `Before` check registered before it, and `postcheck` is always
  empty. The model does what the code does; `Config.PrechecksOf`,
  `Config.BuildIsReference` and `Config.AfterReplacesPrechecks` state it.
- `ResponseJsonField` and `ResponseJsonFieldPattern` (httptestutil.go:194-229) report a
  decode error and then still run the field check on whatever the map holds. A body
  that fails to decode and leaves the field unset costs two errors (`Assertions.Errors`).

## Model

| member | source | states |
|---|---|---|
| `Http.Get` | httptestutil.go:188 | `Header.Get` reads the first value stored for the name, and "" for a name that is absent or has no values |
| `Http.Set` | httptestutil.go:108 | `Header.Set` stores exactly `[value]` under the name, adds no other name, and keeps every other name's values |
| `Http.NewRequest` | httptestutil.go:42-46 | A request exists exactly when the library accepts the method and route; it carries the URL and body and no headers yet |
| `Assertions.Lookup` | httptestutil.go:204 | Indexing the decoded map: a field is present exactly when the map holds it, with the value stored there; an absent field reads as nil |
| `Assertions.Errors` | httptestutil.go:167-229 | An assertion reports no error exactly when its expectation (`Holds`) is true of the response. Status, body and header report at most one. The two JSON assertions report at most one on a body that decodes, and two exactly when decoding failed and the field check fails on what the map holds |
| `Config.Modify` | httptestutil.go:105-111 | Running a header modifier stores exactly `[value]` under that header, adds no other name, and leaves method, URL, body and other headers alone |
| `Config.Apply` | httptestutil.go:97-251 | No option changes the name or `postcheck`. Only RequestMethod changes the method, only RequestRel the route, only RequestBody/RequestJSON the body. Each option writes its own argument: RequestMethod the method, RequestRel the route, RequestBody the body. RequestHeader appends `SetHeader(header, value)` to the modifiers; RequestJSON sets the body to the encoded text and appends the Content-Type: application/json setter. Assert appends its assertion. Before appends its check to `precheck`; After sets `precheck` to `postcheck` plus its check. Nothing else changes a list. `modifiers` and `assertions` only grow; After replaces `precheck`, which can shrink it |
| `Config.ApplyAll` | httptestutil.go:80-82 | Folding options keeps the name and `postcheck` and only extends the modifier and assertion lists |
| `Config.Test` | httptestutil.go:67-85 | The loop over the options yields `Build(name, options)`: the fresh record with each option applied once, left to right |
| `Config.ApplyAllAppend` | httptestutil.go:80-82 | Applying `a + b` is applying `a`, then `b` |
| `Config.BuildAppend` | httptestutil.go:67-85 | Test with options `a + b` is Test with `a` carried on by `b`: options apply in argument order |
| `Config.BuildIsReference` | httptestutil.go:67-251 | Test keeps the given name. Method, route and body are those of the last option setting them ("" if none). Modifiers and assertions come one per option, in option order. Prechecks are as `PrechecksOf` reads them. `postcheck` is always empty |
| `Config.AfterReplacesPrechecks` | httptestutil.go:247-251 | After an `After(c)`, `precheck` is exactly `[c]`, whatever Before added earlier, and `postcheck` is still empty |
| `Runner.RunChecks` | httptestutil.go:38-40 | A list of checks records at most one event per check |
| `Runner.ChecksStopAtFirstFatal` | httptestutil.go:38-40 | The checks run are a prefix, in list order: all of them when none calls t.Fatal, otherwise up to and including the first fatal one |
| `Runner.ChecksErrors` | httptestutil.go:38-40 | A phase reports no error exactly when none of the checks it ran reported one |
| `Runner.ApplyModifiers` | httptestutil.go:48-50 | Running the modifiers changes only the request's headers |
| `Runner.ModifiersInOrder` | httptestutil.go:48-50 | The trace records modifier `i` at position `i`: the modifiers run in declaration order |
| `Runner.RunAssertions` | httptestutil.go:56-58 | Every assertion is run, none is fatal, and there is one event per assertion |
| `Runner.AssertionsAllRun` | httptestutil.go:56-58 | Assertion `i` is recorded at position `i` with the errors it reports, and the phase has no error exactly when every assertion holds |
| `Runner.CaseOutcome` | httptestutil.go:36-63 | The sub-test is reported under the configuration's name |
| `Runner.RunCheckList` | httptestutil.go:38-40 | The check loop, with its stop at t.Fatal, reports exactly what `RunChecks` specifies |
| `Runner.ApplyModifierList` | httptestutil.go:48-50 | The modifier loop sends the request `ApplyModifiers` specifies and records one event per modifier |
| `Runner.RunAssertionList` | httptestutil.go:56-58 | The assertion loop reports exactly what `RunAssertions` specifies |
| `Runner.RunCase` | httptestutil.go:36-63 | The sub-test body reports exactly `CaseOutcome`: prechecks, build (fatal on failure), modifiers, one dispatch, assertions, postchecks |
| `Runner.Run` | httptestutil.go:34-65 | One report per configuration, in set order, named after it. Each is that configuration's own outcome, so a fatal case does not stop the others (with the handler taken as a stateless function; see below) |
| `Runner.UntouchedHeaderKept` | httptestutil.go:48-50 | A header no modifier names keeps the values it had |
| `Runner.LastModifierWins` | httptestutil.go:105-126 | A header ends holding exactly `[value]` of the last modifier that sets it: a later set replaces an earlier one, leaving no second value |
| `Runner.StepsInOrder` | httptestutil.go:36-63 | A sub-test's trace never goes back a step. The order is prechecks, build, modifiers, dispatch, assertions, postchecks |
| `Runner.DispatchedOnce` | httptestutil.go:52-54 | The handler is called exactly once when the prechecks pass and the request builds, and never otherwise |
| `Runner.BuildFailureEndsCase` | httptestutil.go:42-46 | A request that cannot be built fails the sub-test fatally. The trace is the prechecks then the failed build: no modifier, dispatch, assertion or postcheck |
| `Runner.FailsExactlyWhen` | httptestutil.go:36-63 | Once dispatched, a sub-test fails exactly when a precheck reported an error, an assertion does not hold, or a postcheck reported an error or was fatal |
| `Scenarios.NoAssertionsNoFailure` | httptestutil.go:56-58 | A case built with no assertion or check options fails exactly when its request cannot be built |
| `Scenarios.StatusDecidesOutcome` | httptestutil.go:167-174 | Against a handler that always answers `actual`, a GET case expecting `expected` fails exactly when they differ |
| `Scenarios.RejectGet405` | httptestutil.go:167-174 | "RejectGET405" expecting 405 from an always-405 handler passes. Expecting 200, it fails, and its trace holds the recorded 405 and the failed 200 assertion |
| `Scenarios.JsonFieldScenarios` | httptestutil.go:194-208 | `{"k": v}` passes. Another string at `k` or a missing `k` costs one error. A decode error costs two when it leaves `k` unset, and one when the map already holds `{"k": v}` |
| `Scenarios.PatternNeedsString` | httptestutil.go:210-229 | A present but non-string field fails the pattern assertion, whatever the pattern |
| `Scenarios.HeaderAndJsonBothSent` | httptestutil.go:104-126 | RequestHeader("X", "1") then RequestJSON sends both X: 1 and Content-Type: application/json |
| `Scenarios.LaterHeaderWins` | httptestutil.go:104-126 | When RequestHeader and RequestJSON both set Content-Type, the later-declared one decides the header sent |
| `Scenarios.LastBodyWins` | httptestutil.go:113-133 | RequestBody and RequestJSON both overwrite the body; the later one wins |

## Left out

- `http.NewRequest` (httptestutil.go:42) is modelled only by whether it accepts the method and route (`Library.accepts`). Its URL parsing, method validation and turning "" into "GET" are not modelled. The request method is kept as given.
- `httptest.NewRecorder` and `handler.ServeHTTP` (httptestutil.go:52-54) become one function from request to recorded response. The recorder's default status of 200 is part of that function.
- Runner.Run: the handler is a total, stateless function, so a case's outcome depends only on its own configuration. A Go handler may keep state from one case to the next (a POST case followed by a GET case), and checks may observe it; the model does not capture that dependence. A handler that panics ends the whole test binary in Go, not just its sub-test; panics are not modelled.
- `json.Marshal` in `RequestJSON` (httptestutil.go:115-119) is not modelled. The option carries the encoded text, and the panic on a value that cannot be encoded is left out. It happens when the option is created, before `Test` runs.
- `json.Unmarshal` (httptestutil.go:200, 216) is not modelled. The response carries its result: whether it returned an error, and the fields the map holds afterwards, which may be filled even when it did (a number out of range is reported after the rest of the object is stored). Which bodies give which result is left to the caller. Numbers are kept as their literal text rather than float64; nothing in the package compares them.
- `regexp.MatchString` (httptestutil.go:222) is not modelled. `Library.matches` stands for it, and an invalid pattern counts as no match, as the code treats it.
- Header names are compared as given. The canonicalisation `Header.Set` and `Header.Get` apply (`content-type` and `Content-Type` are one header to Go) is not modelled.
- `testing.T` is not modelled: message text, `t.Run` plumbing and marking the parent test failed. A sub-test is its trace, its `t.Errorf` count and whether `t.Fatal` ended it.
- Checks (`Check`, httptestutil.go:12) are arbitrary closures. The model keeps only their effect on the sub-test: how many errors they report and whether they call `t.Fatal`. Any other side effect is not modelled.
- Config.Apply: the option closures write through a `*TestConfig`. The model returns the updated record, which `Test` assigns back to its local variable. Nothing else ever points to that record, so the two agree. Sharing of slice backing arrays between copies is not modelled; nothing appends once `Test` has returned.
