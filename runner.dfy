/**
 TestSet.Run: every configuration becomes one sub-test, and each sub-test runs its
 prechecks, builds the request, applies the modifiers, dispatches the request to the
 handler, runs the assertions and runs the postchecks, in that order. What a sub-test
 reports is recorded as a trace of events, an error count and a fatal flag.
 */
module Runner {
  import opened Http
  import opened Assertions
  import opened Config

  datatype Phase = Pre | Post

  /** One step of a sub-test, in the order it happened. */
  datatype Event =
    | Checked(phase: Phase, check: Check)
    | Built(request: Request)
    | BuildFailed
    | Modified(modifier: Modifier)
    | Dispatched(request: Request, response: Response)
    | Asserted(assertion: Assertion, errors: nat)

  /** The part of a sub-test's report produced so far; `fatal` is set once t.Fatal has run. */
  datatype Progress = Progress(events: seq<Event>, errors: nat, fatal: bool)

  /** What one sub-test reports under its name: its trace, its t.Errorf count, whether t.Fatal ended it. */
  datatype SubTest = SubTest(name: string, events: seq<Event>, errors: nat, fatal: bool)
  {
    predicate Failed() { errors > 0 || fatal }
  }

  /** p followed by q. */
  function Then(p: Progress, q: Progress): Progress
  {
    Progress(p.events + q.events, p.errors + q.errors, q.fatal)
  }

  lemma ThenAssociates(p: Progress, q: Progress, r: Progress)
    ensures Then(p, Then(q, r)) == Then(Then(p, q), r)
  {
  }

  /**
   Running a list of checks in order. A check that calls t.Fatal ends the sub-test, so the
   checks run are those up to and including the first fatal one.
   */
  function RunChecks(phase: Phase, checks: seq<Check>): (p: Progress)
    ensures |p.events| <= |checks|
  {
    if checks == [] then Progress([], 0, false)
    else
      var c := checks[0];
      if c.fatal then Progress([Checked(phase, c)], c.errors, true)
      else Then(Progress([Checked(phase, c)], c.errors, false), RunChecks(phase, checks[1..]))
  }

  /**
   The checks run are a prefix of the list, each recorded once and in list order: all of
   them when none calls t.Fatal, otherwise those up to and including the first that does.
   */
  lemma {:induction false} ChecksStopAtFirstFatal(phase: Phase, checks: seq<Check>)
    ensures var p := RunChecks(phase, checks);
      && (forall i :: 0 <= i < |p.events| ==> p.events[i] == Checked(phase, checks[i]))
      && (forall i :: 0 <= i < |p.events| - 1 ==> !checks[i].fatal)
      && (p.fatal ==> |p.events| > 0 && checks[|p.events| - 1].fatal)
      && (!p.fatal ==> |p.events| == |checks| && forall i :: 0 <= i < |checks| ==> !checks[i].fatal)
  {
    if checks != [] && !checks[0].fatal {
      var rest := RunChecks(phase, checks[1..]);
      ChecksStopAtFirstFatal(phase, checks[1..]);
      var p := RunChecks(phase, checks);
      assert p.events == [Checked(phase, checks[0])] + rest.events;
      assert p.fatal == rest.fatal;
      assert forall i :: 1 <= i < |checks| ==> checks[1..][i - 1] == checks[i];
    }
  }

  /** A phase of checks reports no error exactly when none of the checks it ran reported one. */
  lemma {:induction false} ChecksErrors(phase: Phase, checks: seq<Check>)
    ensures var p := RunChecks(phase, checks);
      p.errors == 0 <==> forall i :: 0 <= i < |p.events| ==> checks[i].errors == 0
  {
    if checks != [] && !checks[0].fatal {
      var rest := RunChecks(phase, checks[1..]);
      ChecksErrors(phase, checks[1..]);
      var p := RunChecks(phase, checks);
      assert |p.events| == 1 + |rest.events|;
      assert p.errors == checks[0].errors + rest.errors;
      assert forall i :: 1 <= i < |p.events| ==> checks[1..][i - 1] == checks[i];
    }
  }

  /**
   Every assertion runs, in list order, each recorded with the errors it reported, and the
   phase reports no error exactly when every assertion holds.
   */
  lemma {:induction false} AssertionsAllRun(assertions: seq<Assertion>, r: Response, matches: (string, string) -> bool)
    ensures var p := RunAssertions(assertions, r, matches);
      && (forall i :: 0 <= i < |p.events| ==>
            p.events[i] == Asserted(assertions[i], Errors(assertions[i], r, matches)))
      && (p.errors == 0 <==> forall i :: 0 <= i < |assertions| ==> Holds(assertions[i], r, matches))
  {
    if assertions != [] {
      AssertionsAllRun(assertions[1..], r, matches);
      assert forall i :: 1 <= i < |assertions| ==> assertions[1..][i - 1] == assertions[i];
    }
  }

  /** The request after the modifiers have run on it, first to last. */
  function ApplyModifiers(req: Request, modifiers: seq<Modifier>): (r: Request)
    ensures r.httpMethod == req.httpMethod && r.url == req.url && r.body == req.body
    decreases |modifiers|
  {
    if modifiers == [] then req else ApplyModifiers(Modify(req, modifiers[0]), modifiers[1..])
  }

  /** The trace the modifiers leave, one event each. */
  function ModifierEvents(modifiers: seq<Modifier>): (ev: seq<Event>)
    ensures |ev| == |modifiers|
  {
    if modifiers == [] then [] else [Modified(modifiers[0])] + ModifierEvents(modifiers[1..])
  }

  /** The modifiers are recorded in the order they were declared. */
  lemma {:induction false} ModifiersInOrder(modifiers: seq<Modifier>)
    ensures var ev := ModifierEvents(modifiers);
      forall i :: 0 <= i < |ev| ==> ev[i] == Modified(modifiers[i])
  {
    if modifiers != [] {
      ModifiersInOrder(modifiers[1..]);
      var ev := ModifierEvents(modifiers);
      assert forall i :: 1 <= i < |ev| ==> ev[i] == ModifierEvents(modifiers[1..])[i - 1];
    }
  }

  /**
   Running the assertions against the recorded response. Each runs, whatever the ones
   before it reported, and none is fatal.
   */
  function RunAssertions(assertions: seq<Assertion>, r: Response, matches: (string, string) -> bool): (p: Progress)
    ensures !p.fatal && |p.events| == |assertions|
  {
    if assertions == [] then Progress([], 0, false)
    else
      var a := assertions[0];
      Then(Progress([Asserted(a, Errors(a, r, matches))], Errors(a, r, matches), false),
        RunAssertions(assertions[1..], r, matches))
  }

  /** What the sub-test for one configuration reports. */
  function CaseOutcome(test: TestConfig, handler: Request -> Response, lib: Library): (r: SubTest)
    ensures r.name == test.name
  {
    var pre := RunChecks(Pre, test.precheck);
    if pre.fatal then SubTest(test.name, pre.events, pre.errors, true)
    else match NewRequest(lib, test.httpMethod, test.route, test.body)
      case None => SubTest(test.name, pre.events + [BuildFailed], pre.errors, true)
      case Some(req) =>
        var sent := ApplyModifiers(req, test.modifiers);
        var response := handler(sent);
        var checked := RunAssertions(test.assertions, response, lib.matches);
        var post := RunChecks(Post, test.postcheck);
        SubTest(test.name,
          pre.events + [Built(req)] + ModifierEvents(test.modifiers) + [Dispatched(sent, response)]
            + checked.events + post.events,
          pre.errors + checked.errors + post.errors,
          post.fatal)
  }

  /** The loop over a list of checks; it stops at the first check that calls t.Fatal. */
  method RunCheckList(phase: Phase, checks: seq<Check>) returns (p: Progress)
    ensures p == RunChecks(phase, checks)
  {
    p := Progress([], 0, false);
    for i := 0 to |checks|
      invariant !p.fatal
      invariant RunChecks(phase, checks) == Then(p, RunChecks(phase, checks[i..]))
    {
      var check := checks[i];
      assert checks[i..][1..] == checks[i + 1..];
      ThenAssociates(p, Progress([Checked(phase, check)], check.errors, false), RunChecks(phase, checks[i + 1..]));
      p := Progress(p.events + [Checked(phase, check)], p.errors + check.errors, check.fatal);
      if check.fatal {
        return;
      }
    }
  }

  /** The loop over the modifiers, each run on the request in place. */
  method ApplyModifierList(req: Request, modifiers: seq<Modifier>) returns (sent: Request, events: seq<Event>)
    ensures sent == ApplyModifiers(req, modifiers)
    ensures events == ModifierEvents(modifiers)
  {
    sent, events := req, [];
    for i := 0 to |modifiers|
      invariant ApplyModifiers(sent, modifiers[i..]) == ApplyModifiers(req, modifiers)
      invariant events + ModifierEvents(modifiers[i..]) == ModifierEvents(modifiers)
    {
      var modifier := modifiers[i];
      sent := Modify(sent, modifier);
      events := events + [Modified(modifier)];
    }
  }

  /** The loop over the assertions; every one runs against the recorded response. */
  method RunAssertionList(assertions: seq<Assertion>, response: Response, matches: (string, string) -> bool)
    returns (p: Progress)
    ensures p == RunAssertions(assertions, response, matches)
  {
    p := Progress([], 0, false);
    for i := 0 to |assertions|
      invariant !p.fatal
      invariant RunAssertions(assertions, response, matches) == Then(p, RunAssertions(assertions[i..], response, matches))
    {
      var assertion := assertions[i];
      var n := Errors(assertion, response, matches);
      assert assertions[i..][1..] == assertions[i + 1..];
      ThenAssociates(p, Progress([Asserted(assertion, n)], n, false), RunAssertions(assertions[i + 1..], response, matches));
      p := Progress(p.events + [Asserted(assertion, n)], p.errors + n, false);
    }
  }

  /** The body of the sub-test that Run starts for one configuration. */
  method RunCase(test: TestConfig, handler: Request -> Response, lib: Library) returns (report: SubTest)
    ensures report == CaseOutcome(test, handler, lib)
  {
    var pre := RunCheckList(Pre, test.precheck);
    if pre.fatal {
      return SubTest(test.name, pre.events, pre.errors, true);
    }
    var built := NewRequest(lib, test.httpMethod, test.route, test.body);
    if built.None? {
      return SubTest(test.name, pre.events + [BuildFailed], pre.errors, true);
    }
    var req := built.value;
    var sent, modified := ApplyModifierList(req, test.modifiers);
    var response := handler(sent);
    var checked := RunAssertionList(test.assertions, response, lib.matches);
    var post := RunCheckList(Post, test.postcheck);
    report := SubTest(test.name,
      pre.events + [Built(req)] + modified + [Dispatched(sent, response)] + checked.events + post.events,
      pre.errors + checked.errors + post.errors,
      post.fatal);
  }

  /** TestSet.Run: one sub-test per configuration, in set order, named after it. */
  method Run(tests: TestSet, handler: Request -> Response, lib: Library) returns (reports: seq<SubTest>)
    ensures |reports| == |tests|
    ensures forall i :: 0 <= i < |tests| ==> reports[i] == CaseOutcome(tests[i], handler, lib)
    ensures forall i :: 0 <= i < |tests| ==> reports[i].name == tests[i].name
  {
    reports := [];
    for i := 0 to |tests|
      invariant |reports| == i
      invariant forall j :: 0 <= j < i ==> reports[j] == CaseOutcome(tests[j], handler, lib)
    {
      var report := RunCase(tests[i], handler, lib);
      reports := reports + [report];
    }
  }
  // Properties of a sub-test's header edits.

  /** A header that no modifier names keeps the values it had when the request was built. */
  lemma {:induction false} UntouchedHeaderKept(req: Request, modifiers: seq<Modifier>, name: string)
    requires forall j :: 0 <= j < |modifiers| ==> modifiers[j].header != name
    ensures var h := ApplyModifiers(req, modifiers).header;
      (name in h <==> name in req.header) && (name in h ==> h[name] == req.header[name])
    decreases |modifiers|
  {
    if modifiers != [] {
      assert forall j :: 0 <= j < |modifiers| - 1 ==> modifiers[1..][j] == modifiers[j + 1];
      UntouchedHeaderKept(Modify(req, modifiers[0]), modifiers[1..], name);
    }
  }

  /**
   Header.Set replaces: a header ends with the value of the last modifier that sets it,
   whatever earlier modifiers set it to.
   */
  lemma {:induction false} LastModifierWins(req: Request, modifiers: seq<Modifier>, i: nat)
    requires i < |modifiers|
    requires forall j :: i < j < |modifiers| ==> modifiers[j].header != modifiers[i].header
    ensures var h := ApplyModifiers(req, modifiers).header;
      && modifiers[i].header in h && h[modifiers[i].header] == [modifiers[i].value]
      && Get(h, modifiers[i].header) == modifiers[i].value
    decreases |modifiers|
  {
    assert forall j :: 0 <= j < |modifiers| - 1 ==> modifiers[1..][j] == modifiers[j + 1];
    if i == 0 {
      UntouchedHeaderKept(Modify(req, modifiers[0]), modifiers[1..], modifiers[0].header);
    } else {
      LastModifierWins(Modify(req, modifiers[0]), modifiers[1..], i - 1);
    }
  }

  // Properties of a sub-test's trace.

  /** The step of the sub-test an event belongs to, in the order the steps run. */
  function Rank(e: Event): nat
  {
    match e
    case Checked(Pre, _) => 0
    case Built(_) => 1
    case BuildFailed => 1
    case Modified(_) => 2
    case Dispatched(_, _) => 3
    case Asserted(_, _) => 4
    case Checked(Post, _) => 5
  }

  predicate InOrder(events: seq<Event>)
  {
    forall i, j :: 0 <= i < j < |events| ==> Rank(events[i]) <= Rank(events[j])
  }

  lemma AppendStep(a: seq<Event>, b: seq<Event>, k: nat)
    requires InOrder(a) && forall e :: e in a ==> Rank(e) <= k
    requires forall e :: e in b ==> Rank(e) == k
    ensures InOrder(a + b) && forall e :: e in a + b ==> Rank(e) <= k
  {
  }

  lemma ChecksRank(phase: Phase, checks: seq<Check>)
    ensures forall e :: e in RunChecks(phase, checks).events ==> Rank(e) == if phase == Pre then 0 else 5
  {
  }

  lemma {:induction false} ModifiersRank(modifiers: seq<Modifier>)
    ensures forall e :: e in ModifierEvents(modifiers) ==> Rank(e) == 2
  {
    if modifiers != [] {
      ModifiersRank(modifiers[1..]);
    }
  }

  lemma AssertionsRank(assertions: seq<Assertion>, r: Response, matches: (string, string) -> bool)
    ensures forall e :: e in RunAssertions(assertions, r, matches).events ==> Rank(e) == 4
  {
  }

  /**
   Within a sub-test the trace runs prechecks, then the request build, then the modifiers,
   then the dispatch, then the assertions, then the postchecks; it never goes back a step.
   */
  lemma StepsInOrder(test: TestConfig, handler: Request -> Response, lib: Library)
    ensures InOrder(CaseOutcome(test, handler, lib).events)
  {
    var pre := RunChecks(Pre, test.precheck);
    ChecksRank(Pre, test.precheck);
    AppendStep([], pre.events, 0);
    assert [] + pre.events == pre.events;
    if !pre.fatal {
      var built := NewRequest(lib, test.httpMethod, test.route, test.body);
      if built.None? {
        AppendStep(pre.events, [BuildFailed], 1);
      } else {
        var req := built.value;
        var sent := ApplyModifiers(req, test.modifiers);
        var response := handler(sent);
        var checked := RunAssertions(test.assertions, response, lib.matches);
        var post := RunChecks(Post, test.postcheck);
        var e1 := pre.events + [Built(req)];
        AppendStep(pre.events, [Built(req)], 1);
        var e2 := e1 + ModifierEvents(test.modifiers);
        ModifiersRank(test.modifiers);
        AppendStep(e1, ModifierEvents(test.modifiers), 2);
        var e3 := e2 + [Dispatched(sent, response)];
        AppendStep(e2, [Dispatched(sent, response)], 3);
        var e4 := e3 + checked.events;
        AssertionsRank(test.assertions, response, lib.matches);
        AppendStep(e3, checked.events, 4);
        ChecksRank(Post, test.postcheck);
        AppendStep(e4, post.events, 5);
        assert CaseOutcome(test, handler, lib).events == e4 + post.events;
      }
    }
  }

  /** The prechecks do not end the sub-test and http.NewRequest accepts the method and route. */
  predicate Reaches(test: TestConfig, lib: Library)
  {
    !RunChecks(Pre, test.precheck).fatal && lib.accepts(test.httpMethod, test.route)
  }

  predicate NoDispatch(events: seq<Event>)
  {
    forall e :: e in events ==> !e.Dispatched?
  }

  lemma SingleDispatch(before: seq<Event>, d: Event, after: seq<Event>, last: seq<Event>)
    requires NoDispatch(before) && d.Dispatched? && NoDispatch(after) && NoDispatch(last)
    ensures var ev := before + [d] + after + last;
      && (exists i :: 0 <= i < |ev| && ev[i].Dispatched?)
      && (forall i, j :: 0 <= i < |ev| && 0 <= j < |ev| && ev[i].Dispatched? && ev[j].Dispatched? ==> i == j)
  {
    var ev := before + [d] + after + last;
    assert ev[|before|] == d;
    forall i | 0 <= i < |ev| && i != |before|
      ensures !ev[i].Dispatched?
    {
      if i < |before| {
        assert ev[i] in before;
      } else if i < |before| + 1 + |after| {
        assert ev[i] == after[i - |before| - 1];
      } else {
        assert ev[i] == last[i - |before| - 1 - |after|];
      }
    }
  }

  lemma DispatchedWhenReached(test: TestConfig, handler: Request -> Response, lib: Library)
    requires Reaches(test, lib)
    ensures var ev := CaseOutcome(test, handler, lib).events;
      && (exists i :: 0 <= i < |ev| && ev[i].Dispatched?)
      && (forall i, j :: 0 <= i < |ev| && 0 <= j < |ev| && ev[i].Dispatched? && ev[j].Dispatched? ==> i == j)
  {
    var pre := RunChecks(Pre, test.precheck);
    var req := NewRequest(lib, test.httpMethod, test.route, test.body).value;
    var sent := ApplyModifiers(req, test.modifiers);
    var response := handler(sent);
    var checked := RunAssertions(test.assertions, response, lib.matches);
    var post := RunChecks(Post, test.postcheck);
    ChecksRank(Pre, test.precheck);
    ModifiersRank(test.modifiers);
    AssertionsRank(test.assertions, response, lib.matches);
    ChecksRank(Post, test.postcheck);
    var before := pre.events + [Built(req)] + ModifierEvents(test.modifiers);
    assert NoDispatch(before);
    assert NoDispatch(checked.events);
    assert NoDispatch(post.events);
    SingleDispatch(before, Dispatched(sent, response), checked.events, post.events);
  }

  /** The handler is called once when the sub-test gets that far, and otherwise not at all. */
  lemma DispatchedOnce(test: TestConfig, handler: Request -> Response, lib: Library)
    ensures var ev := CaseOutcome(test, handler, lib).events;
      && (Reaches(test, lib) <==> exists i :: 0 <= i < |ev| && ev[i].Dispatched?)
      && (forall i, j :: 0 <= i < |ev| && 0 <= j < |ev| && ev[i].Dispatched? && ev[j].Dispatched? ==> i == j)
  {
    if Reaches(test, lib) {
      DispatchedWhenReached(test, handler, lib);
    } else {
      ChecksRank(Pre, test.precheck);
      assert NoDispatch(CaseOutcome(test, handler, lib).events);
    }
  }

  /**
   A request that cannot be built is fatal to its sub-test: the trace stops at the failed
   build, so no modifier, dispatch, assertion or postcheck runs.
   */
  lemma BuildFailureEndsCase(test: TestConfig, handler: Request -> Response, lib: Library)
    requires !RunChecks(Pre, test.precheck).fatal && !lib.accepts(test.httpMethod, test.route)
    ensures var r := CaseOutcome(test, handler, lib);
      && r.fatal && r.Failed()
      && |r.events| == |test.precheck| + 1
      && r.events[|test.precheck|] == BuildFailed
      && forall i :: 0 <= i < |test.precheck| ==> r.events[i] == Checked(Pre, test.precheck[i])
  {
    ChecksStopAtFirstFatal(Pre, test.precheck);
  }

  /**
   Once the handler has been called, the sub-test fails exactly when a precheck reported an
   error, an assertion does not hold of the response, or a postcheck reported an error or
   called t.Fatal.
   */
  lemma FailsExactlyWhen(test: TestConfig, handler: Request -> Response, lib: Library)
    requires Reaches(test, lib)
    ensures var response := handler(ApplyModifiers(Request(test.httpMethod, test.route, test.body, map[]), test.modifiers));
      CaseOutcome(test, handler, lib).Failed() <==>
        || (exists i :: 0 <= i < |test.precheck| && test.precheck[i].errors > 0)
        || (exists i :: 0 <= i < |test.assertions| && !Holds(test.assertions[i], response, lib.matches))
        || (exists i :: 0 <= i < |test.postcheck| && (test.postcheck[i].errors > 0 || test.postcheck[i].fatal))
  {
    var response := handler(ApplyModifiers(Request(test.httpMethod, test.route, test.body, map[]), test.modifiers));
    ChecksStopAtFirstFatal(Pre, test.precheck);
    ChecksErrors(Pre, test.precheck);
    ChecksStopAtFirstFatal(Post, test.postcheck);
    ChecksErrors(Post, test.postcheck);
    AssertionsAllRun(test.assertions, response, lib.matches);
    var post := RunChecks(Post, test.postcheck);
    if !post.fatal && post.errors == 0 {
      forall i | 0 <= i < |test.postcheck|
        ensures test.postcheck[i].errors == 0 && !test.postcheck[i].fatal
      {
      }
    }
    if exists i :: 0 <= i < |test.postcheck| && (test.postcheck[i].errors > 0 || test.postcheck[i].fatal) {
      if !post.fatal {
        assert post.errors > 0;
      }
    }
  }
}
