/**
  Small suites run through `TestHarness` with a stubbed interpreter, showing
  what the harness reports for each.
 */
module Scenarios {
  import opened Results
  import opened Records
  import opened Harness
  import ExampleTests

  /** An interpreter that prints `out` and exits with `code`, whatever file it is given. */
  function Stub(out: string, code: int): Runner {
    (path: string) => Launched(ExecutionResult(out, "", code))
  }

  /** Assertions that always complete. */
  function AlwaysPass(res: ExecutionResult): Outcome {
    Pass
  }

  /** Assertions that always raise `AssertionError("no")`. */
  function AlwaysFail(res: ExecutionResult): Outcome {
    Fail("no")
  }

  /** A suite of one case runs just that case. */
  lemma RunOne(t: Tally, test: TestCase, runner: Runner)
    ensures RunAll(t, [test], runner) == Record(t, test.name, Evaluate(runner, test))
  {
  }

  /** What `test_hello` says of the two stubbed runs below. */
  lemma HelloVerdicts()
    ensures ExampleTests.TestHello(ExecutionResult("hello world\n", "", 0)) == Pass
    ensures ExampleTests.TestHello(ExecutionResult("hello world\n", "", 1)) == Fail("Expected exit code 0, got 1")
  {
  }

  /** The summary lines the scenarios below end with. */
  lemma SummaryLines()
    ensures SummaryText(1, 0) == "\n1/1 tests passed"
    ensures SummaryText(0, 1) == "\n0/1 tests passed"
    ensures SummaryText(3, 1) == "\n3/4 tests passed"
    ensures SummaryText(0, 0) == "\n0/0 tests passed"
    ensures SummaryText(1, 1) == "\n1/2 tests passed"
  {
  }

  /** A one-case suite whose interpreter prints `hello world` and exits with 0 passes and reports 1/1. */
  method HelloPasses() returns (r: Result<bool, string>, summary: string)
    ensures r == Ok(true) && summary == "\n1/1 tests passed"
  {
    var h := new TestHarness(Stub("hello world\n", 0));
    var test := TestCase("hello", "hello.lox", ExampleTests.TestHello);
    HelloVerdicts();
    SummaryLines();
    RunOne(Fresh, test, h.runner);
    r := h.RunTests([test]);
    summary := h.Summary();
  }

  /** The same suite with exit status 1 fails on the exit-status check and reports 0/1. */
  method HelloFailsOnExitStatus() returns (r: Result<bool, string>, summary: string, failures: seq<(string, string)>)
    ensures r == Ok(false) && summary == "\n0/1 tests passed"
    ensures failures == [("hello", "Expected exit code 0, got 1")]
  {
    var h := new TestHarness(Stub("hello world\n", 1));
    var test := TestCase("hello", "hello.lox", ExampleTests.TestHello);
    HelloVerdicts();
    SummaryLines();
    RunOne(Fresh, test, h.runner);
    r := h.RunTests([test]);
    summary := h.Summary();
    failures := h.failures;
  }

  /** Four cases whose third fails: the others still run, and the report is 3/4. */
  method ThirdOfFourFails() returns (r: Result<bool, string>, summary: string, failures: seq<(string, string)>)
    ensures r == Ok(false) && summary == "\n3/4 tests passed"
    ensures failures == [("c", "Expected 7 (10-3) in output")]
  {
    var h := new TestHarness(Stub("3 6\n", 0));
    var tests := [TestCase("a", "a.lox", AlwaysPass), TestCase("b", "b.lox", AlwaysPass),
                  TestCase("c", "c.lox", ExampleTests.TestArithmetic), TestCase("d", "d.lox", AlwaysPass)];
    assert '3' in "3 6\n" && '7' !in "3 6\n";
    SummaryLines();
    RunAllSteps(tests, h.runner);
    r := h.RunTests(tests);
    summary := h.Summary();
    failures := h.failures;
  }

  /** Unfolds the run of the four cases of `ThirdOfFourFails` one case at a time. */
  lemma RunAllSteps(tests: seq<TestCase>, runner: Runner)
    requires |tests| == 4
    requires forall j :: 0 <= j < 4 && j != 2 ==> Evaluate(runner, tests[j]).Pass?
    requires Evaluate(runner, tests[2]) == Fail("Expected 7 (10-3) in output")
    ensures RunAll(Fresh, tests, runner) == Done(Tally(3, 1, [(tests[2].name, "Expected 7 (10-3) in output")]))
  {
    var t1 := Tally(1, 0, []);
    var t2 := Tally(2, 0, []);
    var t3 := Tally(2, 1, [(tests[2].name, "Expected 7 (10-3) in output")]);
    assert tests[1..][1..][1..][1..] == [];
    assert tests[1..][0] == tests[1] && tests[1..][1..][0] == tests[2] && tests[1..][1..][1..][0] == tests[3];
    assert RunAll(t3, tests[1..][1..][1..], runner) == Done(t3.(passed := 3));
    assert Record(t2, tests[2].name, Evaluate(runner, tests[2])) == Done(t3);
    assert RunAll(t2, tests[1..][1..], runner) == RunAll(t3, tests[1..][1..][1..], runner);
    assert RunAll(t1, tests[1..], runner) == RunAll(t2, tests[1..][1..], runner);
  }

  /** An empty suite passes and reports 0/0. */
  method EmptySuite() returns (r: Result<bool, string>, summary: string)
    ensures r == Ok(true) && summary == "\n0/0 tests passed"
  {
    var h := new TestHarness(Stub("", 0));
    SummaryLines();
    r := h.RunTests([]);
    summary := h.Summary();
  }

  /**
    An interpreter that cannot be launched for the second of three cases: the
    launch error escapes, the third case never runs, and only the first is counted.
   */
  method LaunchErrorStopsSuite() returns (r: Result<bool, string>, passed: nat, failed: nat)
    ensures r == Err("missing interpreter")
    ensures passed == 1 && failed == 0
  {
    var runner := (path: string) =>
      if path == "b.lox" then LaunchError("missing interpreter") else Launched(ExecutionResult("", "", 0));
    var h := new TestHarness(runner);
    var tests := [TestCase("a", "a.lox", AlwaysPass), TestCase("b", "b.lox", AlwaysPass), TestCase("c", "c.lox", AlwaysPass)];
    assert tests[1..][1..] == [tests[2]];
    r := h.RunTests(tests);
    passed, failed := h.passed, h.failed;
  }

  /** A harness that has counted a failure keeps answering false, even for a suite that passes. */
  method FailureIsSticky() returns (first: Result<bool, string>, second: Result<bool, string>, summary: string)
    ensures first == Ok(false) && second == Ok(false)
    ensures summary == "\n1/2 tests passed"
  {
    var h := new TestHarness(Stub("", 0));
    var failing := TestCase("x", "x.lox", AlwaysFail);
    var passing := TestCase("y", "y.lox", AlwaysPass);
    assert Evaluate(h.runner, failing) == Fail("no");
    assert Evaluate(h.runner, passing) == Pass;
    RunOne(Fresh, failing, h.runner);
    first := h.RunTests([failing]);
    assert h.State() == Tally(0, 1, [("x", "no")]);
    RunOne(Tally(0, 1, [("x", "no")]), passing, h.runner);
    second := h.RunTests([passing]);
    SummaryLines();
    summary := h.Summary();
  }
}
