/**
  The harness that runs test cases against a lox interpreter, counts passes
  and failures, keeps the failures in order and renders a summary line.
 */
module Harness {
  import opened Results
  import opened Text
  import opened Records

  /** The harness's bookkeeping: both counters and the `(name, message)` failures in the order they happened. */
  datatype Tally = Tally(passed: nat, failed: nat, failures: seq<(string, string)>)

  /** How a run over some cases ended: all completed, or an exception escaped and stopped it. */
  datatype Run = Done(tally: Tally) | Aborted(tally: Tally, error: string)

  /** The bookkeeping of a newly built harness. */
  const Fresh := Tally(0, 0, [])

  /** One failure entry per failure counted. */
  predicate Consistent(t: Tally) {
    |t.failures| == t.failed
  }

  /**
    The effect of one case with outcome `o` on the bookkeeping `t`: an abort
    leaves `t` as it was; otherwise exactly one counter goes up, and a failure
    entry is appended exactly when the case failed.
   */
  function Record(t: Tally, name: string, o: Outcome): (r: Run)
    ensures r.Aborted? <==> o.Abort?
    ensures r.Aborted? ==> r.tally == t && r.error == o.error
    ensures r.Done? ==> r.tally.passed + r.tally.failed == t.passed + t.failed + 1
    ensures o.Pass? <==> r.tally.passed == t.passed + 1
    ensures !o.Pass? ==> r.tally.passed == t.passed
    ensures o.Fail? ==> r.tally.failures == t.failures + [(name, o.message)]
    ensures !o.Fail? ==> r.tally.failures == t.failures
    ensures Consistent(t) ==> Consistent(r.tally)
  {
    match o
    case Pass => Done(t.(passed := t.passed + 1))
    case Fail(message) => Done(t.(failed := t.failed + 1, failures := t.failures + [(name, message)]))
    case Abort(error) => Aborted(t, error)
  }

  /** The cases of `tests` run in order from `t`, stopping at the first that aborts. */
  function RunAll(t: Tally, tests: seq<TestCase>, runner: Runner): Run
    decreases |tests|
  {
    if |tests| == 0 then Done(t)
    else match Record(t, tests[0].name, Evaluate(runner, tests[0]))
      case Aborted(t', error) => Aborted(t', error)
      case Done(t') => RunAll(t', tests[1..], runner)
  }

  /** Running `a + b` is running `a`, then, unless that aborted, running `b` from where `a` left off. */
  lemma {:induction false} RunAllAppend(t: Tally, a: seq<TestCase>, b: seq<TestCase>, runner: Runner)
    decreases |a|
    ensures RunAll(t, a + b, runner) ==
      match RunAll(t, a, runner)
      case Aborted(_, _) => RunAll(t, a, runner)
      case Done(t') => RunAll(t', b, runner)
  {
    if |a| == 0 {
      assert a + b == b;
    } else {
      assert (a + b)[0] == a[0];
      assert (a + b)[1..] == a[1..] + b;
      match Record(t, a[0].name, Evaluate(runner, a[0]))
      case Aborted(_, _) =>
      case Done(t') => RunAllAppend(t', a[1..], b, runner);
    }
  }

  // An independent account of a run, case by case.

  /** How many cases of `tests` complete before the first one that aborts. */
  function Completed(tests: seq<TestCase>, runner: Runner): (k: nat)
    ensures k <= |tests|
    ensures forall j :: 0 <= j < k ==> !Evaluate(runner, tests[j]).Abort?
    ensures k < |tests| ==> Evaluate(runner, tests[k]).Abort?
  {
    if |tests| == 0 then 0
    else if Evaluate(runner, tests[0]).Abort? then 0
    else 1 + Completed(tests[1..], runner)
  }

  /** How many cases of `tests` pass. */
  function PassCount(tests: seq<TestCase>, runner: Runner): nat {
    if |tests| == 0 then 0
    else (if Evaluate(runner, tests[0]).Pass? then 1 else 0) + PassCount(tests[1..], runner)
  }

  /** The `(name, message)` entries of the cases of `tests` that fail, in order. */
  function FailureEntries(tests: seq<TestCase>, runner: Runner): seq<(string, string)> {
    if |tests| == 0 then []
    else
      var rest := FailureEntries(tests[1..], runner);
      match Evaluate(runner, tests[0])
      case Fail(message) => [(tests[0].name, message)] + rest
      case _ => rest
  }

  /**
    A run counts the passes and failures of exactly the cases before the first
    abort, appends their failures in execution order, and aborts exactly when
    some case aborts, with that case's error.
   */
  lemma {:induction false} RunAllReference(t: Tally, tests: seq<TestCase>, runner: Runner)
    ensures var k := Completed(tests, runner);
      var done := tests[..k];
      var run := RunAll(t, tests, runner);
      && run.tally == Tally(t.passed + PassCount(done, runner),
                            t.failed + |FailureEntries(done, runner)|,
                            t.failures + FailureEntries(done, runner))
      && (run.Aborted? <==> k < |tests|)
      && (run.Aborted? ==> run.error == Evaluate(runner, tests[k]).error)
    decreases |tests|
  {
    if |tests| > 0 {
      var k := Completed(tests, runner);
      match Record(t, tests[0].name, Evaluate(runner, tests[0]))
      case Aborted(_, _) =>
        assert tests[..k] == [];
      case Done(t') =>
        RunAllReference(t', tests[1..], runner);
        assert tests[..k][0] == tests[0];
        assert tests[..k][1..] == tests[1..][..k - 1];
    }
  }

  /** Without aborts, every case either passes or leaves one failure entry. */
  lemma {:induction false} PassesAndFailuresCover(tests: seq<TestCase>, runner: Runner)
    requires forall j :: 0 <= j < |tests| ==> !Evaluate(runner, tests[j]).Abort?
    ensures PassCount(tests, runner) + |FailureEntries(tests, runner)| == |tests|
    ensures |FailureEntries(tests, runner)| == 0 <==> forall j :: 0 <= j < |tests| ==> Evaluate(runner, tests[j]).Pass?
  {
    if |tests| > 0 {
      PassesAndFailuresCover(tests[1..], runner);
      assert !Evaluate(runner, tests[0]).Abort?;
      assert forall j :: 1 <= j < |tests| ==> tests[1..][j - 1] == tests[j];
    }
  }

  /** `passed + failed` grows by exactly one per completed case, so by `|tests|` when nothing aborts. */
  lemma RunAllCounts(t: Tally, tests: seq<TestCase>, runner: Runner)
    ensures var run := RunAll(t, tests, runner);
      && run.tally.passed + run.tally.failed == t.passed + t.failed + Completed(tests, runner)
      && (run.Done? ==> run.tally.passed + run.tally.failed == t.passed + t.failed + |tests|)
  {
    RunAllReference(t, tests, runner);
    PassesAndFailuresCover(tests[..Completed(tests, runner)], runner);
  }

  /** Counters only grow and earlier failure entries stay, in place, at the front of the list. */
  lemma RunAllExtends(t: Tally, tests: seq<TestCase>, runner: Runner)
    ensures var u := RunAll(t, tests, runner).tally;
      && t.passed <= u.passed && t.failed <= u.failed
      && |t.failures| <= |u.failures| && u.failures[..|t.failures|] == t.failures
  {
    RunAllReference(t, tests, runner);
  }

  /** A run keeps one failure entry per counted failure. */
  lemma RunAllConsistent(t: Tally, tests: seq<TestCase>, runner: Runner)
    requires Consistent(t)
    ensures Consistent(RunAll(t, tests, runner).tally)
  {
    RunAllReference(t, tests, runner);
  }

  /**
    A run that completes ends with no failures counted exactly when none were
    counted before and every one of its cases passed.
   */
  lemma RunAllVerdict(t: Tally, tests: seq<TestCase>, runner: Runner)
    ensures var run := RunAll(t, tests, runner);
      run.Done? ==>
        (run.tally.failed == 0 <==> t.failed == 0 && forall j :: 0 <= j < |tests| ==> Evaluate(runner, tests[j]).Pass?)
  {
    RunAllReference(t, tests, runner);
    if RunAll(t, tests, runner).Done? {
      assert tests[..Completed(tests, runner)] == tests;
      PassesAndFailuresCover(tests, runner);
    }
  }

  /** The status `main` exits with after the suite: 0 when no failure was counted, 1 otherwise. */
  function ExitStatus(t: Tally): (status: int)
    ensures status == 0 <==> t.failed == 0
    ensures status == 0 || status == 1
  {
    if t.failed == 0 then 0 else 1
  }

  /** From a fresh harness, a suite that completes exits with 0 exactly when every case passed. */
  lemma SuiteExitStatus(tests: seq<TestCase>, runner: Runner)
    ensures var run := RunAll(Fresh, tests, runner);
      run.Done? ==> (ExitStatus(run.tally) == 0 <==> forall j :: 0 <= j < |tests| ==> Evaluate(runner, tests[j]).Pass?)
  {
    RunAllVerdict(Fresh, tests, runner);
  }

  /** The closing report for `passed` passes and `failed` failures. */
  function SummaryText(passed: nat, failed: nat): string {
    "\n" + NatToString(passed) + "/" + NatToString(passed + failed) + " tests passed"
  }

  /** The fixed end of the summary line, after the total. */
  const Tail := " tests passed"

  /** Reads a string of decimal digits, if that is what `s` is. */
  function ParseDecimal(s: string): Option<nat> {
    if 0 < |s| && AllDigits(s) then Some(DecimalValue(s)) else None
  }

  /** Reads back the passed and total counts from a line shaped like a summary. */
  function ParseSummary(s: string): Option<(nat, nat)> {
    if |s| < 1 + |Tail| || s[0] != '\n' || s[|s| - |Tail|..] != Tail then None
    else
      var body := s[1..|s| - |Tail|];
      var k := Find(body, '/');
      if k == |body| then None
      else match (ParseDecimal(body[..k]), ParseDecimal(body[k + 1..]))
        case (Some(passed), Some(total)) => Some((passed, total))
        case _ => None
  }

  /** A summary reads back as its passed count and its total `passed + failed`. */
  lemma SummaryRoundTrip(passed: nat, failed: nat)
    ensures ParseSummary(SummaryText(passed, failed)) == Some((passed, passed + failed))
  {
    var p, q := NatToString(passed), NatToString(passed + failed);
    var s := SummaryText(passed, failed);
    assert s == "\n" + (p + "/" + q) + Tail;
    var body := s[1..|s| - |Tail|];
    assert body == p + "/" + q;
    assert s[|s| - |Tail|..] == Tail;
    var k := Find(body, '/');
    assert body[|p|] == '/';
    assert forall j :: 0 <= j < |p| ==> body[j] == p[j];
    assert k == |p|;
    assert body[..k] == p;
    assert body[k + 1..] == q;
  }

  /** The state of `TestHarness`: its two counters and its list of failures. */
  class TestHarness {
    const runner: Runner
    var passed: nat
    var failed: nat
    var failures: seq<(string, string)>

    function State(): Tally
      reads this
    {
      Tally(passed, failed, failures)
    }

    ghost predicate Valid()
      reads this
    {
      Consistent(State())
    }

    constructor (runner: Runner)
      ensures this.runner == runner
      ensures State() == Fresh
      ensures Valid()
    {
      this.runner := runner;
      passed := 0;
      failed := 0;
      failures := [];
    }

    /**
      Runs one case: a pass adds one to `passed`; a failure adds one to `failed`
      and appends `(test.name, message)`; an abort changes nothing and returns its error.
      The boolean is whether the case passed.
     */
    method RunTest(test: TestCase) returns (r: Result<bool, string>)
      modifies this
      ensures match Evaluate(runner, test)
        case Pass =>
          r == Ok(true) && passed == old(passed) + 1 && failed == old(failed) && failures == old(failures)
        case Fail(message) =>
          && r == Ok(false) && passed == old(passed) && failed == old(failed) + 1
          && failures == old(failures) + [(test.name, message)]
        case Abort(error) =>
          r == Err(error) && passed == old(passed) && failed == old(failed) && failures == old(failures)
      ensures old(Valid()) ==> Valid()
    {
      var launch := runner(test.loxFile);
      if launch.LaunchError? {
        return Err(launch.reason);
      }
      var outcome := test.assertions(launch.result);
      match outcome
      case Pass =>
        passed := passed + 1;
        r := Ok(true);
      case Fail(message) =>
        failed := failed + 1;
        failures := failures + [(test.name, message)];
        r := Ok(false);
      case Abort(error) =>
        r := Err(error);
    }

    /**
      Runs `tests` in order. The boolean is whether no failure has been counted
      over the harness's whole life, not just in this call.
     */
    method RunTests(tests: seq<TestCase>) returns (r: Result<bool, string>)
      modifies this
      ensures var run := RunAll(old(State()), tests, runner);
        && State() == run.tally
        && r == (if run.Aborted? then Err(run.error) else Ok(failed == 0))
      ensures passed + failed == old(passed + failed) + Completed(tests, runner)
      ensures old(Valid()) ==> Valid()
    {
      ghost var start := State();
      var i := 0;
      while i < |tests|
        invariant 0 <= i <= |tests|
        invariant RunAll(start, tests[..i], runner) == Done(State())
      {
        var step := RunTest(tests[i]);
        RunAllAppend(start, tests[..i], [tests[i]], runner);
        assert tests[..i + 1] == tests[..i] + [tests[i]];
        if step.Err? {
          RunAllAppend(start, tests[..i + 1], tests[i + 1..], runner);
          assert tests == tests[..i + 1] + tests[i + 1..];
          RunAllCounts(start, tests, runner);
          if Consistent(start) {
            RunAllConsistent(start, tests, runner);
          }
          return Err(step.error);
        }
        i := i + 1;
      }
      assert tests[..i] == tests;
      RunAllCounts(start, tests, runner);
      if Consistent(start) {
        RunAllConsistent(start, tests, runner);
      }
      r := Ok(failed == 0);
    }

    /** The closing line `"\n<passed>/<passed + failed> tests passed"`; it reads back as those two counts. */
    function Summary(): (s: string)
      reads this
      ensures ParseSummary(s) == Some((passed, passed + failed))
    {
      SummaryRoundTrip(passed, failed);
      SummaryText(passed, failed)
    }
  }
}
