/**
  The values the harness passes around: what one interpreter run produced,
  a test case, and what applying a test's assertions to a run gave.
 */
module Records {

  /** What running one `.lox` file produced: both captured streams, verbatim, and the exit status. */
  datatype ExecutionResult = ExecutionResult(stdout: string, stderr: string, exitCode: int)

  /**
    What a test's assertions did with a run: completed (`Pass`), raised an
    `AssertionError` carrying `message` (`Fail`), or raised any other
    exception, which nothing in the harness catches (`Abort`).
   */
  datatype Outcome = Pass | Fail(message: string) | Abort(error: string)

  /** A test: its display name, the `.lox` file to run, and the assertions to apply to the run. */
  datatype TestCase = TestCase(name: string, loxFile: string, assertions: ExecutionResult -> Outcome)

  /** What launching the interpreter on one file gave: a finished run, or an error raised by the launch itself. */
  datatype Launch = Launched(result: ExecutionResult) | LaunchError(reason: string)

  /** The interpreter, seen from the harness: a `.lox` file path in, a launch out. */
  type Runner = string -> Launch

  /**
    What `run_test` meets for `test`: a launch error propagates as an abort;
    otherwise the outcome of the assertions on the captured run.
   */
  function Evaluate(runner: Runner, test: TestCase): Outcome {
    match runner(test.loxFile)
    case LaunchError(reason) => Abort(reason)
    case Launched(result) => test.assertions(result)
  }
}
