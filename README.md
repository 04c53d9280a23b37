# Lox test harness, modelled in Dafny

This project models the test harness of a lox interpreter project. The harness runs `.lox` files through an
interpreter, applies an assertion routine to each run's captured output, and keeps its own bookkeeping.
The model covers five parts:

- **Records** (`records.dfy`): an `ExecutionResult` holds standard output, standard error and the exit status.
  A `TestCase` holds a display name, a `.lox` path and an assertion routine. Applying a routine gives an
  `Outcome`: `Pass`, `Fail(message)` for an `AssertionError`, or `Abort(error)` for any other exception.
  The interpreter is a `Runner`, a function from a path to a `Launch`. A launch either finished with a result
  or raised a launch error.
- **Harness** (`harness.dfy`): the class `TestHarness` has the source's fields `passed`, `failed` and
  `failures`. `RunTest` and `RunTests` update those fields in place. `Summary` renders the closing line.
  `RunTests` is proved against `RunAll`, a fold over the cases. `RunAll` is in turn proved equal to an
  independent count per case (`RunAllReference`). The listed properties follow from those two facts:
  - counter sums;
  - `|failures| == failed`;
  - failures kept in execution order;
  - the boolean result, including that a recorded failure is never forgotten;
  - the summary reads back as its counts.
- **Example tests** (`example_tests.dfy`): the four assertion routines are functions to
  `Outcome`. Each contract says when the routine passes and which message its first failing check gives.
  This module also holds the name and key derivation that `parse_test_case` does.
- **Text** (`text.dfy`): the Python string operations these rely on:
  - `str.strip()`, with Python's whitespace set;
  - the `in` operator on strings;
  - `str.replace(pat, "")`;
  - `str(n)`.
- **Scenarios** (`scenarios.dfy`): small suites run through the class with a stubbed interpreter:
  - a passing hello-world case (`1/1`);
  - the same case failing on its exit status (`0/1`);
  - four cases with the third failing (`3/4`);
  - an empty suite (`0/0`);
  - a launch error;
  - a failure that outlives its own call.

Where the design intent and the code differ, the model follows the code:

- A launch error is not recorded as a failure of its case, and neither is an exception other than
  `AssertionError` raised by an assertion routine. The code catches only `AssertionError`
  (tests/run_tests.py:72). Anything else propagates out of `run_test` and `run_tests`. It stops the suite
  and leaves the counters as the earlier cases left them. The model calls this an abort
  (`Scenarios.LaunchErrorStopsSuite`).
- `run_tests` returns whether `failed` is 0 over the harness's whole life, not only within that call
  (`Scenarios.FailureIsSticky`).

## Model

| member | source | states |
|---|---|---|
| `Harness.TestHarness.constructor` | tests/run_tests.py:58-62 | A new harness has `passed == 0`, `failed == 0`, no failures, and the invariant `|failures| == failed`. |
| `Harness.TestHarness.RunTest` | tests/run_tests.py:64-77 | A pass adds 1 to `passed` and changes nothing else. A failure adds 1 to `failed` and appends `(test.name, message)` at the end. An abort changes nothing and returns its error. The boolean is true exactly when the assertion completed. The invariant `|failures| == failed` is kept. |
| `Harness.TestHarness.RunTests` | tests/run_tests.py:79-83 | The new state is the fold `RunAll` of the cases over the old state. The result is the abort's error if a case aborted, otherwise `failed == 0` over the harness's whole life. `passed + failed` grows by the number of completed cases. The invariant is kept. |
| `Harness.TestHarness.Summary` | tests/run_tests.py:85-88 | The summary line reads back as `(passed, passed + failed)`. It is a function, so it changes no state. |
| `Records.Evaluate` | tests/run_tests.py:66-68 | No contract of its own: it is the definition "a launch error aborts; otherwise apply the assertions to the captured run". Its effect on the bookkeeping is stated by `Harness.Record`, `Harness.Completed` and `Harness.RunAllReference`. |
| `Harness.Record` | tests/run_tests.py:66-77 | An abort leaves the bookkeeping as it was and carries the outcome's error. Otherwise `passed + failed` grows by exactly one. `passed` grows by one exactly when the case passed and is otherwise unchanged, so a failure moves only `failed`. The `(name, message)` entry is appended exactly when it failed, and otherwise the failure list is unchanged. `|failures| == failed` is kept. |
| `Harness.RunAll` | tests/run_tests.py:81-82 | No contract of its own: it is the fold of `Harness.Record` over the cases, stopping at the first abort. What it computes is stated by `Harness.RunAllAppend`, `Harness.RunAllReference` and the lemmas after it. |
| `Harness.RunAllAppend` | tests/run_tests.py:81-82 | Running `a + b` runs `a`, then runs `b` from the state `a` left, unless `a` aborted. |
| `Harness.Completed` | tests/run_tests.py:66-72 | The number of completed cases is the index of the first case that aborts, or all of them. Every case before it does not abort. |
| `Harness.RunAllReference` | tests/run_tests.py:67-82 | A run adds the pass count of the completed cases to `passed` and their failure count to `failed`. It appends their `(name, message)` failures in execution order. It aborts exactly when some case aborts, with that case's error. |
| `Harness.PassesAndFailuresCover` | tests/run_tests.py:67-77 | With no aborts, passes plus failure entries equal the number of cases. There are no failure entries exactly when every case passes. |
| `Harness.RunAllCounts` | tests/run_tests.py:69-82 | `passed + failed` grows by exactly the completed cases, so by `|tests|` when nothing aborts. |
| `Harness.RunAllExtends` | tests/run_tests.py:69-74 | Both counters only grow. The earlier failure list stays, unchanged, at the front. |
| `Harness.RunAllConsistent` | tests/run_tests.py:62-74 | A run preserves `|failures| == failed`. |
| `Harness.RunAllVerdict` | tests/run_tests.py:83 | A completed run ends with `failed == 0` exactly when none were counted before and every case passed. |
| `Harness.ExitStatus` | tests/run_tests.py:107 | The status is 0 exactly when no failure was counted, and 1 otherwise. |
| `Harness.SuiteExitStatus` | tests/run_tests.py:107 | From a fresh harness, a completed suite exits with status 0 exactly when every case passed. |
| `Harness.SummaryRoundTrip` | tests/run_tests.py:85-88 | `"\n<passed>/<total> tests passed"` parses back to the passed count and the total `passed + failed`. |
| `Text.Strip` | tests/example_tests.py:27 | `strip()` returns a string with no whitespace at either end. The input is that string with only whitespace around it. |
| `Text.StripIsUnpadding` | tests/example_tests.py:24 | For a `t` with no whitespace at its ends, `strip(s) == t` exactly when `s` is `t` with only whitespace around it. |
| `Text.Contains` | tests/example_tests.py:13 | `pat in s` holds exactly when `pat` occurs at some index of `s`. For one character, it holds exactly when the character is in `s`. |
| `Text.RemoveAll` | tests/example_tests.py:42 | `replace(pat, "")` only deletes characters: the result's multiset is within the input's. |
| `Text.RemoveAllAbsent` | tests/example_tests.py:42 | `replace` leaves a string without the pattern unchanged. |
| `Text.RemoveAllSuffix` | tests/example_tests.py:46 | If the only occurrence of `pat` in `s + pat` is the final one, `replace` removes exactly that suffix. |
| `Text.NatToString` | tests/run_tests.py:88 | `str(n)` is non-empty decimal digits and reads back as `n`. The only rendering that starts with `0` is `"0"` itself, so there is no leading zero. |
| `Text.IntToString` | tests/example_tests.py:12 | `str(i)` starts with `-` exactly for negative `i`. Its digits read back as `abs(i)` and have no leading zero. For `i >= 0`, the only rendering that starts with `0` is `"0"` itself. |
| `ExampleTests.TestHello` | tests/example_tests.py:11-13 | Passes exactly when the exit status is 0 and `hello world` occurs in stdout. A non-zero status fails with `Expected exit code 0, got N` whatever stdout is. Otherwise a failure quotes stdout. |
| `ExampleTests.TestArithmetic` | tests/example_tests.py:16-20 | Passes exactly when the exit status is 0 and `3`, `7` and `6` are all in stdout. A failure's message names the first missing check, in the order exit status, 3, 7, 6. |
| `ExampleTests.TestVariableDeclaration` | tests/example_tests.py:22-24 | Passes exactly when the exit status is 0 and stdout is `4` with only whitespace around it. A non-zero status gives the exit-code message first. Otherwise a failure quotes the unstripped stdout. |
| `ExampleTests.TestVariablesAndScope` | tests/example_tests.py:26-37 | Passes exactly when stdout is the nine expected lines with only whitespace around them. A failure quotes the stripped stdout. The exit status and stderr play no part. |
| `ExampleTests.FirstLine` | tests/example_tests.py:42 | `readlines()[0]` is missing exactly for an empty file. Otherwise it is a non-empty prefix with no newline before its last character. It ends in a newline whenever the text goes on after it. |
| `ExampleTests.DisplayName` | tests/example_tests.py:42 | No contract beyond that of `Text.RemoveAll`: the first line with every `// Name: ` removed. Its value for a well-formed header is proved in `ExampleTests.DisplayNameOfHeader`. |
| `ExampleTests.AssertionKey` | tests/example_tests.py:46 | No contract beyond that of `Text.RemoveAll`: `test_` before the file name with every `.lox` removed. Its value for a `.lox` file name is proved in `ExampleTests.AssertionKeyOfLoxFile`. |
| `ExampleTests.DisplayNameOfHeader` | tests/example_tests.py:42 | A first line `// Name: <title>` gives the name `<title>`, trailing newline kept, when the title does not itself contain the marker. |
| `ExampleTests.AssertionKeyOfLoxFile` | tests/example_tests.py:46 | A file `<stem>.lox` whose stem has no dot is looked up as `test_<stem>`. |
| `ExampleTests.ParseTestCase` | tests/example_tests.py:39-47 | Loading succeeds exactly when the file has a first line and the derived key names a routine. An empty file is reported before an unknown key. On success, the case has the derived name, the given path and the routine registered under the key. |
| `Scenarios.HelloPasses` | tests/run_tests.py:79-88 | One hello-world case whose run prints `hello world` with status 0 passes, and the summary is `1/1 tests passed`. |
| `Scenarios.HelloFailsOnExitStatus` | tests/run_tests.py:64-88 | The same case with exit status 1 fails with `Expected exit code 0, got 1`. The result is false and the summary is `0/1 tests passed`. |
| `Scenarios.ThirdOfFourFails` | tests/run_tests.py:79-88 | Four cases where only the third fails: every case still runs, the one failure is recorded, and the summary is `3/4 tests passed`. |
| `Scenarios.EmptySuite` | tests/run_tests.py:79-88 | An empty suite returns true, and the summary is `0/0 tests passed`. |
| `Scenarios.LaunchErrorStopsSuite` | tests/run_tests.py:64-83 | A launch error on the second of three cases propagates. The third case never runs, and only the first is counted. |
| `Scenarios.FailureIsSticky` | tests/run_tests.py:79-88 | After one failing call, a second call whose case passes still returns false, and the summary is `1/2 tests passed`. |

## Left out

- `LoxRunner.run` (tests/run_tests.py:35-52) is not modelled: it starts a subprocess. It is replaced by the `Runner` function, so the model assumes the interpreter gives the same result every time for the same path. The command line (`interpreter_cmd` plus the path) and the decoding of the output to text are not part of this model.
- The `PASS:` / `FAIL:` progress lines (tests/run_tests.py:70, 75-76) are console output only.
- `main` (tests/run_tests.py:91-107) is not modelled: the jar path, the import of the tests and `sys.exit`. Only its rule "exit with 0 exactly when `failed == 0`" is kept, as `Harness.ExitStatus`. The status that Python itself gives an uncaught exception is not modelled.
- Reading the file in `parse_test_case` (tests/example_tests.py:41) is not modelled. The model takes the file's text and name as parameters. The newline translation of text-mode reads is not modelled.
- The `globals()` lookup (tests/example_tests.py:46) is replaced by the explicit map `ExampleTests.Registry`. It holds the four module globals whose names begin with `test_`.
- The directory scan (tests/example_tests.py:49) is not modelled, and neither is its unspecified order. `TESTS` is built lazily, so a file that fails to load raises in the middle of `run_tests`, after earlier cases have already been counted. The model loads one file at a time and does not join the two steps.
- Python removes `assert` statements when run with `-O`, which would make every routine pass. The model assumes asserts are enabled.
- Text.RemoveAll: it requires a non-empty pattern, since the source only passes the non-empty constants `"// Name: "` and `".lox"`. Its own contract says only that characters are deleted. The exact effect is its definition. `RemoveAllAbsent` and `RemoveAllSuffix` state the effect for the cases the source meets.
- Harness.TestHarness.Summary: its contract fixes the counts the line reads back as, not the exact characters. The exact text is `Harness.SummaryText`, and `Scenarios.SummaryLines` checks it for concrete counts.
