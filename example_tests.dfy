/**
  The example tests of the lox suite: four assertion routines over an
  `ExecutionResult`, each an ordered chain of checks whose first failing check
  decides the message, and the derivation of a case's name and assertion key
  from its `.lox` file.
 */
module ExampleTests {
  import opened Results
  import opened Text
  import opened Records

  /** The message of the exit-status check that opens three of the tests. */
  function ExitCodeMessage(code: int): string {
    "Expected exit code 0, got " + IntToString(code)
  }

  /** `test_hello`: exit status 0, and `hello world` somewhere in standard output. */
  function TestHello(r: ExecutionResult): (o: Outcome)
    ensures o.Pass? <==> r.exitCode == 0 && exists i :: OccursAt(r.stdout, "hello world", i)
    ensures r.exitCode != 0 ==> o == Fail(ExitCodeMessage(r.exitCode))
    ensures r.exitCode == 0 && !o.Pass? ==> o == Fail("Expected 'hello world' in output, got: " + r.stdout)
  {
    if r.exitCode != 0 then Fail(ExitCodeMessage(r.exitCode))
    else if !Contains(r.stdout, "hello world") then Fail("Expected 'hello world' in output, got: " + r.stdout)
    else Pass
  }

  /** `test_arithmetic`: exit status 0, then the digits 3, 7 and 6 each somewhere in standard output. */
  function TestArithmetic(r: ExecutionResult): (o: Outcome)
    ensures o.Pass? <==> r.exitCode == 0 && '3' in r.stdout && '7' in r.stdout && '6' in r.stdout
    ensures r.exitCode != 0 ==> o == Fail(ExitCodeMessage(r.exitCode))
    ensures r.exitCode == 0 && '3' !in r.stdout ==> o == Fail("Expected 3 (1+2) in output")
    ensures r.exitCode == 0 && '3' in r.stdout && '7' !in r.stdout ==> o == Fail("Expected 7 (10-3) in output")
    ensures r.exitCode == 0 && '3' in r.stdout && '7' in r.stdout && '6' !in r.stdout ==>
      o == Fail("Expected 6 (2*3) in output")
  {
    if r.exitCode != 0 then Fail(ExitCodeMessage(r.exitCode))
    else if !Contains(r.stdout, "3") then Fail("Expected 3 (1+2) in output")
    else if !Contains(r.stdout, "7") then Fail("Expected 7 (10-3) in output")
    else if !Contains(r.stdout, "6") then Fail("Expected 6 (2*3) in output")
    else Pass
  }

  /** `test_variable_declaration`: exit status 0, and standard output is `4` with only whitespace around it. */
  function TestVariableDeclaration(r: ExecutionResult): (o: Outcome)
    ensures o.Pass? <==> r.exitCode == 0 && Padded(r.stdout, "4")
    ensures r.exitCode != 0 ==> o == Fail(ExitCodeMessage(r.exitCode))
    ensures r.exitCode == 0 && !o.Pass? ==> o == Fail("Expected output to be `4`, was " + r.stdout)
  {
    StripIsUnpadding(r.stdout, "4");
    if r.exitCode != 0 then Fail(ExitCodeMessage(r.exitCode))
    else if Strip(r.stdout) != "4" then Fail("Expected output to be `4`, was " + r.stdout)
    else Pass
  }

  /** The nine lines `test_variables_and_scope` expects, without a final newline. */
  const ScopeExpected :=
    "inner a\n" + "outer b\n" + "global c\n" +
    "outer a\n" + "outer b\n" + "global c\n" +
    "global a\n" + "global b\n" + "global c"

  /**
    `test_variables_and_scope`: standard output is the nine expected lines with
    only whitespace around them; the exit status and standard error play no part.
   */
  function TestVariablesAndScope(r: ExecutionResult): (o: Outcome)
    ensures o.Pass? <==> Padded(r.stdout, ScopeExpected)
    ensures !o.Pass? ==> o == Fail("Expected " + ScopeExpected + " but got " + Strip(r.stdout))
  {
    assert ScopeExpected[0] == 'i' && ScopeExpected[|ScopeExpected| - 1] == 'c';
    StripIsUnpadding(r.stdout, ScopeExpected);
    var output := Strip(r.stdout);
    if output != ScopeExpected then Fail("Expected " + ScopeExpected + " but got " + output) else Pass
  }

  /** The assertion routines a `.lox` file can name, keyed as the module's globals are. */
  const Registry: map<string, ExecutionResult -> Outcome> := map[
    "test_hello" := TestHello,
    "test_arithmetic" := TestArithmetic,
    "test_variable_declaration" := TestVariableDeclaration,
    "test_variables_and_scope" := TestVariablesAndScope
  ]

  /**
    `readlines()[0]` of a file whose text is `content`: everything up to and
    including the first newline, or all of `content` when it has none; nothing
    (Python raises `IndexError`) when the file is empty.
   */
  function FirstLine(content: string): (r: Option<string>)
    ensures r.None? <==> |content| == 0
    ensures r.Some? ==> 0 < |r.value| <= |content| && r.value == content[..|r.value|]
    ensures r.Some? ==> '\n' !in r.value[..|r.value| - 1]
    ensures r.Some? && |r.value| < |content| ==> r.value[|r.value| - 1] == '\n'
  {
    if |content| == 0 then None
    else
      var k := Find(content, '\n');
      Some(content[..if k < |content| then k + 1 else k])
  }

  /** The display name: the first line with every `// Name: ` taken out (its newline stays). */
  function DisplayName(line: string): string {
    RemoveAll(line, "// Name: ")
  }

  /** The name of the assertion routine: `test_` and the file name with every `.lox` taken out. */
  function AssertionKey(fileName: string): string {
    "test_" + RemoveAll(fileName, ".lox")
  }

  /** A header `// Name: <title>` gives the display name `<title>`, newline included. */
  lemma DisplayNameOfHeader(title: string)
    requires forall i :: !OccursAt(title, "// Name: ", i)
    ensures DisplayName("// Name: " + title) == title
  {
    var s := "// Name: " + title;
    assert OccursAt(s, "// Name: ", 0);
    assert s[|"// Name: "|..] == title;
    RemoveAllAbsent(title, "// Name: ");
  }

  /** A file `<stem>.lox` whose stem has no dot is looked up as `test_<stem>`. */
  lemma AssertionKeyOfLoxFile(stem: string)
    requires '.' !in stem
    ensures AssertionKey(stem + ".lox") == "test_" + stem
  {
    forall i | i < |stem|
      ensures !OccursAt(stem + ".lox", ".lox", i)
    {
      if 0 <= i {
        assert (stem + ".lox")[i] == stem[i];
      }
    }
    RemoveAllSuffix(stem, ".lox");
  }

  /** Why a `.lox` file could not be turned into a test case. */
  datatype LoadError = EmptyFile | UnknownAssertion(key: string)

  /**
    The test case for the `.lox` file at `path`, named `fileName`, whose text is
    `content`: the first line must exist, and the derived key must name one of
    the assertion routines.
   */
  function ParseTestCase(path: string, fileName: string, content: string): (r: Result<TestCase, LoadError>)
    ensures r.Ok? <==> |content| > 0 && AssertionKey(fileName) in Registry
    ensures |content| == 0 ==> r.Err? && r.error == EmptyFile
    ensures |content| > 0 && r.Err? ==> r.error == UnknownAssertion(AssertionKey(fileName))
    ensures r.Ok? ==> && r.value.name == DisplayName(FirstLine(content).value)
                      && r.value.loxFile == path
                      && r.value.assertions == Registry[AssertionKey(fileName)]
  {
    match FirstLine(content)
    case None => Err(EmptyFile)
    case Some(line) =>
      var key := AssertionKey(fileName);
      if key in Registry then Ok(TestCase(DisplayName(line), path, Registry[key]))
      else Err(UnknownAssertion(key))
  }
}
