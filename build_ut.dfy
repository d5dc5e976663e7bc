/**
 * The unit-test runner script: the commands it builds (clean, cmake, make, and each test
 * suite's command with the optional valgrind prefix), the file names it resolves, which
 * exit codes it tolerates, and how the suites' exit codes decide the run.
 *
 * Processes are not run: the exit code of each command comes in as an input, in the order
 * the commands are run.
 */
module BuildUt {
  import opened Common

  const ResultOutput: string := "gtest_result"
  const ValgrindOutput: string := "valgrind_report"
  const ValgrindErrorCode: int := 101
  const ValgrindIgnore: string := "rialto-gstreamer.supp"

  // ---------------------------------------------------------------------------
  // Exit codes
  // ---------------------------------------------------------------------------

  /** The exit codes runcmd returns for; on any other it ends the script. */
  predicate Tolerated(returnCode: int)
  {
    returnCode == 0 || returnCode == ValgrindErrorCode
  }

  /** runcmd: either the command's status comes back to the caller, or the script exits
      naming the command and its exit code. */
  datatype Status = Returned(returnCode: int) | Exited(command: seq<string>, returnCode: int)

  function RunCmd(command: seq<string>, returnCode: int): (s: Status)
    ensures s.Returned? <==> returnCode == 0 || returnCode == 101
    ensures s.returnCode == returnCode
    ensures s.Exited? ==> s.command == command
  {
    if Tolerated(returnCode) then Returned(returnCode) else Exited(command, returnCode)
  }

  /** The position of the first exit code runcmd does not tolerate, if any. */
  function FirstIntolerable(codes: seq<int>): (k: Option<nat>)
    ensures k.Some? ==> k.value < |codes|
    decreases |codes|
  {
    if codes == [] then None
    else if !Tolerated(codes[0]) then Some(0)
    else
      match FirstIntolerable(codes[1..])
      case None => None
      case Some(k) => Some(k + 1)
  }

  /** FirstIntolerable finds nothing exactly when every code is tolerated, and otherwise an
      intolerable code with only tolerated codes before it. */
  lemma {:induction false} FirstIntolerableSpec(codes: seq<int>)
    ensures var k := FirstIntolerable(codes);
            && (k.None? <==> forall i :: 0 <= i < |codes| ==> Tolerated(codes[i]))
            && (k.Some? ==> !Tolerated(codes[k.value]) && forall i :: 0 <= i < k.value ==> Tolerated(codes[i]))
    decreases |codes|
  {
    if codes != [] && Tolerated(codes[0]) {
      FirstIntolerableSpec(codes[1..]);
      assert forall i :: 1 <= i < |codes| ==> codes[i] == codes[1..][i - 1];
    }
  }

  /** The position found is the one with an intolerable code and only tolerated ones before it. */
  lemma FirstIntolerableAt(codes: seq<int>, k: nat)
    requires k < |codes| && !Tolerated(codes[k])
    requires forall i :: 0 <= i < k ==> Tolerated(codes[i])
    ensures FirstIntolerable(codes) == Some(k)
  {
    FirstIntolerableSpec(codes);
  }

  /** Skipping a tolerated prefix shifts the first intolerable position by its length. */
  lemma FirstIntolerableAfter(codes: seq<int>, n: nat)
    requires n <= |codes|
    requires forall i :: 0 <= i < n ==> Tolerated(codes[i])
    ensures FirstIntolerable(codes) ==
            match FirstIntolerable(codes[n..])
            case None => None
            case Some(k) => Some(n + k)
  {
    var rest := codes[n..];
    FirstIntolerableSpec(rest);
    FirstIntolerableSpec(codes);
    match FirstIntolerable(rest)
    case None =>
      assert forall i :: n <= i < |codes| ==> Tolerated(codes[i]) by {
        forall i | n <= i < |codes| ensures Tolerated(codes[i]) {
          assert codes[i] == rest[i - n];
        }
      }
    case Some(k) =>
      assert codes[n + k] == rest[k];
      assert forall i :: n <= i < n + k ==> Tolerated(codes[i]) by {
        forall i | n <= i < n + k ensures Tolerated(codes[i]) {
          assert codes[i] == rest[i - n];
        }
      }
      FirstIntolerableAt(codes, n + k);
  }

  /** The commands that run: all of them, or those up to the first one whose exit code ends
      the script. */
  function Ran(commands: seq<seq<string>>, codes: seq<int>): seq<seq<string>>
    requires |codes| == |commands|
  {
    match FirstIntolerable(codes)
    case None => commands
    case Some(k) => commands[..k + 1]
  }

  // ---------------------------------------------------------------------------
  // File names
  // ---------------------------------------------------------------------------

  const DefaultLogFile: string := ResultOutput + ".log"
  const DefaultXmlFile: string := ResultOutput + ".xml"

  /** The results file (-f) or xml file (-xml) name: the option absent means none, given with
      no value means the default name, otherwise the name given. */
  function ResolveFileName(arg: Option<string>, default: string): (name: Option<string>)
    ensures arg.None? <==> name.None?
    ensures arg == Some("") ==> name == Some(default)
    ensures arg.Some? && arg.value != "" ==> name == arg
  {
    match arg
    case None => None
    case Some(given) => Some(if given == "" then default else given)
  }

  /** With a non-empty default every resolved name is non-empty, and passing a resolved name
      back as the option resolves to itself. */
  lemma ResolvedNameIsFinal(arg: Option<string>, default: string)
    requires default != ""
    ensures var name := ResolveFileName(arg, default);
            && (name.Some? ==> name.value != "")
            && ResolveFileName(name, default) == name
  {
  }

  // ---------------------------------------------------------------------------
  // Argument lists and prefixes
  // ---------------------------------------------------------------------------

  /** Some argument begins with the prefix. */
  predicate SomeArgWithPrefix(args: seq<string>, prefix: string)
  {
    exists i :: 0 <= i < |args| && HasPrefix(args[i], prefix)
  }

  /** A string whose k-th character differs from the prefix's does not begin with it. */
  lemma DiffersAt(s: string, prefix: string, k: nat)
    requires k < |s| && k < |prefix| && s[k] != prefix[k]
    ensures !HasPrefix(s, prefix)
  {
  }

  /** A string that begins with a prefix begins with every prefix of that prefix. */
  lemma PrefixOfPrefix(s: string, prefix: string, n: nat)
    requires HasPrefix(s, prefix) && n <= |prefix|
    ensures HasPrefix(s, prefix[..n])
  {
    assert s[..n] == s[..|prefix|][..n];
  }

  /** No argument of the joined lists begins with the prefix when none of either does. */
  lemma NoArgInConcat(a: seq<string>, b: seq<string>, prefix: string)
    requires !SomeArgWithPrefix(a, prefix) && !SomeArgWithPrefix(b, prefix)
    ensures !SomeArgWithPrefix(a + b, prefix)
  {
    forall i | 0 <= i < |a + b| ensures !HasPrefix((a + b)[i], prefix) {
      if i < |a| {
        assert (a + b)[i] == a[i];
      } else {
        assert (a + b)[i] == b[i - |a|];
      }
    }
  }

  /** An argument of a list is an argument of any list it is joined to. */
  lemma SomeArgInConcat(a: seq<string>, b: seq<string>, prefix: string)
    ensures SomeArgWithPrefix(a, prefix) ==> SomeArgWithPrefix(a + b, prefix)
    ensures SomeArgWithPrefix(b, prefix) ==> SomeArgWithPrefix(a + b, prefix)
  {
    if SomeArgWithPrefix(a, prefix) {
      var i :| 0 <= i < |a| && HasPrefix(a[i], prefix);
      assert (a + b)[i] == a[i];
    }
    if SomeArgWithPrefix(b, prefix) {
      var i :| 0 <= i < |b| && HasPrefix(b[i], prefix);
      assert (a + b)[|a| + i] == b[i];
    }
  }

  // ---------------------------------------------------------------------------
  // AddValgrind
  // ---------------------------------------------------------------------------

  const ErrorExitCodeFlag: string := "--error-exitcode=" + DecimalString(ValgrindErrorCode)

  /** The valgrind options every valgrind run starts with. */
  const ValgrindFlags: seq<string> :=
    ["valgrind", "--leak-check=full", "--show-leak-kinds=all", "--track-origins=yes", "--verbose", ErrorExitCodeFlag]

  /** The flag names valgrind's own exit code for the errors it finds: 101. */
  lemma ErrorExitCodeIs101()
    ensures ErrorExitCodeFlag == "--error-exitcode=101"
  {
    assert NatDigits(1) == "1";
    assert NatDigits(10) == "10";
    assert NatDigits(101) == NatDigits(10) + [DigitChar(1)];
  }

  /** AddValgrind: the valgrind command prefix for a suite. outputToFile and outputToXml say
      whether a results file and an xml file were asked for; scriptDir is the directory the
      script is in. */
  function AddValgrind(suite: string, outputToFile: bool, outputToXml: bool, scriptDir: string): seq<string>
  {
    var output :=
      if outputToXml then ["--xml=yes", "--xml-file=" + suite + "_" + ValgrindOutput + ".xml"]
      else if outputToFile then ["--log-file=" + suite + "_" + ValgrindOutput + ".log"]
      else [];
    ValgrindFlags + output + ["--suppressions=" + scriptDir + "/" + ValgrindIgnore]
  }

  /** The valgrind prefix starts with the fixed flags and ends with the suppressions file in
      the script's directory; in between come the xml options when xml was asked for, else
      the log file option when a results file was asked for, else nothing. */
  lemma AddValgrindShape(suite: string, outputToFile: bool, outputToXml: bool, scriptDir: string)
    ensures var cmd := AddValgrind(suite, outputToFile, outputToXml, scriptDir);
            && |cmd| >= 7 && cmd[..6] == ValgrindFlags
            && cmd[|cmd| - 1] == "--suppressions=" + scriptDir + "/" + ValgrindIgnore
            && (outputToXml ==> cmd[6..|cmd| - 1] == ["--xml=yes", "--xml-file=" + suite + "_" + ValgrindOutput + ".xml"])
            && (!outputToXml && outputToFile ==> cmd[6..|cmd| - 1] == ["--log-file=" + suite + "_" + ValgrindOutput + ".log"])
            && (!outputToXml && !outputToFile ==> |cmd| == 7)
  {
  }

  /** No valgrind option begins with "--g", the start of every googletest option. */
  lemma ValgrindArgsAreNotGtestArgs(suite: string, outputToFile: bool, outputToXml: bool, scriptDir: string)
    ensures !SomeArgWithPrefix(AddValgrind(suite, outputToFile, outputToXml, scriptDir), "--g")
  {
    var cmd := AddValgrind(suite, outputToFile, outputToXml, scriptDir);
    AddValgrindShape(suite, outputToFile, outputToXml, scriptDir);
    forall i | 0 <= i < |cmd| ensures !HasPrefix(cmd[i], "--g") {
      if i == 0 {
        DiffersAt(cmd[i], "--g", 0);
      } else {
        DiffersAt(cmd[i], "--g", 2);
      }
    }
  }

  /** Valgrind writes to one destination: with xml asked for, its xml file and no log file;
      otherwise a log file exactly when a results file was asked for, and never an xml file. */
  lemma ValgrindDestination(suite: string, outputToFile: bool, outputToXml: bool, scriptDir: string)
    ensures var cmd := AddValgrind(suite, outputToFile, outputToXml, scriptDir);
            && (SomeArgWithPrefix(cmd, "--xml-file=") <==> outputToXml)
            && (SomeArgWithPrefix(cmd, "--log-file=") <==> !outputToXml && outputToFile)
  {
    var cmd := AddValgrind(suite, outputToFile, outputToXml, scriptDir);
    AddValgrindShape(suite, outputToFile, outputToXml, scriptDir);
    var last := |cmd| - 1;
    // each option other than the destination ones differs from both destination prefixes
    forall i | 0 <= i < |cmd| && (i < 6 || i == last)
      ensures !HasPrefix(cmd[i], "--xml-file=") && !HasPrefix(cmd[i], "--log-file=")
    {
      if i == 0 {
        DiffersAt(cmd[i], "--xml-file=", 0);
        DiffersAt(cmd[i], "--log-file=", 0);
      } else if i == 1 {
        DiffersAt(cmd[i], "--xml-file=", 2);
        DiffersAt(cmd[i], "--log-file=", 3);
      } else {
        DiffersAt(cmd[i], "--xml-file=", 2);
        DiffersAt(cmd[i], "--log-file=", 2);
      }
    }
    if outputToXml {
      DiffersAt(cmd[6], "--xml-file=", 5);
      DiffersAt(cmd[6], "--log-file=", 2);
      DiffersAt(cmd[7], "--log-file=", 2);
      assert HasPrefix(cmd[7], "--xml-file=");
    } else if outputToFile {
      DiffersAt(cmd[6], "--xml-file=", 2);
      assert HasPrefix(cmd[6], "--log-file=");
    }
  }

  // ---------------------------------------------------------------------------
  // buildTargets
  // ---------------------------------------------------------------------------

  /** A test suite: its key in the suite map, its executable's name, and its directory. */
  datatype Suite = Suite(key: string, suite: string, path: string)

  /** The suite map the script runs. */
  const SuitesToRun: seq<Suite> := [Suite("gst", "GstRialtoUnitTests", "/tests/ut/")]

  /** The cmake command: its fixed options, then the coverage option when coverage is on. */
  function CmakeCommand(outputDir: string, coverage: bool, branch: string): seq<string>
  {
    var cmd := ["cmake", "-B", outputDir, "-DCMAKE_BUILD_FLAG=UnitTests", "-DRIALTO_ENABLE_X_RAW=1", "-DBUILD_BRANCH=" + branch];
    if coverage then cmd + ["-DCOVERAGE_ENABLED=1"] else cmd
  }

  /** cmake gets its six fixed options, the branch last among them, and one more option,
      the coverage one, exactly when coverage is on. */
  lemma CmakeCommandShape(outputDir: string, coverage: bool, branch: string)
    ensures var cmd := CmakeCommand(outputDir, coverage, branch);
            && |cmd| >= 6
            && cmd[..6] == ["cmake", "-B", outputDir, "-DCMAKE_BUILD_FLAG=UnitTests", "-DRIALTO_ENABLE_X_RAW=1",
                            "-DBUILD_BRANCH=" + branch]
            && (coverage <==> |cmd| == 7)
            && (coverage ==> cmd[6] == "-DCOVERAGE_ENABLED=1")
  {
  }

  /** The make command for cpus parallel jobs: the targets are the suites' executables, in the
      order of the suite map. */
  function MakeArgs(suites: seq<Suite>, cpus: nat): seq<string>
  {
    ["make", "-j" + DecimalString(cpus)] + seq(|suites|, i requires 0 <= i < |suites| => suites[i].suite)
  }

  /** make runs on cpus jobs and builds every selected suite's target, in suite order. */
  lemma MakeArgsShape(suites: seq<Suite>, cpus: nat)
    ensures var cmd := MakeArgs(suites, cpus);
            && |cmd| == 2 + |suites|
            && cmd[..2] == ["make", "-j" + DecimalString(cpus)]
            && forall i :: 0 <= i < |suites| ==> cmd[2 + i] == suites[i].suite
  {
  }

  /** buildTargets' loop appending the suites to the make command. */
  method MakeCommand(suites: seq<Suite>, cpus: nat) returns (makeCmd: seq<string>)
    ensures makeCmd == MakeArgs(suites, cpus)
  {
    var jarg := "-j" + DecimalString(cpus);
    makeCmd := ["make", jarg];
    for i := 0 to |suites|
      invariant |makeCmd| == 2 + i
      invariant makeCmd[..2] == ["make", jarg]
      invariant forall j :: 0 <= j < i ==> makeCmd[2 + j] == suites[j].suite
    {
      makeCmd := makeCmd + [suites[i].suite];
    }
    MakeArgsShape(suites, cpus);
  }

  /** What a part of the script did: the commands it ran and, if one ended the script, how. */
  datatype Outcome = Exit(command: seq<string>, returnCode: int) | TestsFailed | Finished(coverageReport: bool)

  /** How a list of commands ends the script, if it does: at the first intolerable exit code. */
  function Abort(commands: seq<seq<string>>, codes: seq<int>): (r: Option<Outcome>)
    requires |codes| == |commands|
  {
    match FirstIntolerable(codes)
    case None => None
    case Some(k) => Some(Exit(commands[k], codes[k]))
  }

  function BuildCommands(suites: seq<Suite>, outputDir: string, coverage: bool, branch: string, cpus: nat): seq<seq<string>>
  {
    [CmakeCommand(outputDir, coverage, branch), MakeArgs(suites, cpus)]
  }

  /** buildTargets: cmake, then make; the exit codes are the two commands' in that order. */
  method BuildTargets(suites: seq<Suite>, outputDir: string, coverage: bool, branch: string, cpus: nat, codes: seq<int>)
    returns (ran: seq<seq<string>>, exit: Option<Outcome>)
    requires |codes| == 2
    ensures ran == Ran(BuildCommands(suites, outputDir, coverage, branch, cpus), codes)
    ensures exit == Abort(BuildCommands(suites, outputDir, coverage, branch, cpus), codes)
  {
    ghost var commands := BuildCommands(suites, outputDir, coverage, branch, cpus);
    var cmakeCmd := ["cmake", "-B", outputDir, "-DCMAKE_BUILD_FLAG=UnitTests", "-DRIALTO_ENABLE_X_RAW=1", "-DBUILD_BRANCH=" + branch];
    if coverage {
      cmakeCmd := cmakeCmd + ["-DCOVERAGE_ENABLED=1"];
    }
    ran := [cmakeCmd];
    var status := RunCmd(cmakeCmd, codes[0]);
    if status.Exited? {
      FirstIntolerableAt(codes, 0);
      exit := Some(Exit(status.command, status.returnCode));
      return;
    }
    var makeCmd := MakeCommand(suites, cpus);
    ran := ran + [makeCmd];
    status := RunCmd(makeCmd, codes[1]);
    assert ran == commands;
    if status.Exited? {
      FirstIntolerableAt(codes, 1);
      exit := Some(Exit(status.command, status.returnCode));
      return;
    }
    exit := None;
  }

  // ---------------------------------------------------------------------------
  // runTests
  // ---------------------------------------------------------------------------

  /** The options runTests gets from the command line: list the tests, the googletest filter,
      whether there is a results file, the xml file name, valgrind, the script's directory. */
  datatype TestOptions = TestOptions(doListTests: bool, gtestFilter: Option<string>, resultsToFile: bool,
                                     xmlFile: Option<string>, valgrind: bool, scriptDir: string)

  /** The valgrind prefix of a suite's test command: empty when valgrind is off. */
  function ValgrindPrefix(s: Suite, o: TestOptions): seq<string>
  {
    if o.valgrind then AddValgrind(s.key, o.resultsToFile, o.xmlFile.Some?, o.scriptDir) else []
  }

  /** The test executable, run from the build directory. */
  function Executable(s: Suite): string
  {
    "." + s.path + s.suite
  }

  /** Listing the tests, or else the googletest filter when one was given. */
  function TestSelection(o: TestOptions): seq<string>
  {
    if o.doListTests then ["--gtest_list_tests"]
    else if o.gtestFilter.Some? then ["--gtest_filter=" + o.gtestFilter.value]
    else []
  }

  /** googletest's xml output, which is not asked for under valgrind. */
  function TestOutput(s: Suite, o: TestOptions): seq<string>
  {
    if o.xmlFile.Some? && !o.valgrind then ["--gtest_output=xml:" + s.key + "_" + o.xmlFile.value] else []
  }

  /** The command that runs one suite. */
  function TestCommand(s: Suite, o: TestOptions): seq<string>
  {
    ValgrindPrefix(s, o) + [Executable(s)] + TestSelection(o) + TestOutput(s, o)
  }

  /** Neither the valgrind prefix nor the executable holds an argument starting "--g", the
      start of every googletest option. */
  lemma NoGtestArgBeforeSelection(s: Suite, o: TestOptions, p: string)
    requires |p| >= 3 && p[..3] == "--g"
    ensures !SomeArgWithPrefix(ValgrindPrefix(s, o) + [Executable(s)], p)
  {
    var prefix := ValgrindPrefix(s, o);
    if o.valgrind {
      ValgrindArgsAreNotGtestArgs(s.key, o.resultsToFile, o.xmlFile.Some?, o.scriptDir);
    }
    forall i | 0 <= i < |prefix| ensures !HasPrefix(prefix[i], p) {
      if HasPrefix(prefix[i], p) {
        PrefixOfPrefix(prefix[i], p, 3);
      }
    }
    DiffersAt(Executable(s), p, 0);
    NoArgInConcat(prefix, [Executable(s)], p);
  }

  /** The test command: the valgrind prefix (when valgrind is on) comes before the executable
      "./<path><suite>", and a filter is passed when the tests are not listed. */
  lemma TestCommandShape(s: Suite, o: TestOptions)
    ensures var cmd := TestCommand(s, o);
            var prefix := if o.valgrind then AddValgrind(s.key, o.resultsToFile, o.xmlFile.Some?, o.scriptDir) else [];
            && |prefix| < |cmd| && cmd[..|prefix|] == prefix && cmd[|prefix|] == "." + s.path + s.suite
            && (o.doListTests ==> "--gtest_list_tests" in cmd)
            && (!o.doListTests && o.gtestFilter.Some? ==> "--gtest_filter=" + o.gtestFilter.value in cmd)
  {
    var cmd := TestCommand(s, o);
    var head := ValgrindPrefix(s, o) + [Executable(s)];
    assert cmd == head + TestSelection(o) + TestOutput(s, o);
    assert cmd[..|ValgrindPrefix(s, o)|] == ValgrindPrefix(s, o);
    if TestSelection(o) != [] {
      assert cmd[|head|] == TestSelection(o)[0];
    }
  }

  /** Listing the tests leaves out the filter. */
  lemma ListingExcludesFilter(s: Suite, o: TestOptions)
    requires o.doListTests
    ensures !SomeArgWithPrefix(TestCommand(s, o), "--gtest_filter=")
  {
    var p := "--gtest_filter=";
    var head := ValgrindPrefix(s, o) + [Executable(s)];
    NoGtestArgBeforeSelection(s, o, p);
    DiffersAt(TestSelection(o)[0], p, 8);
    NoArgInConcat(head, TestSelection(o), p);
    var output := TestOutput(s, o);
    if output != [] {
      DiffersAt(output[0], p, 8);
    }
    NoArgInConcat(head + TestSelection(o), output, p);
  }

  /** googletest writes xml exactly when an xml file was asked for and valgrind is off, and
      then as the command's last argument. */
  lemma XmlOutputOnlyWithoutValgrind(s: Suite, o: TestOptions)
    ensures SomeArgWithPrefix(TestCommand(s, o), "--gtest_output=xml:") <==> o.xmlFile.Some? && !o.valgrind
    ensures o.xmlFile.Some? && !o.valgrind ==>
            var cmd := TestCommand(s, o);
            cmd[|cmd| - 1] == "--gtest_output=xml:" + s.key + "_" + o.xmlFile.value
  {
    var p := "--gtest_output=xml:";
    var head := ValgrindPrefix(s, o) + [Executable(s)];
    var select := TestSelection(o);
    var output := TestOutput(s, o);
    NoGtestArgBeforeSelection(s, o, p);
    if select != [] {
      DiffersAt(select[0], p, 8);
    }
    NoArgInConcat(head, select, p);
    if output != [] {
      assert HasPrefix(output[0], p);
      SomeArgInConcat(head + select, output, p);
    } else {
      NoArgInConcat(head + select, output, p);
    }
  }

  /** runTests' building of one suite's command. */
  method BuildTestCommand(s: Suite, o: TestOptions) returns (executeCmd: seq<string>)
    ensures executeCmd == TestCommand(s, o)
  {
    executeCmd := [];
    // the valgrind command comes before the test executable
    if o.valgrind {
      executeCmd := executeCmd + AddValgrind(s.key, o.resultsToFile, o.xmlFile.Some?, o.scriptDir);
    }
    executeCmd := executeCmd + ["." + s.path + s.suite];
    if o.doListTests {
      executeCmd := executeCmd + ["--gtest_list_tests"];
    } else if o.gtestFilter.Some? {
      executeCmd := executeCmd + ["--gtest_filter=" + o.gtestFilter.value];
    }
    if o.xmlFile.Some? && !o.valgrind {
      executeCmd := executeCmd + ["--gtest_output=xml:" + s.key + "_" + o.xmlFile.value];
    }
  }

  function TestCommands(suites: seq<Suite>, o: TestOptions): seq<seq<string>>
  {
    seq(|suites|, i requires 0 <= i < |suites| => TestCommand(suites[i], o))
  }

  /** How runTests ends: at the first intolerable exit code, or, when every suite ran, failed
      if some suite returned valgrind's error code, and otherwise with the coverage report
      when coverage is on. */
  function RunTestsOutcome(commands: seq<seq<string>>, codes: seq<int>, coverage: bool): Outcome
    requires |codes| == |commands|
  {
    match Abort(commands, codes)
    case Some(exit) => exit
    case None => if ValgrindErrorCode in codes then TestsFailed else Finished(coverage)
  }

  /** The suites' results decide the run: it fails exactly when every exit code was tolerated
      and some suite returned 101, a non-zero code is then always 101 (so the script's
      "other error code" branch is never taken), and the coverage report is made exactly when
      no suite failed and coverage is on. */
  lemma RunTestsDecision(commands: seq<seq<string>>, codes: seq<int>, coverage: bool)
    requires |codes| == |commands|
    ensures var r := RunTestsOutcome(commands, codes, coverage);
            && (r == TestsFailed <==>
                  (forall i :: 0 <= i < |codes| ==> Tolerated(codes[i])) && exists i :: 0 <= i < |codes| && codes[i] == 101)
            && (r.Finished? ==> forall i :: 0 <= i < |codes| ==> codes[i] == 0)
            && (r == Finished(true) <==> coverage && forall i :: 0 <= i < |codes| ==> codes[i] == 0)
            && (r.Exit? ==> exists k :: 0 <= k < |codes| && r == Exit(commands[k], codes[k]) && !Tolerated(codes[k]))
  {
    var r := RunTestsOutcome(commands, codes, coverage);
    FirstIntolerableSpec(codes);
    if r.Finished? {
      forall i | 0 <= i < |codes| ensures codes[i] == 0 {
        assert codes[i] in codes;
      }
    }
    if r.Exit? {
      var k := FirstIntolerable(codes).value;
      assert r == Exit(commands[k], codes[k]);
    }
  }

  /** runTests: one command per suite in the suite map's order, each run through runcmd, with
      hasFailed collecting the suites that failed; codes are the suites' exit codes. */
  method RunTests(suites: seq<Suite>, o: TestOptions, coverage: bool, codes: seq<int>)
    returns (ran: seq<seq<string>>, outcome: Outcome)
    requires |codes| == |suites|
    ensures ran == Ran(TestCommands(suites, o), codes)
    ensures outcome == RunTestsOutcome(TestCommands(suites, o), codes, coverage)
  {
    ghost var commands := TestCommands(suites, o);
    var hasFailed := false;
    ran := [];
    var i := 0;
    while i < |suites|
      invariant 0 <= i <= |suites|
      invariant forall j :: 0 <= j < i ==> Tolerated(codes[j])
      invariant ran == commands[..i]
      invariant hasFailed <==> ValgrindErrorCode in codes[..i]
    {
      var suite := suites[i];
      var executeCmd := BuildTestCommand(suite, o);
      assert executeCmd == commands[i];
      ran := ran + [executeCmd];
      var status := RunCmd(executeCmd, codes[i]);
      if status.Exited? {
        FirstIntolerableAt(codes, i);
        outcome := Exit(status.command, status.returnCode);
        return;
      }
      if status.returnCode == ValgrindErrorCode {
        hasFailed := true;
      } else if status.returnCode != 0 {
        hasFailed := true;
      }
      assert codes[..i + 1] == codes[..i] + [codes[i]];
      i := i + 1;
    }
    assert codes[..i] == codes;
    FirstIntolerableSpec(codes);
    if hasFailed {
      outcome := TestsFailed;
    } else {
      outcome := Finished(coverage);
    }
  }

  // ---------------------------------------------------------------------------
  // main
  // ---------------------------------------------------------------------------

  /** The command-line options. The file and xml options are None when absent and Some("")
      when given without a value. */
  datatype Args = Args(output: string, file: Option<string>, xml: Option<string>, googletestFilter: Option<string>,
                       listTests: bool, clean: bool, noBuild: bool, noTest: bool, valgrind: bool, coverage: bool,
                       branch: string)

  function CleanCommand(output: string): seq<string>
  {
    ["rm", "-rf", output, ResultOutput + ".log", ValgrindOutput + ".log"]
  }

  /** The options main passes to runTests. */
  function TestOptionsOf(args: Args, scriptDir: string): TestOptions
  {
    TestOptions(args.listTests, args.googletestFilter, ResolveFileName(args.file, DefaultLogFile).Some?,
                ResolveFileName(args.xml, DefaultXmlFile), args.valgrind, scriptDir)
  }

  /** A prefix with an intolerable code holds the first intolerable code of the whole list. */
  lemma FirstIntolerableInPrefix(codes: seq<int>, n: nat)
    requires n <= |codes|
    ensures FirstIntolerable(codes[..n]).Some? ==> FirstIntolerable(codes) == FirstIntolerable(codes[..n])
    ensures FirstIntolerable(codes[..n]).None? ==> forall i :: 0 <= i < n ==> Tolerated(codes[i])
  {
    var p := codes[..n];
    FirstIntolerableSpec(p);
    if FirstIntolerable(p).Some? {
      var k := FirstIntolerable(p).value;
      assert codes[k] == p[k];
      assert forall i :: 0 <= i < k ==> codes[i] == p[i];
      FirstIntolerableAt(codes, k);
    } else {
      assert forall i :: 0 <= i < n ==> codes[i] == p[i];
    }
  }

  /** After a tolerated prefix, the commands that run are that prefix and then those that run
      of the rest. */
  lemma RanAfter(commands: seq<seq<string>>, codes: seq<int>, n: nat)
    requires |codes| == |commands| && n <= |codes|
    requires forall i :: 0 <= i < n ==> Tolerated(codes[i])
    ensures Ran(commands, codes) == commands[..n] + Ran(commands[n..], codes[n..])
    ensures Abort(commands, codes) == Abort(commands[n..], codes[n..])
  {
    FirstIntolerableAfter(codes, n);
    if FirstIntolerable(codes[n..]).Some? {
      var k := FirstIntolerable(codes[n..]).value;
      assert commands[..n + k + 1] == commands[..n] + commands[n..][..k + 1];
      assert commands[n + k] == commands[n..][k] && codes[n + k] == codes[n..][k];
    }
  }

  /** When a prefix holds an intolerable code, the commands that run are those of the prefix. */
  lemma RanInPrefix(commands: seq<seq<string>>, codes: seq<int>, n: nat)
    requires |codes| == |commands| && n <= |codes|
    requires FirstIntolerable(codes[..n]).Some?
    ensures Ran(commands, codes) == Ran(commands[..n], codes[..n])
    ensures Abort(commands, codes) == Abort(commands[..n], codes[..n])
  {
    FirstIntolerableInPrefix(codes, n);
    var k := FirstIntolerable(codes[..n]).value;
    assert commands[..n][..k + 1] == commands[..k + 1];
    assert commands[..n][k] == commands[k] && codes[..n][k] == codes[k];
  }

  /** The clean phase: the rm command when a clean was asked for. */
  function CleanPhase(args: Args): seq<seq<string>>
  {
    if args.clean then [CleanCommand(args.output)] else []
  }

  /** The build phase: cmake and make unless the build is skipped. */
  function BuildPhase(args: Args, suites: seq<Suite>, cpus: nat): seq<seq<string>>
  {
    if !args.noBuild then BuildCommands(suites, args.output, args.coverage, args.branch, cpus) else []
  }

  /** The test phase: one command per suite unless the tests are skipped. */
  function TestPhase(args: Args, suites: seq<Suite>, scriptDir: string): seq<seq<string>>
  {
    if args.noTest then [] else TestCommands(suites, TestOptionsOf(args, scriptDir))
  }

  /** Every command main would run if none ended the script, in order. */
  function Plan(args: Args, suites: seq<Suite>, scriptDir: string, cpus: nat): seq<seq<string>>
  {
    CleanPhase(args) + BuildPhase(args, suites, cpus) + TestPhase(args, suites, scriptDir)
  }

  /** How a run of setup commands followed, when the tests run, by the test commands ends:
      at the first intolerable exit code, or else as runTests ends when the tests run. */
  function PhasedOutcome(setup: seq<seq<string>>, tests: seq<seq<string>>, codes: seq<int>,
                         runTests: bool, coverage: bool): Outcome
    requires |codes| == |setup| + |tests|
  {
    match Abort(setup + tests, codes)
    case Some(exit) => exit
    case None =>
      if !runTests then Finished(false)
      else RunTestsOutcome(tests, codes[|setup|..], coverage)
  }

  /** It exits exactly when some exit code is intolerable, naming the first such command; a
      setup command returning 101 does not fail the run; the run fails exactly when the tests
      ran, every code was tolerated and a test returned 101; and the coverage report is made
      exactly when the tests ran with coverage on, every code was tolerated and every test
      returned 0. */
  lemma PhasedDecision(setup: seq<seq<string>>, tests: seq<seq<string>>, codes: seq<int>,
                       runTests: bool, coverage: bool)
    requires |codes| == |setup| + |tests|
    ensures var plan := setup + tests;
            var r := PhasedOutcome(setup, tests, codes, runTests, coverage);
            var allTolerated := forall i :: 0 <= i < |codes| ==> Tolerated(codes[i]);
            && (r.Exit? <==> !allTolerated)
            && (r.Exit? ==> exists k :: 0 <= k < |codes| && !Tolerated(codes[k]) && r == Exit(plan[k], codes[k])
                                        && Ran(plan, codes) == plan[..k + 1])
            && (r == TestsFailed <==> allTolerated && runTests && exists i :: |setup| <= i < |codes| && codes[i] == 101)
            && (r == Finished(true) <==>
                  allTolerated && runTests && coverage && forall i :: |setup| <= i < |codes| ==> codes[i] == 0)
  {
    var plan := setup + tests;
    var n := |setup|;
    var r := PhasedOutcome(setup, tests, codes, runTests, coverage);
    var t := codes[n..];
    FirstIntolerableSpec(codes);
    if FirstIntolerable(codes).Some? {
      var k := FirstIntolerable(codes).value;
      assert r == Exit(plan[k], codes[k]);
    } else if runTests {
      FirstIntolerableSpec(t);
      assert forall i :: n <= i < |codes| ==> codes[i] == t[i - n];
      RunTestsDecision(tests, t, coverage);
      if exists i :: n <= i < |codes| && codes[i] == 101 {
        var i :| n <= i < |codes| && codes[i] == 101;
        assert t[i - n] == 101;
      }
    }
  }

  /** How main ends, given the exit code of each command of the plan. */
  function ScriptOutcome(args: Args, suites: seq<Suite>, scriptDir: string, cpus: nat, codes: seq<int>): Outcome
    requires |codes| == |Plan(args, suites, scriptDir, cpus)|
  {
    PhasedOutcome(CleanPhase(args) + BuildPhase(args, suites, cpus), TestPhase(args, suites, scriptDir),
                  codes, !args.noTest, args.coverage)
  }

  /** The script as a whole: it exits exactly when some exit code is intolerable, naming the
      first such command; a clean or build command returning 101 does not fail the run; the
      run fails exactly when the tests ran, every code was tolerated and a suite returned 101;
      and the coverage report is made exactly when the tests ran with coverage on and every
      code was 0 or a clean or build command's 101. */
  lemma ScriptDecision(args: Args, suites: seq<Suite>, scriptDir: string, cpus: nat, codes: seq<int>)
    requires |codes| == |Plan(args, suites, scriptDir, cpus)|
    ensures var plan := Plan(args, suites, scriptDir, cpus);
            var setup := |CleanPhase(args)| + |BuildPhase(args, suites, cpus)|;
            var r := ScriptOutcome(args, suites, scriptDir, cpus, codes);
            var allTolerated := forall i :: 0 <= i < |codes| ==> Tolerated(codes[i]);
            && (r.Exit? <==> !allTolerated)
            && (r.Exit? ==> exists k :: 0 <= k < |codes| && !Tolerated(codes[k]) && r == Exit(plan[k], codes[k])
                                        && Ran(plan, codes) == plan[..k + 1])
            && (r == TestsFailed <==> allTolerated && !args.noTest && exists i :: setup <= i < |codes| && codes[i] == 101)
            && (r == Finished(true) <==>
                  allTolerated && !args.noTest && args.coverage && forall i :: setup <= i < |codes| ==> codes[i] == 0)
  {
    PhasedDecision(CleanPhase(args) + BuildPhase(args, suites, cpus), TestPhase(args, suites, scriptDir),
                   codes, !args.noTest, args.coverage);
  }

  /** Running one list of commands and then another: when the first list ends the script,
      the second never runs; otherwise the first runs in full and the second decides. */
  lemma RanSequence(a: seq<seq<string>>, b: seq<seq<string>>, codes: seq<int>)
    requires |codes| == |a| + |b|
    ensures Abort(a, codes[..|a|]).Some? ==>
            Ran(a + b, codes) == Ran(a, codes[..|a|]) && Abort(a + b, codes) == Abort(a, codes[..|a|])
    ensures Abort(a, codes[..|a|]).None? ==>
            && Ran(a, codes[..|a|]) == a
            && Ran(a + b, codes) == a + Ran(b, codes[|a|..]) && Abort(a + b, codes) == Abort(b, codes[|a|..])
  {
    var n := |a|;
    assert (a + b)[..n] == a && (a + b)[n..] == b;
    if FirstIntolerable(codes[..n]).Some? {
      RanInPrefix(a + b, codes, n);
    } else {
      FirstIntolerableInPrefix(codes, n);
      RanAfter(a + b, codes, n);
    }
  }

  /** The clean step of main; codes holds the rm command's exit code when it runs. */
  method CleanStep(args: Args, codes: seq<int>) returns (ran: seq<seq<string>>, exit: Option<Outcome>)
    requires |codes| == |CleanPhase(args)|
    ensures ran == Ran(CleanPhase(args), codes)
    ensures exit == Abort(CleanPhase(args), codes)
  {
    ran := [];
    exit := None;
    if args.clean {
      var executeCmd := ["rm", "-rf", args.output, ResultOutput + ".log", ValgrindOutput + ".log"];
      ran := [executeCmd];
      var status := RunCmd(executeCmd, codes[0]);
      if status.Exited? {
        FirstIntolerableAt(codes, 0);
        exit := Some(Exit(status.command, status.returnCode));
      }
    }
  }

  /** The build step of main; codes holds cmake's and make's exit codes when they run. */
  method BuildStep(args: Args, suites: seq<Suite>, cpus: nat, codes: seq<int>)
    returns (ran: seq<seq<string>>, exit: Option<Outcome>)
    requires |codes| == |BuildPhase(args, suites, cpus)|
    ensures ran == Ran(BuildPhase(args, suites, cpus), codes)
    ensures exit == Abort(BuildPhase(args, suites, cpus), codes)
  {
    ran := [];
    exit := None;
    if !args.noBuild {
      ran, exit := BuildTargets(suites, args.output, args.coverage, args.branch, cpus, codes);
    }
  }

  /** The test step of main, with the file names it resolves; codes holds the suites' exit
      codes when the tests run. */
  method TestStep(args: Args, suites: seq<Suite>, scriptDir: string, codes: seq<int>)
    returns (ran: seq<seq<string>>, outcome: Outcome)
    requires |codes| == |TestPhase(args, suites, scriptDir)|
    ensures ran == Ran(TestPhase(args, suites, scriptDir), codes)
    ensures outcome == if args.noTest then Finished(false)
                       else RunTestsOutcome(TestPhase(args, suites, scriptDir), codes, args.coverage)
  {
    var f := ResolveFileName(args.file, DefaultLogFile);
    var xml := ResolveFileName(args.xml, DefaultXmlFile);
    if !args.noTest {
      ran, outcome := RunTests(suites, TestOptions(args.listTests, args.googletestFilter, f.Some?, xml, args.valgrind, scriptDir),
                               args.coverage, codes);
    } else {
      ran := [];
      outcome := Finished(false);
    }
  }

  /** main: optional clean, the file names, optional build, optional tests. scriptDir is the
      script's directory, cpus the processor count, and codes the exit codes of the commands
      in the order they are run. */
  method RunScript(args: Args, suites: seq<Suite>, scriptDir: string, cpus: nat, codes: seq<int>)
    returns (ran: seq<seq<string>>, outcome: Outcome)
    requires |codes| == |Plan(args, suites, scriptDir, cpus)|
    ensures ran == Ran(Plan(args, suites, scriptDir, cpus), codes)
    ensures outcome == ScriptOutcome(args, suites, scriptDir, cpus, codes)
  {
    ghost var clean, build, tests := CleanPhase(args), BuildPhase(args, suites, cpus), TestPhase(args, suites, scriptDir);
    var nc := if args.clean then 1 else 0;
    var nb := if args.noBuild then 0 else 2;
    assert nc == |clean| && nb == |build|;
    var setupCodes := codes[..nc + nb];
    RanSequence(clean + build, tests, codes);
    RanSequence(clean, build, setupCodes);
    assert setupCodes[..nc] == codes[..nc] && setupCodes[nc..] == codes[nc..nc + nb];

    var cleaned, exit := CleanStep(args, codes[..nc]);
    if exit.Some? {
      ran, outcome := cleaned, exit.value;
      return;
    }
    var built, buildExit := BuildStep(args, suites, cpus, codes[nc..nc + nb]);
    if buildExit.Some? {
      ran, outcome := cleaned + built, buildExit.value;
      return;
    }
    var testsRan, o := TestStep(args, suites, scriptDir, codes[nc + nb..]);
    ran, outcome := cleaned + built + testsRan, o;
  }
}
