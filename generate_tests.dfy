/** Test generation for one Python file: the string transforms (module name,
    test file name, code-fence stripping), the mapping of a pytest run to a
    result string, and the error-return ladder of `generate_tests`. The file
    system, the environment, the model and pytest are oracles passed in. */
module GenerateTests {
  import opened Wrappers
  import opened Strings
  import opened PathValidation

  // ---------------------------------------------------------------------
  // Module name and test file name

  /** `file_path.replace('.py', '').replace('/', '.')` */
  function ModuleName(filePath: string): string
  {
    ReplaceAll(ReplaceAll(filePath, ".py", ""), "/", ".")
  }

  /** No module name contains a separator: every `/` became a `.`. */
  lemma ModuleNameHasNoSlash(filePath: string)
    ensures Slash !in ModuleName(filePath)
  {
    var noSuffix := ReplaceAll(filePath, ".py", "");
    ReplaceCharPointwise(noSuffix, Slash, '.');
    var r := ModuleName(filePath);
    assert forall k :: 0 <= k < |r| ==> r[k] != Slash;
  }

  /** For a path whose only dot is the `.py` suffix, the module name is the
      path without the suffix and with each `/` turned into `.`:
      `pkg/sub/mod.py` becomes `pkg.sub.mod`. */
  lemma ModuleNameOfSourcePath(path: string)
    requires '.' !in path
    ensures var r := ModuleName(path + ".py");
      && |r| == |path|
      && forall k :: 0 <= k < |path| ==> r[k] == if path[k] == Slash then '.' else path[k]
  {
    ReplaceAllTrailing(path, ".py");
    ReplaceCharPointwise(path, Slash, '.');
  }

  /** `f"test_{os.path.basename(file_path)}"` */
  function TestFileName(filePath: string): (r: string)
    ensures IsName(r)
    ensures StartsWith(r, "test_") && r[5..] == Basename(filePath)
  {
    "test_" + Basename(filePath)
  }

  /** The validated `tests` directory under the working directory. */
  function TestDir(workingDir: string, cwd: string): string
    requires IsAbs(cwd)
  {
    PathJoin(AbsPath(cwd, workingDir), "tests")
  }

  /** `os.path.join(test_dir, test_file)` */
  function TestPath(filePath: string, workingDir: string, cwd: string): string
    requires IsAbs(cwd)
  {
    PathJoin(TestDir(workingDir, cwd), TestFileName(filePath))
  }

  /** Validating `tests` never fails: it names the `tests` directory under the
      root. */
  lemma TestDirAccepted(workingDir: string, cwd: string)
    requires IsAbs(cwd)
    ensures ValidatePath("tests", workingDir, cwd) == Success(TestDir(workingDir, cwd))
  {
    ChildAccepted("tests", workingDir, cwd);
  }

  /** Joining two names onto a normal path appends both to its names. */
  lemma JoinTwoNames(lead: string, names: seq<string>, dir: string, name: string)
    requires lead == "/" || lead == "//"
    requires AllNames(names) && IsName(dir) && IsName(name)
    ensures AllNames(names + [dir, name])
    ensures PathJoin(PathJoin(lead + Render(names), dir), name) == lead + Render(names + [dir, name])
  {
    JoinName(lead, names, dir);
    JoinName(lead, names + [dir], name);
    assert names + [dir] + [name] == names + [dir, name];
  }

  /** Names appended to a normal path keep it as a prefix, and the last two
      names end the result. */
  lemma TwoNamesBelow(lead: string, names: seq<string>, dir: string, name: string)
    requires lead == "/" || lead == "//"
    ensures StartsWith(lead + Render(names + [dir, name]), lead + Render(names))
    ensures EndsWith(lead + Render(names + [dir, name]), [Slash] + dir + [Slash] + name)
  {
    RenderAppend(names, [dir, name]);
    RenderTwo(dir, name);
    if names != [] {
      var tail := [Slash] + dir + [Slash] + name;
      assert Render(names + [dir, name]) == Render(names) + tail;
      assert lead + Render(names + [dir, name]) == (lead + Render(names)) + tail;
      PrefixSuffix(lead + Render(names), tail);
    } else {
      assert names + [dir, name] == [dir, name];
      TwoNamesUnderRoot(lead, dir, name);
    }
  }

  /** Two names joined with a separator. */
  lemma RenderTwo(dir: string, name: string)
    ensures Render([dir, name]) == dir + [Slash] + name
  {
    assert [dir, name][1..] == [name];
    assert Render([name]) == name;
  }

  /** `TwoNamesBelow` when the root has no names: the root's own final
      separator starts the ending. */
  lemma TwoNamesUnderRoot(lead: string, dir: string, name: string)
    requires lead == "/" || lead == "//"
    ensures StartsWith(lead + (dir + [Slash] + name), lead + Render([]))
    ensures EndsWith(lead + (dir + [Slash] + name), [Slash] + dir + [Slash] + name)
  {
    var body := dir + [Slash] + name;
    var rest := lead[..|lead| - 1];
    assert lead + Render([]) == lead;
    assert lead + body == rest + ([Slash] + dir + [Slash] + name);
    PrefixSuffix(lead, body);
    PrefixSuffix(rest, [Slash] + dir + [Slash] + name);
  }

  /** A concatenation starts with its first part and ends with its second. */
  lemma PrefixSuffix(p: string, q: string)
    ensures StartsWith(p + q, p) && EndsWith(p + q, q)
  {
    assert (p + q)[..|p|] == p;
    assert (p + q)[|p + q| - |q|..] == q;
  }

  /** The test path is the root's names followed by `tests` and the test
      file name. */
  lemma TestPathForm(filePath: string, workingDir: string, cwd: string)
    requires IsAbs(cwd)
    ensures var a := Absolute(cwd, workingDir);
      && AllNames(Parts(a) + ["tests", TestFileName(filePath)])
      && TestPath(filePath, workingDir, cwd) == Leading(a) + Render(Parts(a) + ["tests", TestFileName(filePath)])
  {
    var a := Absolute(cwd, workingDir);
    RootShape(cwd, workingDir);
    assert IsName("tests");
    JoinTwoNames(Leading(a), Parts(a), "tests", TestFileName(filePath));
  }

  /** Re-validating the test path never fails either: it is a normal path two
      names below the root, in `tests`, named after the file. */
  lemma TestPathAccepted(filePath: string, workingDir: string, cwd: string)
    requires IsAbs(cwd)
    ensures var t := TestPath(filePath, workingDir, cwd);
      && ValidatePath(t, workingDir, cwd) == Success(t)
      && StartsWith(t, AbsPath(cwd, workingDir))
      && EndsWith(t, [Slash] + "tests" + [Slash] + TestFileName(filePath))
  {
    var a := Absolute(cwd, workingDir);
    var all := Parts(a) + ["tests", TestFileName(filePath)];
    RootShape(cwd, workingDir);
    TestPathForm(filePath, workingDir, cwd);
    NormalForm(Leading(a), all);
    TwoNamesBelow(Leading(a), Parts(a), "tests", TestFileName(filePath));
    AbsoluteIgnoresWorkingDir(TestPath(filePath, workingDir, cwd), workingDir, cwd);
  }

  // ---------------------------------------------------------------------
  // Code-fence stripping

  const Fence: string := "```"
  const PythonFence: string := "```python"

  /** The cleanup of the model's reply: an opening `python` fence loses the
      backticks at both ends and its first `python`, a closing fence loses
      everything from its last fence on, and each step strips whitespace. */
  function CleanTestCode(code: string): (r: string)
    ensures !StartsWith(code, PythonFence) && !EndsWith(code, Fence) ==> r == code
  {
    var unfenced := if StartsWith(code, PythonFence)
      then Strip(ReplaceFirst(StripChars(code, {'`'}), "python", ""))
      else code;
    if EndsWith(unfenced, Fence) then Strip(BeforeLast(unfenced, Fence)) else unfenced
  }

  /** No whitespace at either end: what `strip()` leaves alone. */
  predicate Trimmed(s: string)
  {
    s == [] || (s[0] !in Whitespace && s[|s| - 1] !in Whitespace)
  }

  /** `s.strip()` of `"\n" + s + "\n"` is `s` for a trimmed `s`. */
  lemma StripNewlines(s: string)
    requires Trimmed(s)
    ensures Strip("\n" + s + "\n") == s
  {
    var ws := Whitespace;
    if s == [] {
      StripLeadingPrefix("\n\n", "", ws);
      assert "\n" + s + "\n" == "\n\n" + "";
    } else {
      assert "\n" + s + "\n" == "\n" + (s + "\n");
      StripLeadingPrefix("\n", s + "\n", ws);
      StripTrailingSuffix(s, "\n", ws);
    }
  }

  /** Stripping backticks from a fenced reply leaves the tag, the body and
      the newlines around it. */
  lemma FenceBackticks(body: string)
    ensures StripChars(PythonFence + "\n" + body + "\n" + Fence, {'`'}) == "python\n" + body + "\n"
  {
    var inner := "python\n" + body + "\n";
    assert PythonFence + "\n" + body + "\n" + Fence == Fence + inner + Fence by {
      assert PythonFence == Fence + "python";
    }
    StripBetween(Fence, inner, {'`'});
  }

  /** The first `python` of a text that starts with it is its tag. */
  lemma DropPythonTag(body: string)
    ensures ReplaceFirst("python\n" + body + "\n", "python", "") == "\n" + body + "\n"
  {
    var s := "python\n" + body + "\n";
    assert s[..6] == "python" && s[6..] == "\n" + body + "\n";
  }

  /** A reply wrapped in a `python` fence is cleaned back to its body. */
  lemma FenceRoundTrip(body: string)
    requires Trimmed(body) && !EndsWith(body, Fence)
    ensures CleanTestCode(PythonFence + "\n" + body + "\n" + Fence) == body
  {
    var code := PythonFence + "\n" + body + "\n" + Fence;
    assert StartsWith(code, PythonFence);
    FenceBackticks(body);
    DropPythonTag(body);
    StripNewlines(body);
    assert Strip(ReplaceFirst(StripChars(code, {'`'}), "python", "")) == body;
  }

  /** A reply with only a closing fence loses the fence. */
  lemma ClosingFenceDropped(body: string)
    requires Trimmed(body) && !StartsWith(body + "\n" + Fence, PythonFence)
    ensures CleanTestCode(body + "\n" + Fence) == body
  {
    var code := body + "\n" + Fence;
    assert EndsWith(code, Fence);
    assert BeforeLast(code, Fence) == body + "\n";
    StripTrailingSuffix(body, "\n", Whitespace);
    if body == [] {
      assert Strip("\n") == "" by { StripLeadingPrefix("\n", "", Whitespace); }
    } else {
      StripLeadingPrefix("", body, Whitespace);
    }
  }

  /** A fence without the `python` tag keeps its opening line: only the
      closing fence is dropped. */
  lemma BareFenceKeepsOpening(body: string)
    requires Trimmed(body) && body != []
    ensures CleanTestCode(Fence + "\n" + body + "\n" + Fence) == Fence + "\n" + body
  {
    var kept := Fence + "\n" + body;
    assert kept[3] == '\n' && PythonFence[3] == 'p';
    assert Trimmed(kept) by {
      assert kept[|kept| - 1] == body[|body| - 1];
    }
    assert !StartsWith(kept + "\n" + Fence, PythonFence) by {
      assert (kept + "\n" + Fence)[3] == kept[3];
    }
    ClosingFenceDropped(kept);
  }

  // ---------------------------------------------------------------------
  // Running pytest

  /** How a pytest run ended. */
  datatype PytestOutcome =
    | Finished(stdout: string)
    | TimedOut
    | PytestMissing
    | PytestFailed(error: string)

  const TimeoutMessage: string := "\U{23F0} Error: Test execution timed out"
  const MissingMessage: string := "\U{274C} Error: pytest not installed. Install with: pip install pytest"

  /** `run_tests`: the captured output, or a message for a timeout or a
      missing pytest; any other failure propagates. */
  function RunTests(outcome: PytestOutcome): (r: Result<string, string>)
    ensures r.Failure? <==> outcome.PytestFailed?
    ensures r.Failure? ==> r.error == outcome.error
    ensures outcome.Finished? ==> r == Success(outcome.stdout)
    ensures outcome.TimedOut? ==> r == Success(TimeoutMessage)
    ensures outcome.PytestMissing? ==> r == Success(MissingMessage)
  {
    match outcome
    case Finished(stdout) => Success(stdout)
    case TimedOut => Success(TimeoutMessage)
    case PytestMissing => Success(MissingMessage)
    case PytestFailed(error) => Failure(error)
  }

  // ---------------------------------------------------------------------
  // The ladder

  /** The outside world as `generate_tests` sees it. `model` answers the
      prompt built from the file path, the file's content and the module
      name, with the reply's text if it has one. */
  datatype Environment = Environment(
    cwd: string,
    isFile: string -> bool,
    read: string -> Result<string, string>,
    apiKey: Option<string>,
    model: (string, string, string) -> Result<Option<string>, string>,
    makeDirs: string -> Option<string>,
    write: (string, string) -> Option<string>,
    pytest: (string, int) -> PytestOutcome)

  /** The effects `generate_tests` has on the outside world, in order. */
  datatype Effect =
    | ReadFile(path: string)
    | CalledModel(filePath: string)
    | MadeDirs(path: string)
    | WroteFile(path: string, code: string)
    | RanPytest(path: string, timeout: int)

  const ErrorPrefix: string := "Error: "
  const NoApiKeyMessage: string := ErrorPrefix + "GEMINI_API_KEY environment variable not set"
  const NoCodeMessage: string := ErrorPrefix + "Failed to generate test code"

  const SuccessHead: string := "\U{2705} Generated tests for "
  const NotFoundPrefix: string := ErrorPrefix + "File not found: "

  /** What a successful run returns: the head naming the file, then the test
      file and pytest's report. */
  function SuccessMessage(filePath: string, testPath: string, results: string): string
  {
    (SuccessHead + filePath) + ReportTail(testPath, results)
  }

  function ReportTail(testPath: string, results: string): string
  {
    "\n\U{1F4C1} Test file: " + testPath + "\n\n\U{1F9EA} Test results:\n" + results
  }

  /** What `generate_tests` returns, with the effects it had, in order. */
  datatype Outcome = Outcome(message: string, effects: seq<Effect>)

  /** What the second half creates and writes: the tests directory, the
      test path, and the cleaned code. */
  datatype Target = Target(dir: string, path: string, code: string)

  /** Every effect of a complete run, in the order they happen. */
  function AllEffects(validatedPath: string, filePath: string, target: Target, timeout: int): seq<Effect>
  {
    [ReadFile(validatedPath), CalledModel(filePath), MadeDirs(target.dir),
     WroteFile(target.path, target.code), RanPytest(target.path, timeout)]
  }

  /** The second half of `generate_tests`, once the model has answered with
      non-empty text. */
  function AfterReply(filePath: string, target: Target, timeout: int, env: Environment): Outcome
  {
    if env.makeDirs(target.dir).Some? then Outcome(ErrorPrefix + env.makeDirs(target.dir).value, [MadeDirs(target.dir)])
    else if env.write(target.path, target.code).Some? then
      Outcome(ErrorPrefix + env.write(target.path, target.code).value, [MadeDirs(target.dir), WroteFile(target.path, target.code)])
    else
      var effects := [MadeDirs(target.dir), WroteFile(target.path, target.code), RanPytest(target.path, timeout)];
      match RunTests(env.pytest(target.path, timeout))
      case Success(results) => Outcome(SuccessMessage(filePath, target.path, results), effects)
      case Failure(e) => Outcome(ErrorPrefix + e, effects)
  }

  /** The ladder given the outcome of validating the file path, the module
      name, the tests directory, the test path and the cleanup applied to the
      reply. */
  function Steps(filePath: string, validated: Result<string, string>, moduleName: string,
                 dir: string, path: string, clean: string -> string, timeout: int, env: Environment): Outcome
  {
    match validated
    case Failure(e) => Outcome(ErrorPrefix + e, [])
    case Success(v) =>
      if !env.isFile(v) then Outcome(NotFoundPrefix + v, [])
      else match env.read(v)
      case Failure(e) => Outcome(ErrorPrefix + e, [ReadFile(v)])
      case Success(content) =>
        if !Truthy(env.apiKey) then Outcome(NoApiKeyMessage, [ReadFile(v)])
        else match env.model(filePath, content, moduleName)
        case Failure(e) => Outcome(ErrorPrefix + e, [ReadFile(v), CalledModel(filePath)])
        case Success(text) =>
          if !Truthy(text) then Outcome(NoCodeMessage, [ReadFile(v), CalledModel(filePath)])
          else
            var rest := AfterReply(filePath, Target(dir, path, clean(text.value)), timeout, env);
            Outcome(rest.message, [ReadFile(v), CalledModel(filePath)] + rest.effects)
  }

  /** The error-return ladder of `generate_tests`. */
  function Ladder(filePath: string, workingDir: string, timeout: int, env: Environment): Outcome
    requires IsAbs(env.cwd)
  {
    Steps(filePath, ValidatePath(filePath, workingDir, env.cwd), ModuleName(filePath),
          TestDir(workingDir, env.cwd), TestPath(filePath, workingDir, env.cwd), CleanTestCode, timeout, env)
  }

  /** A path outside the working directory is refused with the validation
      error, and nothing at all happens. */
  lemma EscapeRefused(filePath: string, workingDir: string, timeout: int, env: Environment)
    requires IsAbs(env.cwd)
    requires ValidatePath(filePath, workingDir, env.cwd).Failure?
    ensures Ladder(filePath, workingDir, timeout, env) == Outcome(ErrorPrefix + OutsideError(filePath), [])
  {
  }

  /** A missing file is reported with its validated path before any read or
      model call. */
  lemma MissingFileReported(filePath: string, workingDir: string, timeout: int, env: Environment)
    requires IsAbs(env.cwd)
    requires var v := ValidatePath(filePath, workingDir, env.cwd); v.Success? && !env.isFile(v.value)
    ensures Ladder(filePath, workingDir, timeout, env)
         == Outcome(NotFoundPrefix + ValidatePath(filePath, workingDir, env.cwd).value, [])
  {
  }

  /** Every run returns either an `Error: ...` string or the success report
      for the file. */
  lemma MessageShape(filePath: string, workingDir: string, timeout: int, env: Environment)
    requires IsAbs(env.cwd)
    ensures var m := Ladder(filePath, workingDir, timeout, env).message;
      StartsWith(m, ErrorPrefix) || StartsWith(m, SuccessHead + filePath)
  {
    StepsMessage(filePath, ValidatePath(filePath, workingDir, env.cwd), ModuleName(filePath),
                 TestDir(workingDir, env.cwd), TestPath(filePath, workingDir, env.cwd), CleanTestCode, timeout, env);
  }

  lemma StepsMessage(filePath: string, validated: Result<string, string>, moduleName: string,
                     dir: string, path: string, clean: string -> string, timeout: int, env: Environment)
    ensures var m := Steps(filePath, validated, moduleName, dir, path, clean, timeout, env).message;
      StartsWith(m, ErrorPrefix) || StartsWith(m, SuccessHead + filePath)
  {
    if validated.Success? && env.isFile(validated.value) && env.read(validated.value).Success? && Truthy(env.apiKey) {
      var reply := env.model(filePath, env.read(validated.value).value, moduleName);
      if reply.Success? && Truthy(reply.value) {
        AfterReplyMessage(filePath, Target(dir, path, clean(reply.value.value)), timeout, env);
      }
    }
  }

  /** The second half returns an `Error: ...` string or the success report. */
  lemma AfterReplyMessage(filePath: string, target: Target, timeout: int, env: Environment)
    ensures var m := AfterReply(filePath, target, timeout, env).message;
      StartsWith(m, ErrorPrefix) || StartsWith(m, SuccessHead + filePath)
  {
    if env.makeDirs(target.dir).None? && env.write(target.path, target.code).None? {
      var out := RunTests(env.pytest(target.path, timeout));
      if out.Success? {
        assert StartsWith(SuccessMessage(filePath, target.path, out.value), SuccessHead + filePath);
      }
    }
  }

  /** Each failing step of the first half ends the run with its own message,
      and the effects stop at the step that failed. A step that succeeds
      leads to the next one; a non-empty reply leads to the second half. */
  lemma StepsOutcomes(filePath: string, validated: Result<string, string>, moduleName: string,
                      dir: string, path: string, clean: string -> string, timeout: int, env: Environment)
    ensures var r := Steps(filePath, validated, moduleName, dir, path, clean, timeout, env);
      && (validated.Failure? ==> r == Outcome(ErrorPrefix + validated.error, []))
      && (validated.Success? ==>
            var v := validated.value;
            && (!env.isFile(v) ==> r == Outcome(NotFoundPrefix + v, []))
            && (env.isFile(v) && env.read(v).Failure? ==>
                  r == Outcome(ErrorPrefix + env.read(v).error, [ReadFile(v)]))
            && (env.isFile(v) && env.read(v).Success? && !Truthy(env.apiKey) ==>
                  r == Outcome(NoApiKeyMessage, [ReadFile(v)]))
            && (env.isFile(v) && env.read(v).Success? && Truthy(env.apiKey) ==>
                  var reply := env.model(filePath, env.read(v).value, moduleName);
                  && (reply.Failure? ==> r == Outcome(ErrorPrefix + reply.error, [ReadFile(v), CalledModel(filePath)]))
                  && (reply.Success? && !Truthy(reply.value) ==>
                        r == Outcome(NoCodeMessage, [ReadFile(v), CalledModel(filePath)]))
                  && (reply.Success? && Truthy(reply.value) ==>
                        var rest := AfterReply(filePath, Target(dir, path, clean(reply.value.value)), timeout, env);
                        r == Outcome(rest.message, [ReadFile(v), CalledModel(filePath)] + rest.effects))))
  {
  }

  /** Each failing step of the second half ends the run with `Error: ` and
      the exception's message, and the effects stop at the step that failed;
      only when every step succeeded is the success report returned. */
  lemma AfterReplyOutcomes(filePath: string, target: Target, timeout: int, env: Environment)
    ensures var r := AfterReply(filePath, target, timeout, env);
      var made := env.makeDirs(target.dir);
      var written := env.write(target.path, target.code);
      var ran := env.pytest(target.path, timeout);
      var all := [MadeDirs(target.dir), WroteFile(target.path, target.code), RanPytest(target.path, timeout)];
      && (made.Some? ==> r == Outcome(ErrorPrefix + made.value, all[..1]))
      && (made.None? && written.Some? ==> r == Outcome(ErrorPrefix + written.value, all[..2]))
      && (made.None? && written.None? && ran.PytestFailed? ==> r == Outcome(ErrorPrefix + ran.error, all))
      && (made.None? && written.None? && !ran.PytestFailed? ==>
            r == Outcome(SuccessMessage(filePath, target.path, RunTests(ran).value), all))
  {
  }

  /** The text the model answered with, or `""` when the run gets no text. */
  function ReplyText(filePath: string, validated: Result<string, string>, moduleName: string, env: Environment): string
  {
    match validated
    case Failure(_) => ""
    case Success(v) =>
      match env.read(v)
      case Failure(_) => ""
      case Success(content) =>
        match env.model(filePath, content, moduleName)
        case Success(Some(text)) => text
        case _ => ""
  }

  /** The effects happen in a fixed order, each only after the one before it
      succeeded: a run's effects are a prefix of reading the file, asking the
      model, creating the tests directory, writing the cleaned reply to the
      test path and running pytest on that path. */
  lemma StepsInOrder(filePath: string, validated: Result<string, string>, moduleName: string,
                     dir: string, path: string, clean: string -> string, timeout: int, env: Environment)
    requires validated.Success?
    ensures var text := ReplyText(filePath, validated, moduleName, env);
      Steps(filePath, validated, moduleName, dir, path, clean, timeout, env).effects
        <= AllEffects(validated.value, filePath, Target(dir, path, clean(text)), timeout)
  {
    var v := validated.value;
    var r := Steps(filePath, validated, moduleName, dir, path, clean, timeout, env);
    if env.isFile(v) && env.read(v).Success? && Truthy(env.apiKey) {
      var reply := env.model(filePath, env.read(v).value, moduleName);
      if reply.Success? && Truthy(reply.value) {
        var text := reply.value.value;
        assert ReplyText(filePath, validated, moduleName, env) == text;
        var all := AllEffects(v, filePath, Target(dir, path, clean(text)), timeout);
        var rest := AfterReply(filePath, Target(dir, path, clean(text)), timeout, env);
        assert r.effects == all[..2] + rest.effects;
        assert rest.effects <= all[2..];
      }
    }
  }

  /** Nothing is written unless the model answered with non-empty text, and
      then it is that text, cleaned, at the test path. */
  lemma StepsWrites(filePath: string, validated: Result<string, string>, moduleName: string,
                    dir: string, path: string, clean: string -> string, timeout: int, env: Environment)
    ensures var r := Steps(filePath, validated, moduleName, dir, path, clean, timeout, env);
      var text := ReplyText(filePath, validated, moduleName, env);
      forall k :: 0 <= k < |r.effects| && r.effects[k].WroteFile? ==>
        text != "" && r.effects[k] == WroteFile(path, clean(text))
  {
    var r := Steps(filePath, validated, moduleName, dir, path, clean, timeout, env);
    if validated.Success? {
      StepsInOrder(filePath, validated, moduleName, dir, path, clean, timeout, env);
      var text := ReplyText(filePath, validated, moduleName, env);
      var all := AllEffects(validated.value, filePath, Target(dir, path, clean(text)), timeout);
      forall k | 0 <= k < |r.effects| && r.effects[k].WroteFile?
        ensures k == 3 && text != "" && r.effects[k] == WroteFile(path, clean(text))
      {
        assert r.effects[k] == all[k];
        var v := validated.value;
        var reply := env.model(filePath, env.read(v).value, moduleName);
        assert reply.Success? && Truthy(reply.value);
      }
    }
  }

  /** Every effect of a run is in the fixed order, and anything written is
      the model's non-empty reply, cleaned of its fence, at the test path
      under the working directory. */
  lemma WritesCleanedReply(filePath: string, workingDir: string, timeout: int, env: Environment)
    requires IsAbs(env.cwd)
    ensures var r := Ladder(filePath, workingDir, timeout, env);
      var v := ValidatePath(filePath, workingDir, env.cwd);
      var text := ReplyText(filePath, v, ModuleName(filePath), env);
      var t := TestPath(filePath, workingDir, env.cwd);
      && (v.Success? ==> r.effects <= AllEffects(v.value, filePath, Target(TestDir(workingDir, env.cwd), t, CleanTestCode(text)), timeout))
      && (forall k :: 0 <= k < |r.effects| && r.effects[k].WroteFile? ==>
            text != "" && r.effects[k] == WroteFile(t, CleanTestCode(text)))
      && StartsWith(t, AbsPath(env.cwd, workingDir))
  {
    var v := ValidatePath(filePath, workingDir, env.cwd);
    var dir := TestDir(workingDir, env.cwd);
    var t := TestPath(filePath, workingDir, env.cwd);
    TestPathAccepted(filePath, workingDir, env.cwd);
    if v.Success? {
      StepsInOrder(filePath, v, ModuleName(filePath), dir, t, CleanTestCode, timeout, env);
    }
    StepsWrites(filePath, v, ModuleName(filePath), dir, t, CleanTestCode, timeout, env);
  }

  /** `EmptyReplyWritesNothing` for any validated path and test target. */
  lemma NoCodeStops(filePath: string, validated: Result<string, string>, moduleName: string,
                    dir: string, path: string, clean: string -> string, timeout: int, env: Environment)
    requires validated.Success? && env.isFile(validated.value)
    requires env.read(validated.value).Success? && Truthy(env.apiKey)
    requires var reply := env.model(filePath, env.read(validated.value).value, moduleName);
      reply.Success? && !Truthy(reply.value)
    ensures Steps(filePath, validated, moduleName, dir, path, clean, timeout, env)
         == Outcome(NoCodeMessage, [ReadFile(validated.value), CalledModel(filePath)])
  {
    StepsOutcomes(filePath, validated, moduleName, dir, path, clean, timeout, env);
  }

  /** A reply without text is reported and nothing is written. */
  lemma EmptyReplyWritesNothing(filePath: string, workingDir: string, timeout: int, env: Environment)
    requires IsAbs(env.cwd)
    requires var v := ValidatePath(filePath, workingDir, env.cwd);
      && v.Success? && env.isFile(v.value) && env.read(v.value).Success? && Truthy(env.apiKey)
      && env.model(filePath, env.read(v.value).value, ModuleName(filePath)).Success?
      && !Truthy(env.model(filePath, env.read(v.value).value, ModuleName(filePath)).value)
    ensures var r := Ladder(filePath, workingDir, timeout, env);
      r.message == NoCodeMessage && forall k :: 0 <= k < |r.effects| ==> !r.effects[k].WroteFile?
  {
    var v := ValidatePath(filePath, workingDir, env.cwd);
    var dir := TestDir(workingDir, env.cwd);
    var t := TestPath(filePath, workingDir, env.cwd);
    NoCodeStops(filePath, v, ModuleName(filePath), dir, t, CleanTestCode, timeout, env);
    assert Ladder(filePath, workingDir, timeout, env) == Steps(filePath, v, ModuleName(filePath), dir, t, CleanTestCode, timeout, env);
  }

  // ---------------------------------------------------------------------
  // The imperative procedure

  /** The second half of `generate_tests`, once the model has answered with
      non-empty text: create the tests directory, validate the test path,
      clean the code in place, write it and run pytest on it. */
  method WriteAndRun(filePath: string, workingDir: string, timeout: int, env: Environment, text: string)
    returns (message: string, effects: seq<Effect>)
    requires IsAbs(env.cwd)
    ensures Outcome(message, effects)
         == AfterReply(filePath, Target(TestDir(workingDir, env.cwd), TestPath(filePath, workingDir, env.cwd), CleanTestCode(text)), timeout, env)
  {
    var testDir := TestDir(workingDir, env.cwd);
    effects := [MadeDirs(testDir)];
    var madeDirs := env.makeDirs(testDir);
    if madeDirs.Some? {
      return ErrorPrefix + madeDirs.value, effects;
    }
    var testFile := TestFileName(filePath);
    var testPath := PathJoin(testDir, testFile);
    TestPathAccepted(filePath, workingDir, env.cwd);
    var validatedTest := ValidatePath(testPath, workingDir, env.cwd);
    var validatedTestPath := validatedTest.value;
    assert validatedTestPath == TestPath(filePath, workingDir, env.cwd);
    var testCode := text;
    if StartsWith(testCode, PythonFence) {
      testCode := Strip(ReplaceFirst(StripChars(testCode, {'`'}), "python", ""));
    }
    if EndsWith(testCode, Fence) {
      testCode := Strip(BeforeLast(testCode, Fence));
    }
    assert testCode == CleanTestCode(text);
    effects := [MadeDirs(testDir), WroteFile(validatedTestPath, testCode)];
    var written := env.write(validatedTestPath, testCode);
    if written.Some? {
      return ErrorPrefix + written.value, effects;
    }
    effects := [MadeDirs(testDir), WroteFile(validatedTestPath, testCode), RanPytest(validatedTestPath, timeout)];
    var result := RunTests(env.pytest(validatedTestPath, timeout));
    if result.Failure? {
      return ErrorPrefix + result.error, effects;
    }
    return SuccessMessage(filePath, validatedTestPath, result.value), effects;
  }

  /** `generate_tests`: validate the paths, read the file, ask the model, then
      write and run the tests. Every failure, including a path outside the
      working directory, becomes a returned `Error: ...` string. */
  method GenerateTests(filePath: string, workingDir: string, timeout: int, env: Environment)
    returns (message: string, effects: seq<Effect>)
    requires IsAbs(env.cwd)
    ensures Outcome(message, effects) == Ladder(filePath, workingDir, timeout, env)
  {
    effects := [];
    var validated := ValidatePath(filePath, workingDir, env.cwd);
    if validated.Failure? {
      return ErrorPrefix + validated.error, effects;
    }
    var validatedPath := validated.value;
    var testDir := ValidatePath("tests", workingDir, env.cwd);
    TestDirAccepted(workingDir, env.cwd);
    if !env.isFile(validatedPath) {
      return NotFoundPrefix + validatedPath, effects;
    }
    effects := [ReadFile(validatedPath)];
    var read := env.read(validatedPath);
    if read.Failure? {
      return ErrorPrefix + read.error, effects;
    }
    if !Truthy(env.apiKey) {
      return NoApiKeyMessage, effects;
    }
    var moduleName := ModuleName(filePath);
    effects := [ReadFile(validatedPath), CalledModel(filePath)];
    var response := env.model(filePath, read.value, moduleName);
    if response.Failure? {
      return ErrorPrefix + response.error, effects;
    }
    if !Truthy(response.value) {
      return NoCodeMessage, effects;
    }
    var tail;
    message, tail := WriteAndRun(filePath, workingDir, timeout, env, response.value.value);
    effects := effects + tail;
  }
}
