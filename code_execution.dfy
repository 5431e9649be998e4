/**
 * The sandboxed code-execution engine: `SafeCodeExecutor`, the pytest output
 * parser of `TestRunner`, and the session registry of `CodeInteractionEngine`.
 *
 * The operating system is abstracted: a child process is a function `Runner`
 * from (argv, cwd, environment) to an `Outcome`; the clock and the random part
 * of temp-file ids are parameters; the temp directory is a map from file name
 * to content.
 */
module CodeExecution {
  import opened Wrappers
  import opened Text

  const DefaultTimeout: int := 30
  const MaxOutputSize: nat := 1024 * 1024
  const OutputMarker: string := "\n... [Output truncated]"
  const ErrorMarker: string := "\n... [Error output truncated]"

  /** Executables a resolved command may start with. There is no `npx`, `rustc` or `bash`. */
  const AllowedCommands: set<string> := {
    "python", "python3", "node", "npm", "pip", "pip3",
    "gcc", "g++", "javac", "java", "go", "cargo",
    "make", "cmake", "docker", "git"
  }

  /** File extension per (lower-cased) language name. */
  const Extensions: map<string, string> := map[
    "python" := ".py", "javascript" := ".js", "typescript" := ".ts",
    "java" := ".java", "cpp" := ".cpp", "c" := ".c", "go" := ".go",
    "rust" := ".rs", "shell" := ".sh"
  ]

  /** The languages whose command passes the allow-list. */
  const Runnable: set<string> := {"python", "javascript", "java", "cpp", "c", "go"}

  datatype ExecutionResult = ExecutionResult(
    success: bool,
    stdout: string,
    stderr: string,
    exitCode: int,
    command: string,
    workingDirectory: string,
    environment: map<string, string>)

  /** What the operating system did with a command line. */
  datatype Outcome =
    | Completed(returnCode: int, out: string, err: string)  // exited; output already decoded
    | TimedOut                                               // still running when the timeout expired
    | SpawnFailed(message: string)                           // could not be started
    | WaitFailed(message: string)                            // started, then another exception while waiting

  type Runner = (seq<string>, string, map<string, string>) -> Outcome

  // ---------------------------------------------------------------- temp files

  /** The extension of the temp file for `language`: the table entry of its lower-cased name, else ".txt". */
  function ExtensionFor(language: string): (ext: string)
    ensures Lower(language) in Extensions ==> ext == Extensions[Lower(language)]
    ensures Lower(language) !in Extensions ==> ext == ".txt"
    ensures |ext| >= 2 && ext[0] == '.'
  {
    var lang := Lower(language);
    if lang in Extensions then Extensions[lang] else ".txt"
  }

  /** `workspace_dir / "temp"`. */
  function TempDir(workspace: string): string {
    PathJoin(workspace, "temp")
  }

  /** The stem of the `counter`-th candidate name: `code_<id>` first, then `code_<id>_<n>`. */
  function CandidateStem(uniqueId: string, counter: nat): string {
    if counter == 0 then "code_" + uniqueId else "code_" + uniqueId + "_" + NatToString(counter)
  }

  function Candidate(uniqueId: string, counter: nat, ext: string): string {
    CandidateStem(uniqueId, counter) + ext
  }

  /** `f"{int(time.time())}_{random.randint(1000, 9999)}"`. */
  function UniqueId(now: nat, rand: int): string {
    NatToString(now) + "_" + IntToString(rand)
  }

  /**
   * The counter the name probe stops at when started at `k`: the first
   * candidate not in `existing`, or 100 when the retries run out.
   */
  function ProbeFrom(existing: set<string>, uniqueId: string, ext: string, k: nat): (n: nat)
    requires k <= 100
    ensures k <= n <= 100
    ensures Candidate(uniqueId, n, ext) !in existing || n == 100
    ensures forall j :: k <= j < n ==> Candidate(uniqueId, j, ext) in existing
    decreases 100 - k
  {
    if Candidate(uniqueId, k, ext) !in existing || k == 100 then k
    else ProbeFrom(existing, uniqueId, ext, k + 1)
  }

  /** When every candidate up to the 100th is taken, the probe settles on an existing name. */
  lemma ProbeExhausted(existing: set<string>, uniqueId: string, ext: string)
    requires forall j :: 0 <= j <= 100 ==> Candidate(uniqueId, j, ext) in existing
    ensures ProbeFrom(existing, uniqueId, ext, 0) == 100
    ensures Candidate(uniqueId, 100, ext) in existing
  {
  }

  /** The `while temp_file.exists() and counter < 100` loop of `_create_temp_file`. */
  method ProbeName(existing: set<string>, uniqueId: string, ext: string) returns (name: string, counter: nat)
    ensures counter <= 100 && name == Candidate(uniqueId, counter, ext)
    ensures name !in existing || counter == 100
    ensures forall j :: 0 <= j < counter ==> Candidate(uniqueId, j, ext) in existing
    ensures counter == ProbeFrom(existing, uniqueId, ext, 0)
  {
    counter := 0;
    name := Candidate(uniqueId, 0, ext);
    while name in existing && counter < 100
      invariant counter <= 100 && name == Candidate(uniqueId, counter, ext)
      invariant forall j :: 0 <= j < counter ==> Candidate(uniqueId, j, ext) in existing
      invariant ProbeFrom(existing, uniqueId, ext, counter) == ProbeFrom(existing, uniqueId, ext, 0)
    {
      counter := counter + 1;
      name := Candidate(uniqueId, counter, ext);
    }
  }

  // ---------------------------------------------------------------- command resolution

  /**
   * `_get_execution_command` for a file in the normalised, non-root directory `dir`
   * (so joining with "/" is `pathlib`'s `/`): the table entry for the lower-cased language,
   * refused when the language is not in the table or the command's first word
   * is not allowed. `dir`, `stem` and `ext` locate the file; `filenameOnly`
   * selects `file_path.name` as the reference for the entries that use it.
   */
  function ExecutionCommand(dir: string, stem: string, ext: string, language: string, filenameOnly: bool): (r: Result<seq<string>, string>)
    ensures r.Ok? <==> Lower(language) in Runnable
    ensures r.Ok? ==> |r.value| >= 2 && r.value[0] in AllowedCommands
    ensures Lower(language) !in Extensions ==> r == Err("Unsupported language: " + language)
    ensures Lower(language) in {"python", "javascript", "go"} ==>
      r.value[|r.value| - 1] == (if filenameOnly then stem + ext else dir + "/" + stem + ext)
    ensures Lower(language) == "java" ==> r == Ok(["java", "-cp", dir, stem])
    ensures Lower(language) in {"cpp", "c"} ==>
      var exe := dir + "/" + stem;
      r == Ok([if Lower(language) == "cpp" then "g++" else "gcc", "-o", exe, exe + ext, "&&", exe])
  {
    var full := dir + "/" + stem + ext;
    var ref := if filenameOnly then stem + ext else full;
    var exe := dir + "/" + stem;
    var lang := Lower(language);
    var command :=
      if lang == "python" then ["python3", ref]
      else if lang == "javascript" then ["node", ref]
      else if lang == "typescript" then ["npx", "ts-node", ref]
      else if lang == "java" then ["java", "-cp", dir, stem]
      else if lang == "cpp" then ["g++", "-o", exe, full, "&&", exe]
      else if lang == "c" then ["gcc", "-o", exe, full, "&&", exe]
      else if lang == "go" then ["go", "run", ref]
      else if lang == "rust" then ["rustc", full, "-o", exe, "&&", exe]
      else if lang == "shell" then ["bash", ref]
      else [];
    if command == [] then Err("Unsupported language: " + language)
    else if command[0] !in AllowedCommands then Err("Command not allowed: " + command[0])
    else Ok(command)
  }

  /** typescript, rust and shell have table entries, but `npx`, `rustc` and `bash` are not allowed. */
  lemma RefusedByAllowList(dir: string, stem: string, ext: string, language: string, filenameOnly: bool)
    ensures Lower(language) == "typescript" ==> ExecutionCommand(dir, stem, ext, language, filenameOnly) == Err("Command not allowed: " + "npx")
    ensures Lower(language) == "rust" ==> ExecutionCommand(dir, stem, ext, language, filenameOnly) == Err("Command not allowed: " + "rustc")
    ensures Lower(language) == "shell" ==> ExecutionCommand(dir, stem, ext, language, filenameOnly) == Err("Command not allowed: " + "bash")
  {
  }

  /** A language whose temp file falls back to ".txt" is never runnable. */
  lemma TxtNeverRuns(dir: string, stem: string, language: string, filenameOnly: bool)
    requires ExtensionFor(language) == ".txt"
    ensures ExecutionCommand(dir, stem, ".txt", language, filenameOnly) == Err("Unsupported language: " + language)
  {
    assert Lower(language) !in Extensions;
  }

  // ---------------------------------------------------------------- results

  /** The cap applied to decoded output: unchanged up to `MaxOutputSize`, else the first `MaxOutputSize` characters and `marker`. */
  function Truncate(s: string, marker: string): (r: string)
    ensures |s| <= MaxOutputSize ==> r == s
    ensures |r| <= MaxOutputSize + |marker|
    ensures |s| > MaxOutputSize ==> |r| == MaxOutputSize + |marker| && r[..MaxOutputSize] == s[..MaxOutputSize]
  {
    if |s| > MaxOutputSize then s[..MaxOutputSize] + marker else s
  }

  /** The environment a child sees: the host's, then the caller's overrides, then the two hygiene variables. */
  function ChildEnvironment(host: map<string, string>, overrides: map<string, string>): (env: map<string, string>)
    ensures "PYTHONDONTWRITEBYTECODE" in env && env["PYTHONDONTWRITEBYTECODE"] == "1"
    ensures "PYTHONUNBUFFERED" in env && env["PYTHONUNBUFFERED"] == "1"
    ensures forall k :: k in overrides && k !in {"PYTHONDONTWRITEBYTECODE", "PYTHONUNBUFFERED"} ==> k in env && env[k] == overrides[k]
    ensures forall k :: k in host && k !in overrides && k !in {"PYTHONDONTWRITEBYTECODE", "PYTHONUNBUFFERED"} ==> k in env && env[k] == host[k]
    ensures env.Keys == host.Keys + overrides.Keys + {"PYTHONDONTWRITEBYTECODE", "PYTHONUNBUFFERED"}
  {
    (host + overrides)["PYTHONDONTWRITEBYTECODE" := "1"]["PYTHONUNBUFFERED" := "1"]
  }

  /** The `ExecutionResult` `_safe_execute` builds for each way the process can end. */
  function ResultFor(argv: seq<string>, dir: string, timeout: int, environment: map<string, string>, outcome: Outcome): (r: ExecutionResult)
    ensures r.success <==> outcome.Completed? && outcome.returnCode == 0
    ensures r.success ==> r.exitCode == 0
    ensures !outcome.Completed? ==> r.stdout == "" && r.exitCode < 0
    ensures outcome.TimedOut? ==> r.exitCode == -1 && r.stderr == "Execution timed out after " + IntToString(timeout) + " seconds"
    ensures outcome.SpawnFailed? ==> r.exitCode == -2 && r.stderr == "Execution error: " + outcome.message
    ensures outcome.WaitFailed? ==> r.exitCode == -2 && r.stderr == "Execution error: " + outcome.message
    ensures outcome.Completed? ==> (r.exitCode == outcome.returnCode
      && r.stdout == Truncate(outcome.out, OutputMarker) && r.stderr == Truncate(outcome.err, ErrorMarker))
    ensures |r.stdout| <= MaxOutputSize + |OutputMarker|
    ensures r.command == Join(argv, " ") && r.workingDirectory == dir && r.environment == environment
  {
    var command := Join(argv, " ");
    match outcome
    case Completed(rc, out, err) =>
      ExecutionResult(rc == 0, Truncate(out, OutputMarker), Truncate(err, ErrorMarker), rc, command, dir, environment)
    case TimedOut =>
      ExecutionResult(false, "", "Execution timed out after " + IntToString(timeout) + " seconds", -1, command, dir, environment)
    case SpawnFailed(msg) =>
      ExecutionResult(false, "", "Execution error: " + msg, -2, command, dir, environment)
    case WaitFailed(msg) =>
      ExecutionResult(false, "", "Execution error: " + msg, -2, command, dir, environment)
  }

  /** `timeout or self.default_timeout`: an absent or zero timeout means 30 seconds. */
  function EffectiveTimeout(timeout: Option<int>): (t: int)
    ensures t != 0
    ensures timeout.Some? && timeout.value != 0 ==> t == timeout.value
  {
    if timeout.None? || timeout.value == 0 then DefaultTimeout else timeout.value
  }

  /** The command `execute_script` builds from the script's lower-cased suffix. */
  function ScriptCommand(path: string, args: seq<string>): (argv: seq<string>)
    ensures |argv| >= 1 + |args| && argv[|argv| - |args|..] == args
    ensures argv[|argv| - |args| - 1] == path
    ensures Lower(PathSuffix(path)) == ".py" ==> argv[0] == "python3"
    ensures Lower(PathSuffix(path)) in {".js", ".mjs"} ==> argv[0] == "node"
    ensures Lower(PathSuffix(path)) == ".sh" ==> argv[0] == "bash"
    ensures Lower(PathSuffix(path)) !in {".py", ".js", ".mjs", ".sh"} ==> argv == [path] + args
  {
    var ext := Lower(PathSuffix(path));
    if ext == ".py" then ["python3", path] + args
    else if ext == ".js" || ext == ".mjs" then ["node", path] + args
    else if ext == ".sh" then ["bash", path] + args
    else [path] + args
  }

  // ---------------------------------------------------------------- pytest output

  datatype TestResult = TestResult(testName: string, passed: bool, failed: bool, skipped: bool, output: string)

  /**
   * The first whitespace-separated word, as `s.split()[0]`: the maximal run of
   * non-space characters after the leading whitespace; `None` where Python
   * raises `IndexError`.
   */
  function FirstWord(s: string): (r: Option<string>)
    ensures r.None? <==> forall k :: 0 <= k < |s| ==> IsSpace(s[k])
    ensures r.Some? ==> exists i :: FirstRunAt(s, i, r.value)
  {
    var t := StripLeft(s);
    if |t| == 0 then None
    else
      WordAfterBlanks(s);
      Some(WordPrefix(t))
  }

  lemma WordAfterBlanks(s: string)
    requires |StripLeft(s)| > 0
    ensures FirstRunAt(s, |s| - |StripLeft(s)|, WordPrefix(StripLeft(s)))
  {
    var t := StripLeft(s);
    var i := |s| - |t|;
    var w := WordPrefix(t);
    assert t == s[i..] && w == t[..|w|];
    assert |w| == |t| || IsSpace(t[|w|]);
    RunAfterBlanks(s, i, w);
  }

  /** The run `w` read from the suffix at `i`, after only whitespace, is the first run. */
  lemma RunAfterBlanks(s: string, i: nat, w: string)
    requires i <= |s| && 0 < |w| <= |s| - i && w == s[i..][..|w|]
    requires forall k :: 0 <= k < i ==> IsSpace(s[k])
    requires forall k :: 0 <= k < |w| ==> !IsSpace(w[k])
    requires |w| == |s| - i || IsSpace(s[i..][|w|])
    ensures FirstRunAt(s, i, w)
  {
    assert w == s[i..i + |w|];
    forall k | i <= k < i + |w| ensures !IsSpace(s[k]) {
      assert s[k] == w[k - i];
    }
    if i + |w| < |s| {
      assert s[i + |w|] == s[i..][|w|];
    }
  }

  /** `w` is the run of non-space characters starting at `i`, and only whitespace comes before `i`. */
  predicate FirstRunAt(s: string, i: int, w: string) {
    0 <= i && i + |w| <= |s| && |w| > 0 && w == s[i..i + |w|]
    && (forall k :: 0 <= k < i ==> IsSpace(s[k]))
    && (forall k :: i <= k < i + |w| ==> !IsSpace(s[k]))
    && (i + |w| == |s| || IsSpace(s[i + |w|]))
  }

  function WordPrefix(t: string): (w: string)
    ensures |w| <= |t| && w == t[..|w|]
    ensures forall k :: 0 <= k < |w| ==> !IsSpace(w[k])
    ensures |t| > 0 && !IsSpace(t[0]) ==> |w| > 0
    ensures |w| == |t| || IsSpace(t[|w|])
  {
    if |t| == 0 || IsSpace(t[0]) then "" else [t[0]] + WordPrefix(t[1..])
  }

  predicate IsResultLine(line: string) {
    Contains(line, "::") && (Contains(line, "PASSED") || Contains(line, "FAILED") || Contains(line, "SKIPPED"))
  }

  /** `line.split("::")[-1]`. */
  function LastPiece(line: string): string {
    var parts := SplitOn(line, "::");
    parts[|parts| - 1]
  }

  /** The record one pytest result line yields; `Err` where `parts[-1].split()[0]` raises. */
  function ParseResultLine(line: string): Result<TestResult, string> {
    match FirstWord(LastPiece(line))
    case None => Err("list index out of range")
    case Some(name) =>
      Ok(TestResult(name, Contains(line, "PASSED"), Contains(line, "FAILED"), Contains(line, "SKIPPED"), line))
  }

  /** Python `s.split(sep)` for a non-empty separator string. */
  function SplitOn(s: string, sep: string): (r: seq<string>)
    requires |sep| > 0
    ensures |r| >= 1
    decreases |s|
  {
    var i := Find(s, sep);
    if i < 0 then [s] else [s[..i]] + SplitOn(s[i + |sep|..], sep)
  }

  /** The results the pytest branch collects from `lines`, or the first error. */
  function PytestResults(lines: seq<string>): Result<seq<TestResult>, string>
  {
    if |lines| == 0 then Ok([])
    else match PytestResults(lines[..|lines| - 1])
      case Err(e) => Err(e)
      case Ok(prev) =>
        var line := lines[|lines| - 1];
        if !IsResultLine(line) then Ok(prev)
        else match ParseResultLine(line)
          case Err(e) => Err(e)
          case Ok(t) => Ok(prev + [t])
  }

  lemma PytestStep(lines: seq<string>, i: nat)
    requires i < |lines|
    ensures PytestResults(lines[..i + 1]) ==
      match PytestResults(lines[..i])
      case Err(e) => Err(e)
      case Ok(prev) =>
        if !IsResultLine(lines[i]) then Ok(prev)
        else match ParseResultLine(lines[i])
          case Err(e) => Err(e)
          case Ok(t) => Ok(prev + [t])
  {
    assert lines[..i + 1][..i] == lines[..i];
  }

  /** The first line that raises decides the outcome: later lines are never looked at. */
  lemma {:induction false} PytestErrorSticks(lines: seq<string>, k: nat)
    requires k <= |lines| && PytestResults(lines[..k]).Err?
    ensures PytestResults(lines) == PytestResults(lines[..k])
    decreases |lines| - k
  {
    if k == |lines| {
      assert lines[..k] == lines;
    } else {
      PytestStep(lines, k);
      PytestErrorSticks(lines, k + 1);
    }
  }

  /** `TestRunner._parse_test_output`: only the "pytest" framework yields results. */
  method ParseTestOutput(output: string, framework: string) returns (r: Result<seq<TestResult>, string>)
    ensures framework != "pytest" ==> r == Ok([])
    ensures framework == "pytest" ==> r == PytestResults(Split(output, '\n'))
  {
    if framework != "pytest" {
      return Ok([]);
    }
    var lines := Split(output, '\n');
    var results: seq<TestResult> := [];
    var i := 0;
    while i < |lines|
      invariant 0 <= i <= |lines|
      invariant PytestResults(lines[..i]) == Ok(results)
    {
      var line := lines[i];
      PytestStep(lines, i);
      if IsResultLine(line) {
        var parsed := ParseResultLine(line);
        if parsed.Err? {
          PytestErrorSticks(lines, i + 1);
          return Err(parsed.error);
        }
        results := results + [parsed.value];
      }
      i := i + 1;
    }
    assert lines[..|lines|] == lines;
    return Ok(results);
  }

  /**
   * Every parsed result comes from a result line, names a non-empty word and
   * sets its flags from that line; there are never more results than lines.
   */
  lemma {:induction false} PytestResultsSound(lines: seq<string>)
    requires PytestResults(lines).Ok?
    ensures |PytestResults(lines).value| <= |lines|
    ensures forall t :: t in PytestResults(lines).value ==>
      t.output in lines && IsResultLine(t.output) && |t.testName| > 0
      && t.passed == Contains(t.output, "PASSED") && t.failed == Contains(t.output, "FAILED")
      && t.skipped == Contains(t.output, "SKIPPED")
      && (t.passed || t.failed || t.skipped)
  {
    if |lines| > 0 {
      var init := lines[..|lines| - 1];
      PytestResultsSound(init);
      forall t | t in PytestResults(init).value ensures t.output in lines {
        assert t.output in init;
      }
    }
  }

  /** The result lines among `lines`, in order. */
  function ResultLines(lines: seq<string>): (r: seq<string>)
    ensures forall l :: l in r <==> l in lines && IsResultLine(l)
  {
    if |lines| == 0 then []
    else
      var init := lines[..|lines| - 1];
      assert forall l :: l in init ==> l in lines;
      assert lines == init + [lines[|lines| - 1]];
      ResultLines(init) + (if IsResultLine(lines[|lines| - 1]) then [lines[|lines| - 1]] else [])
  }

  /**
   * The parse succeeds exactly when every result line has a word after its
   * last "::", and then yields one result per result line, in order, named by
   * that word and carrying the line.
   */
  lemma {:induction false} PytestResultsComplete(lines: seq<string>)
    ensures PytestResults(lines).Ok? <==> AllNamed(ResultLines(lines))
    ensures var rl := ResultLines(lines);
      PytestResults(lines).Ok? ==>
        |PytestResults(lines).value| == |rl|
        && forall j :: 0 <= j < |rl| ==> RecordOf(PytestResults(lines).value[j], rl[j])
  {
    if |lines| > 0 {
      var init := lines[..|lines| - 1];
      var line := lines[|lines| - 1];
      PytestResultsComplete(init);
      var prl := ResultLines(init);
      var rl := ResultLines(lines);
      var prev := PytestResults(init);
      if !IsResultLine(line) {
        assert rl == prl;
        assert PytestResults(lines) == prev;
      } else {
        assert rl == prl + [line];
        ResultLinesExtend(prl, line, rl);
        AllNamedExtend(prl, line);
        if prev.Err? {
          assert PytestResults(lines) == prev;
        } else if !Named(line) {
          assert PytestResults(lines).Err?;
          assert rl[|prl|] == line;
        } else {
          var t := ParseResultLine(line).value;
          assert PytestResults(lines) == Ok(prev.value + [t]);
          assert RecordOf(t, line);
          AppendMatched(prev.value, prl, t, line, RecordOf);
        }
      }
    }
  }

  /** `v` is the record of `line`: it carries the line and is named by the first word after its last "::". */
  predicate RecordOf(v: TestResult, line: string) {
    v.output == line && Some(v.testName) == FirstWord(LastPiece(line))
  }

  /** The line has a word after its last "::". */
  predicate Named(line: string) {
    FirstWord(LastPiece(line)).Some?
  }

  predicate AllNamed(rl: seq<string>) {
    forall j :: 0 <= j < |rl| ==> Named(rl[j])
  }

  lemma AllNamedExtend(prl: seq<string>, line: string)
    ensures AllNamed(prl + [line]) <==> AllNamed(prl) && Named(line)
  {
    AllExtend(prl, line, Named);
  }

  lemma AllExtend<T>(xs: seq<T>, x: T, p: T -> bool)
    ensures (forall j :: 0 <= j < |xs + [x]| ==> p((xs + [x])[j])) <==> (forall j :: 0 <= j < |xs| ==> p(xs[j])) && p(x)
  {
    var ys := xs + [x];
    assert ys[|xs|] == x;
    assert forall j :: 0 <= j < |xs| ==> ys[j] == xs[j];
  }

  /** Appending a pair that satisfies `ok` to lists that match pairwise keeps them matched. */
  lemma AppendMatched<R>(vs: seq<R>, prl: seq<string>, t: R, line: string, ok: (R, string) -> bool)
    requires |vs| == |prl| && forall j :: 0 <= j < |prl| ==> ok(vs[j], prl[j])
    requires ok(t, line)
    ensures |vs + [t]| == |prl + [line]|
    ensures forall j :: 0 <= j < |prl + [line]| ==> ok((vs + [t])[j], (prl + [line])[j])
  {
    var ws, rl := vs + [t], prl + [line];
    assert ws[|vs|] == t && rl[|prl|] == line;
    assert forall j :: 0 <= j < |prl| ==> ws[j] == vs[j] && rl[j] == prl[j];
  }

  lemma ResultLinesExtend(prl: seq<string>, line: string, rl: seq<string>)
    requires rl == prl + [line]
    ensures |rl| == |prl| + 1 && rl[|prl|] == line
    ensures forall j :: 0 <= j < |prl| ==> rl[j] == prl[j]
  {
  }

  // ---------------------------------------------------------------- the executor

  class Executor {
    /** The workspace directory as `str(Path(...))`; temp files live in `TempDir(workspace)`. */
    const workspace: string
    /** Every result `execute_code` returned, oldest first. */
    var history: seq<ExecutionResult>
    /** Ids of processes registered as running. */
    var active: set<string>
    /** The files of the temp directory, name to content. */
    var temp: map<string, string>

    constructor (workspace: string, existingTemp: map<string, string>)
      ensures this.workspace == NormPath(workspace) && history == [] && active == {} && temp == existingTemp
    {
      this.workspace := NormPath(workspace);
      history := [];
      active := {};
      temp := existingTemp;
    }

    /** `_create_temp_file`: probe a free name, then write `code` to it even if the probe gave up. */
    method CreateTempFile(code: string, language: string, now: nat, rand: int) returns (stem: string, ext: string)
      modifies this`temp
      ensures ext == ExtensionFor(language)
      ensures stem == CandidateStem(UniqueId(now, rand), ProbeFrom(old(temp).Keys, UniqueId(now, rand), ext, 0))
      ensures temp == old(temp)[stem + ext := code]
    {
      ext := ExtensionFor(language);
      var name, counter := ProbeName(temp.Keys, UniqueId(now, rand), ext);
      stem := CandidateStem(UniqueId(now, rand), counter);
      temp := temp[name := code];
    }

    /**
     * `_safe_execute`: run `argv` and turn the outcome into a result. The
     * process id `exec_<now>` is registered once the spawn succeeded and is
     * removed again on every path out; `live` is the registry during the wait.
     */
    method SafeExecute(argv: seq<string>, dir: string, timeout: int, environment: map<string, string>,
                       host: map<string, string>, run: Runner, now: nat)
      returns (r: ExecutionResult, ghost live: set<string>)
      modifies this`active
      ensures r == ResultFor(argv, dir, timeout, environment, run(argv, dir, ChildEnvironment(host, environment)))
      ensures run(argv, dir, ChildEnvironment(host, environment)).SpawnFailed? ==> active == old(active) && live == old(active)
      ensures !run(argv, dir, ChildEnvironment(host, environment)).SpawnFailed? ==>
        live == old(active) + {"exec_" + NatToString(now)} && active == old(active) - {"exec_" + NatToString(now)}
    {
      var outcome := run(argv, dir, ChildEnvironment(host, environment));
      live := active;
      if !outcome.SpawnFailed? {
        var pid := "exec_" + NatToString(now);
        active := active + {pid};
        live := active;
        if pid in active {
          active := active - {pid};
        }
      }
      r := ResultFor(argv, dir, timeout, environment, outcome);
    }

    /**
     * `execute_code`. The temp file is written before the command is resolved
     * and is gone afterwards on both paths; a refused command is an `Err` (the
     * raised `ValueError`) and leaves the history alone; `workingDir` is never
     * used: the command runs in the temp directory with the file name alone.
     */
    method ExecuteCode(code: string, language: string, timeout: Option<int>, workingDir: Option<string>,
                       environment: map<string, string>, host: map<string, string>, run: Runner,
                       fileNow: nat, rand: int, spawnNow: nat)
      returns (r: Result<ExecutionResult, string>)
      modifies this`temp, this`history, this`active
      ensures var ext := ExtensionFor(language);
              var stem := CandidateStem(UniqueId(fileNow, rand), ProbeFrom(old(temp).Keys, UniqueId(fileNow, rand), ext, 0));
              var cmd := ExecutionCommand(TempDir(workspace), stem, ext, language, true);
              && temp == old(temp) - {stem + ext}
              && (r.Err? <==> cmd.Err?)
              && (cmd.Err? ==> r.error == cmd.error && history == old(history) && active == old(active))
              && (cmd.Ok? ==>
                   var outcome := run(cmd.value, TempDir(workspace), ChildEnvironment(host, environment));
                   && r.value == ResultFor(cmd.value, TempDir(workspace), EffectiveTimeout(timeout), environment, outcome)
                   && history == old(history) + [r.value]
                   && active == if outcome.SpawnFailed? then old(active) else old(active) - {"exec_" + NatToString(spawnNow)})
    {
      var t := EffectiveTimeout(timeout);
      var stem, ext := CreateTempFile(code, language, fileNow, rand);
      var cmd := ExecutionCommand(TempDir(workspace), stem, ext, language, true);
      if cmd.Err? {
        temp := temp - {stem + ext};
        return Err(cmd.error);
      }
      var result, live := SafeExecute(cmd.value, TempDir(workspace), t, environment, host, run, spawnNow);
      history := history + [result];
      temp := temp - {stem + ext};
      return Ok(result);
    }

    /**
     * `execute_script`: the path is taken as `Path(path)`; a missing script
     * raises; otherwise the command runs in the script's directory with no overrides.
     */
    method ExecuteScript(path: string, args: seq<string>, timeout: Option<int>, scriptExists: bool,
                         host: map<string, string>, run: Runner, now: nat)
      returns (r: Result<ExecutionResult, string>)
      modifies this`active
      ensures !scriptExists ==> r == Err("Script not found: " + NormPath(path)) && active == old(active)
      ensures scriptExists ==>
        var p := NormPath(path);
        var outcome := run(ScriptCommand(p, args), PathParent(p), ChildEnvironment(host, map[]));
        && r.Ok? && r.value == ResultFor(ScriptCommand(p, args), PathParent(p), EffectiveTimeout(timeout), map[], outcome)
        && active == if outcome.SpawnFailed? then old(active) else old(active) - {"exec_" + NatToString(now)}
      ensures history == old(history) && temp == old(temp)
    {
      var p := NormPath(path);
      if !scriptExists {
        return Err("Script not found: " + p);
      }
      var result := RunScript(p, args, EffectiveTimeout(timeout), host, run, now);
      return Ok(result);
    }

    /** The run of an existing script at the normalised path `p`. */
    method RunScript(p: string, args: seq<string>, limit: int, host: map<string, string>, run: Runner, now: nat)
      returns (r: ExecutionResult)
      modifies this`active
      ensures var outcome := run(ScriptCommand(p, args), PathParent(p), ChildEnvironment(host, map[]));
        && r == ResultFor(ScriptCommand(p, args), PathParent(p), limit, map[], outcome)
        && active == if outcome.SpawnFailed? then old(active) else old(active) - {"exec_" + NatToString(now)}
      ensures history == old(history) && temp == old(temp)
    {
      var argv, dir := ScriptCommand(p, args), PathParent(p);
      ghost var live;
      r, live := SafeExecute(argv, dir, limit, map[], host, run, now);
    }

    /** `kill_process`: true and removed for a registered id, false and no change otherwise. */
    method KillProcess(pid: string) returns (killed: bool)
      modifies this`active
      ensures killed <==> pid in old(active)
      ensures active == old(active) - {pid}
    {
      killed := pid in active;
      if killed {
        active := active - {pid};
      }
    }

    /** `get_active_processes` (as a set of ids). */
    function ActiveProcesses(): (ids: set<string>)
      reads this
      ensures forall pid :: pid in ids <==> pid in active
    {
      active
    }

    /** `get_execution_history(limit)`: the Python slice `history[-limit:]`. */
    function ExecutionHistory(limit: int): (r: seq<ExecutionResult>)
      reads this
      ensures |r| <= |history| && r == history[|history| - |r|..]
      ensures limit > 0 ==> |r| == (if limit < |history| then limit else |history|)
      ensures limit == 0 ==> r == history
    {
      LastN(history, limit)
    }
  }

  // ---------------------------------------------------------------- sessions

  datatype Session = Session(language: string, createdAt: nat, history: seq<ExecutionResult>, workingDirectory: string)

  datatype SessionInfo =
    | SessionNotFound
    | Info(sessionId: string, language: string, createdAt: nat, executionsCount: nat, lastExecution: Option<ExecutionResult>)

  class InteractionEngine {
    const executor: Executor
    var sessions: map<string, Session>

    constructor (executor: Executor)
      ensures this.executor == executor && sessions == map[]
    {
      this.executor := executor;
      sessions := map[];
    }

    /**
     * `start_interactive_session`: id `session_<now>`, working directory
     * `workspace_dir / id`; a session started in the same second is replaced.
     */
    method StartSession(language: string, now: nat) returns (id: string)
      modifies this`sessions
      ensures id == "session_" + NatToString(now)
      ensures sessions == old(sessions)[id := Session(language, now, [], PathJoin(executor.workspace, id))]
    {
      id := "session_" + NatToString(now);
      sessions := sessions[id := Session(language, now, [], PathJoin(executor.workspace, id))];
    }

    /**
     * `execute_in_session`: an unknown id raises "Session not found"; a
     * refused command propagates from `execute_code`; otherwise exactly one
     * result is appended to that session's history and no other session changes.
     */
    method ExecuteInSession(id: string, code: string, host: map<string, string>, run: Runner,
                            fileNow: nat, rand: int, spawnNow: nat)
      returns (r: Result<ExecutionResult, string>)
      modifies this`sessions, executor`temp, executor`history, executor`active
      ensures id !in old(sessions) ==> (r == Err("Session not found: " + id) && sessions == old(sessions)
        && executor.history == old(executor.history) && executor.temp == old(executor.temp)
        && executor.active == old(executor.active))
      ensures id in old(sessions) ==>
        var language := old(sessions)[id].language;
        var ext := ExtensionFor(language);
        var stem := CandidateStem(UniqueId(fileNow, rand), ProbeFrom(old(executor.temp).Keys, UniqueId(fileNow, rand), ext, 0));
        var cmd := ExecutionCommand(TempDir(executor.workspace), stem, ext, language, true);
        && executor.temp == old(executor.temp) - {stem + ext}
        && (r.Err? <==> cmd.Err?)
        && (cmd.Err? ==> r.error == cmd.error && executor.history == old(executor.history)
                         && executor.active == old(executor.active))
        && (cmd.Ok? ==>
             var outcome := run(cmd.value, TempDir(executor.workspace), ChildEnvironment(host, map[]));
             && r.value == ResultFor(cmd.value, TempDir(executor.workspace), DefaultTimeout, map[], outcome)
             && executor.active == if outcome.SpawnFailed? then old(executor.active)
                                   else old(executor.active) - {"exec_" + NatToString(spawnNow)})
      ensures r.Ok? ==> (id in old(sessions) && executor.history == old(executor.history) + [r.value]
        && sessions == old(sessions)[id := old(sessions)[id].(history := old(sessions)[id].history + [r.value])])
      ensures r.Err? ==> sessions == old(sessions)
    {
      if id !in sessions {
        return Err("Session not found: " + id);
      }
      var s := sessions[id];
      r := executor.ExecuteCode(code, s.language, None, Some(s.workingDirectory), map[], host, run, fileNow, rand, spawnNow);
      if r.Ok? {
        sessions := sessions[id := s.(history := s.history + [r.value])];
      }
    }

    /** `get_session_info`. */
    function GetSessionInfo(id: string): (info: SessionInfo)
      reads this
      ensures info.SessionNotFound? <==> id !in sessions
      ensures info.Info? ==> info.sessionId == id && info.executionsCount == |sessions[id].history|
      ensures info.Info? ==> info.language == sessions[id].language && info.createdAt == sessions[id].createdAt
      ensures info.Info? ==> (info.lastExecution.None? <==> sessions[id].history == [])
      ensures info.Info? && info.lastExecution.Some? ==> info.lastExecution.value == sessions[id].history[|sessions[id].history| - 1]
    {
      if id !in sessions then SessionNotFound
      else
        var s := sessions[id];
        Info(id, s.language, s.createdAt, |s.history|,
             if |s.history| == 0 then None else Some(s.history[|s.history| - 1]))
    }
  }
}
