/** `run_script` (app.py lines 9-69) over a model of the staging directory:
    allocate the two temporary files, write the wrapped program, run the
    child, classify what happened, and remove both files on every path
    through the run. */
module Runner {
  import opened Wrappers
  import opened Json
  import opened Text
  import opened Response
  import opened Jail
  import opened Wrapper
  import opened Outcome

  /** The staging directory: the text of each file in it, by path. Every
      entry is a regular file. */
  type Fs = map<Path, string>

  const ScriptSuffix := ".py"
  const ResultSuffix := ".json"

  /** What the jailed run reports, and the staging directory it leaves behind. */
  datatype Child = Child(outcome: RunOutcome, fs: Fs)

  /** What `run_script` returns, and the staging directory after its `finally`. */
  datatype Run = Run(output: Output, fs: Fs)

  /** The argument vector of app.py line 40. */
  function Command(jailScript: Path): seq<string> {
    ["nsjail", "-C", "/nsjail.cfg", "--", "python3", jailScript]
  }

  /** Python's `open(path).read()`: the text, or `None` for `FileNotFoundError`. */
  function ReadFile(fs: Fs, path: Path): Option<string> {
    if path in fs then Some(fs[path]) else None
  }

  /** The script file's host path: `/tmp/nsjail/tmp<token>.py`. */
  function ScriptPath(token: string): Path {
    TempPath(token, ScriptSuffix)
  }

  /** The result file's host path: `/tmp/nsjail/tmp<token>.json`. */
  function ResultPath(token: string): Path {
    TempPath(token, ResultSuffix)
  }

  /** The result file never collides with a script file: their suffixes differ. */
  lemma PathsDistinct(scriptToken: string, resultToken: string)
    ensures ScriptPath(scriptToken) != ResultPath(resultToken)
  {
    var q := ScriptPath(scriptToken);
    var p := ResultPath(resultToken);
    assert q[|q| - 1] == 'y' && p[|p| - 1] == 'n';
  }

  /** The directory once both files are created (the result file empty) and
      the wrapped program, driving output to the result file's jail path, is
      written to the script file. Nothing else changes. */
  function Staged(fs: Fs, script: string, scriptPath: Path, resultPath: Path): (s: Fs)
    requires scriptPath != resultPath
    ensures s.Keys == fs.Keys + {scriptPath, resultPath}
    ensures s[resultPath] == ""
    ensures Unwrap(s[scriptPath], JailPath(resultPath)) == Some(script)
    ensures forall p | p in fs && p != scriptPath && p != resultPath :: s[p] == fs[p]
  {
    UnwrapWrap(script, JailPath(resultPath));
    fs[scriptPath := Wrap(script, JailPath(resultPath))][resultPath := ""]
  }

  /** The `finally` block: remove each file when it exists. Afterwards neither
      exists, and every other file is as it was. */
  function Cleanup(fs: Fs, scriptPath: Path, resultPath: Path): (r: Fs)
    ensures scriptPath !in r && resultPath !in r
    ensures r.Keys == fs.Keys - {scriptPath, resultPath}
    ensures forall p | p in r :: r[p] == fs[p]
  {
    var afterScript := if scriptPath in fs then fs - {scriptPath} else fs;
    if resultPath in afterScript then afterScript - {resultPath} else afterScript
  }

  /** Cleaning up twice is cleaning up once. */
  lemma CleanupIdempotent(fs: Fs, scriptPath: Path, resultPath: Path)
    ensures Cleanup(Cleanup(fs, scriptPath, resultPath), scriptPath, resultPath)
         == Cleanup(fs, scriptPath, resultPath)
  {
  }

  /** The jailed run as `run_script` invokes it: the argument vector naming
      the script's jail path, and the staged directory. */
  function Invoke(script: string, fs: Fs, scriptToken: string, resultToken: string,
                  run: (seq<string>, Fs) -> Child): Child
  {
    var scriptPath := ScriptPath(scriptToken);
    PathsDistinct(scriptToken, resultToken);
    run(Command(JailPath(scriptPath)), Staged(fs, script, scriptPath, ResultPath(resultToken)))
  }

  /** `run_script(script)`. The random tokens of the two temporary names, the
      decoder `json.load` stands for, and the jailed run are parameters: the run
      receives the argument vector and the staged directory, and reports its
      outcome with the directory it leaves. On every path through the run, whatever the
      outcome, both temporary files are gone afterwards and every other file
      the run left is kept as it was. */
  function RunScript(script: string, fs: Fs, scriptToken: string, resultToken: string,
                     parse: Decoder, run: (seq<string>, Fs) -> Child): (r: Run)
    ensures ScriptPath(scriptToken) !in r.fs && ResultPath(resultToken) !in r.fs
    ensures var left := Invoke(script, fs, scriptToken, resultToken, run).fs;
            && r.fs.Keys == left.Keys - {ScriptPath(scriptToken), ResultPath(resultToken)}
            && forall p | p in r.fs :: r.fs[p] == left[p]
  {
    var scriptPath := ScriptPath(scriptToken);
    var resultPath := ResultPath(resultToken);
    var child := Invoke(script, fs, scriptToken, resultToken, run);
    var output := Classify(child.outcome, ReadFile(child.fs, resultPath), parse);
    Run(output, Cleanup(child.fs, scriptPath, resultPath))
  }

  /** The child exited and left a result file that decodes. */
  predicate Delivered(c: Child, resultPath: Path, parse: Decoder) {
    c.outcome.Exited? && resultPath in c.fs && parse(c.fs[resultPath]).Ok?
  }

  /** The run succeeds exactly when the child exited and left a result file
      that decodes; the dict then holds the decoded value and the stripped
      standard output. Any other run is one of the error kinds, readable back
      off the dict. */
  lemma RunScriptOutput(script: string, fs: Fs, scriptToken: string, resultToken: string,
                        parse: Decoder, run: (seq<string>, Fs) -> Child)
    ensures var c := Invoke(script, fs, scriptToken, resultToken, run);
            var resultPath := ResultPath(resultToken);
            var o := RunScript(script, fs, scriptToken, resultToken, parse, run).output;
            && (ErrorKey !in o <==> Delivered(c, resultPath, parse))
            && (Delivered(c, resultPath, parse) ==>
                  o == SuccessOutput(parse(c.fs[resultPath]).value, Strip(c.outcome.stdout)))
            && Diagnose(o) == Some(KindOf(c.outcome, ReadFile(c.fs, resultPath), parse))
  {
    var c := Invoke(script, fs, scriptToken, resultToken, run);
    var o := Classify(c.outcome, ReadFile(c.fs, ResultPath(resultToken)), parse);
  }

  /** A jailed run that prints `stdout`, writes `text` to `resultPath`, and exits. */
  function Printing(stdout: string, resultPath: Path, text: string): (seq<string>, Fs) -> Child {
    (cmd: seq<string>, staged: Fs) => Child(Exited(stdout), staged[resultPath := text])
  }

  /** A run that prints and writes a decodable result answers with the decoded
      value and the stripped output. */
  lemma PrintingRun(script: string, fs: Fs, scriptToken: string, resultToken: string,
                    parse: Decoder, stdout: string, text: string, v: Value)
    requires parse(text) == Ok(v)
    ensures RunScript(script, fs, scriptToken, resultToken, parse, Printing(stdout, ResultPath(resultToken), text)).output
         == SuccessOutput(v, Strip(stdout))
  {
    var run := Printing(stdout, ResultPath(resultToken), text);
    var c := Invoke(script, fs, scriptToken, resultToken, run);
    assert c.outcome == Exited(stdout) && c.fs[ResultPath(resultToken)] == text;
    assert Delivered(c, ResultPath(resultToken), parse);
    RunScriptOutput(script, fs, scriptToken, resultToken, parse, run);
  }

  /** A child that prints `stdout` and exits without touching the staging
      directory meets the empty result file created before the run: the
      answer is the "not JSON-serializable" error, and with fresh names the
      directory ends as it began. */
  lemma UntouchedRun(script: string, fs: Fs, scriptToken: string, resultToken: string,
                     parse: Decoder, stdout: string)
    requires ScriptPath(scriptToken) !in fs && ResultPath(resultToken) !in fs
    requires parse("") == Err(NotJson)
    ensures RunScript(script, fs, scriptToken, resultToken, parse,
                      (cmd: seq<string>, staged: Fs) => Child(Exited(stdout), staged))
         == Run(ErrorOutput(NotJsonMsg), fs)
  {
  }

  /** The jailed interpreter is pointed at the file holding the wrapped script,
      and the wrapper's driver writes to the file `run_script` reads back: each
      jail path, seen through the jail's mount, is the matching host path. */
  lemma JailedProgram(script: string, fs: Fs, scriptToken: string, resultToken: string)
    requires NoSlash(scriptToken) && NoSlash(resultToken)
    ensures ScriptPath(scriptToken) != ResultPath(resultToken)
    ensures var scriptPath := ScriptPath(scriptToken);
            var resultPath := ResultPath(resultToken);
            var staged := Staged(fs, script, scriptPath, resultPath);
            var target := Command(JailPath(scriptPath))[5];
            && target == JailTmp + "/tmp" + scriptToken + ScriptSuffix
            && HostPath(target) == scriptPath
            && Unwrap(staged[HostPath(target)], JailPath(resultPath)) == Some(script)
            && HostPath(JailPath(resultPath)) == resultPath
  {
    PathsDistinct(scriptToken, resultToken);
    TempPathInJail(scriptToken, ScriptSuffix);
    RemapRoundTrip(scriptToken, ScriptSuffix);
    RemapRoundTrip(resultToken, ResultSuffix);
  }
}
