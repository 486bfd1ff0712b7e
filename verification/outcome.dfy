/** How `run_script` turns what happened to the child process into one
    response dict (app.py lines 38-63): the `try` body, which strips stdout,
    opens the result file and decodes it, and the `except` ladder. */
module Outcome {
  import opened Wrappers
  import opened Json
  import opened Text
  import opened Response

  /** The exceptions the `except` clauses tell apart; `Other` is any other
      exception, with its `str()`. */
  datatype Exc = TimeoutExpired | FileNotFound | JsonDecode | Other(msg: string)

  /** How `subprocess.run` returned: it timed out, it raised (for instance
      `FileNotFound` when the jail binary is missing), or the child exited
      with the given standard output, whatever its exit status. */
  datatype RunOutcome = TimedOut | Raised(exc: Exc) | Exited(stdout: string)

  /** How `json.load` can fail on the result file's text: `NotJson` is a
      `JSONDecodeError`; `LoadFailed` is any other exception, with its `str()`
      (a `RecursionError` on deeply nested input, say). */
  datatype LoadError = NotJson | LoadFailed(msg: string)

  /** What `json.load` does with the result file's text: the decoded value,
      or how it fails. */
  type Decoder = string -> Result<Value, LoadError>

  /** The exception a failed `json.load` raises. */
  function LoadExc(e: LoadError): Exc {
    match e
    case NotJson => JsonDecode
    case LoadFailed(msg) => Other(msg)
  }

  const TimeoutMsg := "Script execution timed out (10s)"
  const NoResultMsg := "Script did not produce a result"
  // Split in two: the verifier does not look inside string literals this long.
  const NotJsonMsg := "main() must return a " + "JSON-serializable object"
  const FailedPrefix := "Execution failed: "

  /** The `try` body: the success dict, or the exception it raises. `resultFile`
      is the result file's text when it exists when read; `parse` stands for
      `json.load`. */
  function TryBody(run: RunOutcome, resultFile: Option<string>, parse: Decoder): Result<Output, Exc> {
    match run
    case TimedOut => Err(TimeoutExpired)
    case Raised(e) => Err(e)
    case Exited(stdout) =>
      var out := Strip(stdout);
      match resultFile
      case None => Err(FileNotFound)
      case Some(text) =>
        match parse(text)
        case Err(e) => Err(LoadExc(e))
        case Ok(result) => Ok(SuccessOutput(result, out))
  }

  /** The `except` ladder. */
  function Handle(e: Exc): Output {
    match e
    case TimeoutExpired => ErrorOutput(TimeoutMsg)
    case FileNotFound => ErrorOutput(NoResultMsg)
    case JsonDecode => ErrorOutput(NotJsonMsg)
    case Other(msg) => ErrorOutput(FailedPrefix + msg)
  }

  /** The dict `run_script` returns for a run. It is a success exactly when
      the child exited and its result file exists and decodes, and then holds
      the decoded value and the stripped standard output. Classification is
      total and exclusive: the dict determines the kind of the run, the kind
      `KindOf` states case by case. */
  function Classify(run: RunOutcome, resultFile: Option<string>, parse: Decoder): (o: Output)
    ensures ErrorKey !in o <==> run.Exited? && resultFile.Some? && parse(resultFile.value).Ok?
    ensures run.Exited? && resultFile.Some? && parse(resultFile.value).Ok? ==>
              o == SuccessOutput(parse(resultFile.value).value, Strip(run.stdout))
    ensures Diagnose(o) == Some(KindOf(run, resultFile, parse))
  {
    match TryBody(run, resultFile, parse)
    case Ok(o) =>
      assert ErrorKey !in o;
      o
    case Err(e) =>
      DiagnoseHandle(e);
      assert KindOf(run, resultFile, parse) == ExcKind(e);
      Handle(e)
  }

  // ---------------------------------------------------------------------------
  // Reference classification and what a response tells the client

  /** The kinds of outcome a client can tell apart. */
  datatype Kind = Success | Timeout | NoResult | Malformed | Failed(msg: string)

  /** The kind of a run, stated case by case: a timeout, the exception the
      run or the decoder raised, a missing result file, or a success. */
  function KindOf(run: RunOutcome, resultFile: Option<string>, parse: Decoder): Kind {
    match run
    case TimedOut => Timeout
    case Raised(e) => ExcKind(e)
    case Exited(_) =>
      match resultFile
      case None => NoResult
      case Some(text) =>
        match parse(text)
        case Err(NotJson) => Malformed
        case Err(LoadFailed(msg)) => Failed(msg)
        case Ok(_) => Success
  }

  /** Reads the kind back off a response dict. */
  function Diagnose(o: Output): Option<Kind> {
    if ErrorKey !in o then Some(Success)
    else match o[ErrorKey]
      case Str(m) =>
        if m == TimeoutMsg then Some(Timeout)
        else if m == NoResultMsg then Some(NoResult)
        else if m == NotJsonMsg then Some(Malformed)
        else if |m| >= |FailedPrefix| && m[..|FailedPrefix|] == FailedPrefix then Some(Failed(m[|FailedPrefix|..]))
        else None
      case _ => None
  }

  /** The kind each exception is reported as. */
  function ExcKind(e: Exc): Kind {
    match e
    case TimeoutExpired => Timeout
    case FileNotFound => NoResult
    case JsonDecode => Malformed
    case Other(msg) => Failed(msg)
  }

  /** Each error message is read back as the kind of its exception. */
  lemma DiagnoseHandle(e: Exc)
    ensures Diagnose(Handle(e)) == Some(ExcKind(e))
  {
    KeysDistinct();
    if e.Other? {
      var m := FailedPrefix + e.msg;
      assert m[..|FailedPrefix|] == FailedPrefix;
      assert m[|FailedPrefix|..] == e.msg;
      assert m[0] == 'E' && TimeoutMsg[0] == 'S' && NoResultMsg[0] == 'S' && NotJsonMsg[0] == 'm';
      assert Handle(e) == ErrorOutput(m);
    }
  }

  /** Every failure is a dict with the single key `error`. */
  lemma FailureShape(run: RunOutcome, resultFile: Option<string>, parse: Decoder)
    requires ErrorKey in Classify(run, resultFile, parse)
    ensures Classify(run, resultFile, parse).Keys == {ErrorKey}
    ensures Classify(run, resultFile, parse)[ErrorKey].Str?
  {
  }

  /** The standard output in a success dict is already stripped: stripping it
      again changes nothing. */
  lemma SuccessStdoutStripped(run: RunOutcome, resultFile: Option<string>, parse: Decoder)
    requires run.Exited? && resultFile.Some? && parse(resultFile.value).Ok?
    ensures Classify(run, resultFile, parse)[StdoutKey].Str?
    ensures var out := Classify(run, resultFile, parse)[StdoutKey].s; Strip(out) == out && Trimmed(out)
  {
    StripIdempotent(run.stdout);
  }

  /** Any other exception `json.load` raises on the result file (a
      `RecursionError` on deeply nested JSON, say) falls through to the last
      `except` clause: the reply is "Execution failed" with its message. */
  lemma DecoderRaises(stdout: string, text: string, parse: Decoder, msg: string)
    requires parse(text) == Err(LoadFailed(msg))
    ensures Classify(Exited(stdout), Some(text), parse) == ErrorOutput(FailedPrefix + msg)
    ensures Diagnose(Classify(Exited(stdout), Some(text), parse)) == Some(Failed(msg))
  {
    DiagnoseHandle(Other(msg));
  }

  /** The result file is created empty before the run: a child that exits
      without writing it yields the "not JSON-serializable" error, not the
      "no result" one, for a decoder that rejects empty text as not JSON. */
  lemma EmptyResultFile(stdout: string, parse: Decoder)
    requires parse("") == Err(NotJson)
    ensures Classify(Exited(stdout), Some(""), parse) == ErrorOutput(NotJsonMsg)
    ensures Classify(Exited(stdout), Some(""), parse) != ErrorOutput(NoResultMsg)
  {
  }
}
