/** `POST /execute` end to end: the handler's checks (module Validation)
    in front of `run_script` (module Runner). */
module Service {
  import opened Wrappers
  import opened Json
  import opened Text
  import opened Response
  import opened Validation
  import opened Outcome
  import opened Runner

  /** The handler with the runner plugged in. A rejected body gets 400 with
      the failing check's message and a raising one the 500 page; a forwarded
      script reaches the runner unchanged, and the reply carries the runner's
      dict with the status it calls for. */
  function Serve(data: Value, fs: Fs, scriptToken: string, resultToken: string,
                 parse: Decoder, run: (seq<string>, Fs) -> Child): (r: Reply)
    ensures Validate(data).Reject? ==> r == Reply(400, ErrorOutput(Message(Validate(data).stage)))
    ensures Validate(data).Raise? <==> r.InternalError?
    ensures Validate(data).Forward? ==>
              var o := RunScript(data.fields[ScriptKey].s, fs, scriptToken, resultToken, parse, run).output;
              r == Reply(StatusOf(o), o)
  {
    Execute(data, s => Answer(s, fs, scriptToken, resultToken, parse, run))
  }

  /** The dict `run_script(script)` returns. */
  function Answer(script: string, fs: Fs, scriptToken: string, resultToken: string,
                  parse: Decoder, run: (seq<string>, Fs) -> Child): Output
  {
    RunScript(script, fs, scriptToken, resultToken, parse, run).output
  }

  /** A request that passes every check gets 200 exactly when the jailed run
      exited and left a decodable result file, and 400 otherwise. */
  lemma ServeStatus(data: Value, fs: Fs, scriptToken: string, resultToken: string,
                    parse: Decoder, run: (seq<string>, Fs) -> Child)
    requires Validate(data).Forward?
    ensures var c := Invoke(data.fields[ScriptKey].s, fs, scriptToken, resultToken, run);
            var resultPath := ResultPath(resultToken);
            var reply := Serve(data, fs, scriptToken, resultToken, parse, run);
            && reply.Reply?
            && (reply.status == 200 <==> Delivered(c, resultPath, parse))
            && (reply.status == 400 <==> !Delivered(c, resultPath, parse))
  {
    var script := data.fields[ScriptKey].s;
    var o := RunScript(script, fs, scriptToken, resultToken, parse, run).output;
    var c := Invoke(script, fs, scriptToken, resultToken, run);
    RunScriptOutput(script, fs, scriptToken, resultToken, parse, run);
    assert ErrorKey !in o <==> Delivered(c, ResultPath(resultToken), parse);
    assert Serve(data, fs, scriptToken, resultToken, parse, run) == Reply(StatusOf(o), o);
  }

  /** A worked request: `main()` prints one line and returns a value that the
      driver writes as `text`. The reply is 200 with the decoded value and the
      line without its newline. */
  lemma PrintAndReturn(script: string, fs: Fs, scriptToken: string, resultToken: string,
                       parse: Decoder, line: string, text: string, v: Value)
    requires |script| <= MaxScriptLength && Contains(script, EntryPoint)
    requires Trimmed(line) && parse(text) == Ok(v)
    ensures Serve(ScriptRequest(script), fs, scriptToken, resultToken, parse,
                  Printing(line + "\n", ResultPath(resultToken), text))
         == Reply(200, SuccessOutput(v, line))
  {
    var run := Printing(line + "\n", ResultPath(resultToken), text);
    var data := ScriptRequest(script);
    SizeBound(script);
    assert data.fields[ScriptKey].s == script;
    StripNewline(line);
    PrintingRun(script, fs, scriptToken, resultToken, parse, line + "\n", text, v);
    PayloadStatus(v, line, "");
  }
}
