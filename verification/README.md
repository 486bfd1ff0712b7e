# Sandboxed script runner — Dafny model

The modelled service runs untrusted Python over HTTP. `POST /execute` takes a JSON body `{"script": ...}` and checks it in a fixed order. It then wraps the script in a driver that dumps `main()`'s return value as JSON. The wrapped program runs inside an nsjail whose `/tmp` is the host's `/tmp/nsjail`. The service answers with `{"result", "stdout"}` or `{"error"}`, and once the run has started, the two temporary files are removed on every path through it (app.py:38-69). The whole service is one file, `app.py`.

The model is functional: immutable datatypes and pure functions.

| file | module | what it holds |
|---|---|---|
| wrappers.dfy | Wrappers | `Option`, `Result` |
| json.dfy | Json | decoded JSON values, Python truthiness |
| text.dfy | Text | Python `in`, `str.replace`, `str.strip()` on `seq<char>` |
| response.dfy | Response | the response dicts, the 200/400 choice |
| validation.dfy | Validation | the check chain of `execute_script` and the handler |
| jail.dfy | Jail | temporary host paths and their jail names |
| wrapper.dfy | Wrapper | the wrapped program text and its inverse |
| outcome.dfy | Outcome | the `try`/`except` classification of a run |
| runner.dfy | Runner | `run_script` over a staging directory, cleanup |
| service.dfy | Service | handler and runner together |

Collaborators the model cannot see become parameters:
- `json.load` is `parse: Decoder`, a function `string -> Result<Value, LoadError>`. It yields the decoded value, `Err(NotJson)` for a `JSONDecodeError`, or `Err(LoadFailed(msg))` for any other exception it raises, such as a `RecursionError` on deeply nested JSON.
- The jailed `subprocess.run` is `run: (seq<string>, Fs) -> Child`. It receives the argument vector and the staged directory. It returns how the run ended (`TimedOut`, `Raised(exc)` or `Exited(stdout)`) and the directory it left behind.
- The random parts of the two `tempfile` names are the token parameters.

Facts about the code that shape the model:
- The time budget is 10 s (app.py:43).
- The run always goes through nsjail (app.py:40).
- Request validation happens in the handler itself (app.py:76-88).
- The `finally` block does not catch removal errors (app.py:64-69).
- A non-serialisable return value and an exception in `main()` are not told apart. Both leave the result file empty or partly written, so both get the "JSON-serializable" message (app.py:60-61).

## Model

| member | source | states |
|---|---|---|
| Validation.Validate | app.py:76-88 | a script is forwarded exactly when the body is a dict whose `script` is a string of at most 50000 characters containing `def main():`, and the forwarded text is that string; a raise happens only for a truthy non-dict body |
| Validation.FirstBlocking | app.py:76-88 | finds the first check in the chain that does not pass; every earlier check passes |
| Validation.ValidateFollowsChain | app.py:76-88 | the verdict is decided by the first check of the chain NoData, MissingScript, NotString, TooLarge, NoEntryPoint that does not pass: all pass iff forwarded, first fails iff rejected with that check, first raises iff the handler raises |
| Validation.RejectIffFirstFailure | app.py:76-88 | the reply names check k exactly when check k fails and every earlier check passes |
| Validation.SizeBound | app.py:85-88 | a script of at most 50000 characters that contains `def main():` is forwarded unchanged |
| Validation.TooLargeRejected | app.py:85-88 | any script over 50000 characters is rejected as "Script too large (max 50KB)", whether or not it defines `main`: the size check comes before the entry-point check |
| Validation.SizeBoundary | app.py:85-86 | a 50000-character script passes and a 50001-character one is rejected as too large |
| Validation.Execute | app.py:72-96 | every rejection is a 400 carrying that check's message; a raise is a 500; a forwarded script reaches the runner unchanged and the reply carries the runner's dict; every reply status is 200 or 400, and 400 exactly when the body has `error` |
| Validation.MessagesDistinct | app.py:76-88 | the five rejection messages are pairwise different |
| Response.ErrorOutput | app.py:57-63 | an error dict has the single key `error` holding the message |
| Response.SuccessOutput | app.py:51-54 | a success dict has exactly the keys `result` and `stdout`, never `error` |
| Response.StatusOf | app.py:94-96 | the status is 200 or 400, and 400 exactly when the dict has key `error` |
| Response.PayloadStatus | app.py:94-96 | a success payload always maps to 200 and an error payload to 400 |
| Text.Replace | app.py:22-23 | `str.replace` with a non-empty pattern leaves a string without the pattern unchanged |
| Text.ReplaceLeading | app.py:22-23 | a leading occurrence is replaced and the scan resumes right after it |
| Text.LStrip | app.py:47 | left strip drops a whitespace prefix and leaves no leading whitespace |
| Text.RStrip | app.py:47 | right strip drops a whitespace suffix and leaves no trailing whitespace |
| Text.Strip | app.py:47 | `strip()` returns an infix with whitespace on both sides cut off and no whitespace at either end |
| Text.StripTrimmed | app.py:47 | a string with no edge whitespace is its own strip |
| Text.StripIdempotent | app.py:47 | stripping twice is stripping once |
| Text.StripUnique | app.py:47 | whitespace + trimmed infix + whitespace strips to exactly that infix |
| Text.StripNewline | app.py:47 | a printed line's trailing newline is stripped |
| Jail.NoStagingInName | app.py:15-18 | a temporary file name below the staging directory holds no further `/tmp/nsjail` |
| Jail.JailPath | app.py:22-23 | a path without `/tmp/nsjail` is left alone; `/tmp/nsjail` + name, where name holds no further `/tmp/nsjail`, becomes `/tmp` + name |
| Jail.RemapStaged | app.py:11-23 | a host path `/tmp/nsjail` + name, where name holds no further `/tmp/nsjail`, becomes `/tmp` + name |
| Jail.TempPathInJail | app.py:15-23 | the temporary file `/tmp/nsjail/tmp<token><suffix>` is `/tmp/tmp<token><suffix>` inside the jail |
| Jail.RemapRoundTrip | app.py:22-23 | the jail's mount maps each remapped temporary path back to the host path |
| Jail.RemapInjective | app.py:22-23 | two temporary paths with the same jail name are the same path |
| Wrapper.Driver | app.py:28-31 | the driver embeds exactly the result path between its quotes |
| Wrapper.Wrap | app.py:25-32 | the program is the `import json` header, then the script verbatim, then the `__main__` driver, which holds the jail result path |
| Wrapper.Unwrap | app.py:25-32 | recovering a script only succeeds on a text long enough to hold header and driver |
| Wrapper.UnwrapWrap | app.py:25-32 | the script is recovered from its wrapped program |
| Wrapper.WrapUnwrap | app.py:25-32 | every text that unwraps is the wrapped program of what it unwraps to |
| Wrapper.WrapInjective | app.py:25-32 | different scripts give different programs |
| Wrapper.WrapKeepsEntryPoint | app.py:25-32 | the checked `def main():` is still in the program |
| Outcome.DiagnoseHandle | app.py:56-63 | each `except` message is read back as the kind of its exception |
| Outcome.Classify | app.py:38-63 | the dict is a success exactly when the child exited and its result file exists and decodes, and then holds the decoded value and the stripped stdout; classification is total and exclusive: the dict determines the case-by-case kind (timeout, no result, malformed, failed with its message, success), a `json.load` failure other than a decode error being a failure with its message |
| Outcome.FailureShape | app.py:56-63 | every failure dict has the single key `error`, holding a string |
| Outcome.SuccessStdoutStripped | app.py:47-54 | the stdout in a success dict is already stripped |
| Outcome.DecoderRaises | app.py:49-63 | an exception `json.load` raises other than a decode error is answered "Execution failed: " with its message, and is read back as a failure with that message |
| Outcome.EmptyResultFile | app.py:17-61 | the result file is created empty, so a child that writes nothing gets the JSON-serializable error, not "did not produce a result" |
| Runner.PathsDistinct | app.py:15-18 | the script and result files never share a path |
| Runner.Staged | app.py:15-35 | staging adds exactly the two files: an empty result file, and the wrapped script driving output to the result file's jail path; no other file changes |
| Runner.Cleanup | app.py:64-69 | afterwards neither temporary file exists and every other file is as it was |
| Runner.CleanupIdempotent | app.py:64-69 | removal only when present makes cleanup idempotent |
| Runner.RunScript | app.py:9-69 | on every path through the run, whatever the child did, both temporary files are gone and every other file the run left is kept |
| Runner.RunScriptOutput | app.py:38-63 | success exactly when the child exited with a decodable result file, with that value and the stripped stdout; otherwise the error kind is readable off the dict |
| Runner.PrintingRun | app.py:47-54 | a child that prints and writes a decodable result gets that value and the stripped output |
| Runner.UntouchedRun | app.py:17-69 | a child that exits without touching anything gets the JSON-serializable error, and the directory ends as it began |
| Runner.JailedProgram | app.py:22-40 | the jailed interpreter is pointed at the wrapped script's file, and the driver writes to the file read back afterwards |
| Service.Serve | app.py:72-96 | a rejected body gets 400 with the failing check's message, a raising one the 500 page, and a valid script reaches the runner unchanged, the reply carrying the runner's dict with its status |
| Service.ServeStatus | app.py:90-96 | a valid request gets 200 exactly when the jailed run delivered a decodable result, else 400 |
| Service.PrintAndReturn | app.py:72-96 | a script whose `main()` prints a line and returns a value gets 200 with that value and the line |

## Left out

- Flask routing, `jsonify` and the server start (app.py:5-7, 71, 98-99) are framework glue. The body reaches the model as a decoded JSON value. Errors raised inside `request.get_json()` itself (415 or 400 for a non-JSON body) are not modelled.
- Any exception that escapes the handler becomes the framework's 500 page. This is modelled as `Reply.InternalError` without its contents.
- `subprocess.run`, nsjail, `/nsjail.cfg` and the 10 s wall-clock limit (app.py:39-44) are external. They appear only as the `run` parameter and its reported outcome.
- `os.makedirs` and the random `tempfile` naming (app.py:12-18) are outside the model. Tokens are parameters. Freshness is required only where a lemma needs it.
- `json.load` is the `parse` parameter; which texts it accepts and what it raises are left to that parameter. Real JSON encoding by `json.dump` inside the jail is not modelled.
- Runner.RunScript: files hold text, so a result file whose bytes are not valid UTF-8 cannot be represented. In the source, reading such a file raises `UnicodeDecodeError`, answered "Execution failed: …" (app.py:49-50, 62-63).
- Runner.Cleanup: models `os.remove` as always succeeding. The source does not catch a removal error, and one would escape `run_script` as a 500.
- Failures of writing the script file and of `os.makedirs` (app.py:12, 34) would also escape as a 500. They are not modelled. When the write fails, both temporary files remain in `/tmp/nsjail`, because the `try` has not started yet; a script holding a lone surrogate such as `\ud800` makes the write fail this way.
- Json.Value: a JSON float is an exact real (`Float`), without binary rounding. `NaN`, `Infinity` and `-Infinity`, which `json.load` accepts and `json.dump` writes, cannot be represented, so results holding them are outside the model.
- Runner.RunScript: the staging directory holds only regular files. A dangling symlink the child plants in place of a temporary file makes `os.path.exists` false (app.py:66, 68), so that entry survives cleanup.
- Text.Replace: defined for non-empty patterns only. The source's only pattern is `/tmp/nsjail` (app.py:22-23).
- Python strings can hold lone surrogate code points. Dafny's `char` cannot. Lengths agree for every other string.
