/** The dictionaries `run_script` returns and the HTTP status the handler
    derives from them (app.py lines 51-63 and 93-96). */
module Response {
  import opened Json

  /** A response body: the Python dict handed to `jsonify`. */
  type Output = map<string, Value>

  const ErrorKey := "error"
  const ResultKey := "result"
  const StdoutKey := "stdout"

  /** The three keys are different strings. */
  lemma KeysDistinct()
    ensures ErrorKey != ResultKey && ErrorKey != StdoutKey && ResultKey != StdoutKey
  {
  }

  /** `{"error": msg}`. */
  function ErrorOutput(msg: string): (o: Output)
    ensures o.Keys == {ErrorKey} && o[ErrorKey] == Str(msg)
  {
    map[ErrorKey := Str(msg)]
  }

  /** `{"result": result, "stdout": stdout}`. */
  function SuccessOutput(result: Value, stdout: string): (o: Output)
    ensures o.Keys == {ResultKey, StdoutKey} && ErrorKey !in o
    ensures o[ResultKey] == result && o[StdoutKey] == Str(stdout)
  {
    KeysDistinct();
    map[ResultKey := result, StdoutKey := Str(stdout)]
  }

  /** The status chosen after `run_script`: every status is 200 or 400, and
      it is 400 exactly when `error` is a key. */
  function StatusOf(o: Output): (r: int)
    ensures r == 200 || r == 400
    ensures r == 400 <==> ErrorKey in o
  {
    if ErrorKey in o then 400 else 200
  }

  /** A success payload never carries `error`, so it always maps to 200; an
      error payload always maps to 400. */
  lemma PayloadStatus(result: Value, stdout: string, msg: string)
    ensures ErrorKey !in SuccessOutput(result, stdout)
    ensures StatusOf(SuccessOutput(result, stdout)) == 200
    ensures StatusOf(ErrorOutput(msg)) == 400
  {
  }
}
