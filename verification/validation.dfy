/** The request handler of `POST /execute` (app.py lines 72-96): an ordered
    chain of checks on the JSON body, the call into the runner, and the
    status chosen from the runner's dict. */
module Validation {
  import opened Wrappers
  import opened Json
  import opened Text
  import opened Response

  const ScriptKey := "script"
  const MaxScriptLength := 50000
  const EntryPoint := "def main():"

  /** The checks of the handler, in the order it runs them. */
  datatype Stage = NoData | MissingScript | NotString | TooLarge | NoEntryPoint

  const Chain: seq<Stage> := [NoData, MissingScript, NotString, TooLarge, NoEntryPoint]

  /** The error message each check answers with. */
  function Message(stage: Stage): string {
    match stage
    case NoData => "No JSON data provided"
    case MissingScript => "Missing 'script' field"
    case NotString => "Script must be a string"
    case TooLarge => "Script too large (max 50KB)"
    case NoEntryPoint => "Script must contain a 'def main():' function"
  }

  /** What the handler does with a body: forward a script to the runner,
      reject it with one check's message, or raise a `TypeError` that escapes
      the handler (the framework then answers 500). */
  datatype Verdict = Forward(script: string) | Reject(stage: Stage) | Raise

  /** Python's `key in data` on a decoded body; `None` when Python raises
      `TypeError` (`in` on a number or boolean). */
  function PyIn(key: string, data: Value): Option<bool> {
    match data
    case Obj(fields) => Some(key in fields)
    case Arr(items) => Some(Str(key) in items)
    case Str(s) => Some(Contains(s, key))
    case _ => None
  }

  /** Python's `data[key]` with a string key; `None` when Python raises
      (`KeyError` on a dict without the key, `TypeError` on anything else). */
  function PyGetItem(data: Value, key: string): Option<Value> {
    if data.Obj? && key in data.fields then Some(data.fields[key]) else None
  }

  /** The check chain of app.py lines 76-88, in the source's order. */
  function Validate(data: Value): (v: Verdict)
    ensures v.Forward? <==>
              && data.Obj? && ScriptKey in data.fields
              && data.fields[ScriptKey].Str?
              && |data.fields[ScriptKey].s| <= MaxScriptLength
              && Contains(data.fields[ScriptKey].s, EntryPoint)
    ensures v.Forward? ==> data.fields[ScriptKey] == Str(v.script)
    ensures v.Raise? ==> Truthy(data) && !data.Obj?
  {
    if !Truthy(data) then Reject(NoData)
    else match PyIn(ScriptKey, data)
      case None => Raise
      case Some(present) =>
        if !present then Reject(MissingScript)
        else match PyGetItem(data, ScriptKey)
          case None => Raise
          case Some(script) =>
            if !script.Str? then Reject(NotString)
            else if |script.s| > MaxScriptLength then Reject(TooLarge)
            else if !Contains(script.s, EntryPoint) then Reject(NoEntryPoint)
            else Forward(script.s)
  }

  // ---------------------------------------------------------------------------
  // The chain as a reference: each check on its own, and the first that does
  // not pass decides.

  datatype Step = Passes | Fails | Raises

  /** The script text, when the body is a dict whose `script` is a string. */
  function ScriptText(data: Value): Option<string> {
    match PyGetItem(data, ScriptKey)
    case Some(Str(s)) => Some(s)
    case _ => None
  }

  /** One check evaluated on its own. The size and entry-point checks look at
      the script text, and raise on a body the earlier checks would have stopped. */
  function StepOf(stage: Stage, data: Value): Step {
    match stage
    case NoData => if Truthy(data) then Passes else Fails
    case MissingScript =>
      (match PyIn(ScriptKey, data)
       case None => Raises
       case Some(present) => if present then Passes else Fails)
    case NotString =>
      (match PyGetItem(data, ScriptKey)
       case None => Raises
       case Some(script) => if script.Str? then Passes else Fails)
    case TooLarge =>
      (match ScriptText(data)
       case None => Raises
       case Some(s) => if |s| > MaxScriptLength then Fails else Passes)
    case NoEntryPoint =>
      (match ScriptText(data)
       case None => Raises
       case Some(s) => if Contains(s, EntryPoint) then Passes else Fails)
  }

  /** Index of the first check, from `i` on, that does not pass; `|Chain|` if all pass. */
  function FirstBlocking(data: Value, i: nat): (k: nat)
    requires i <= |Chain|
    ensures i <= k <= |Chain|
    ensures forall j | i <= j < k :: StepOf(Chain[j], data) == Passes
    ensures k < |Chain| ==> StepOf(Chain[k], data) != Passes
    decreases |Chain| - i
  {
    if i == |Chain| then i
    else if StepOf(Chain[i], data) != Passes then i
    else FirstBlocking(data, i + 1)
  }

  /** The handler's verdict is decided by the first check that does not pass:
      it forwards exactly when every check passes, rejects with the message of
      the first failing check, and raises exactly when the first blocking check
      raises. */
  lemma ValidateFollowsChain(data: Value)
    ensures var k := FirstBlocking(data, 0);
      && (Validate(data).Forward? <==> k == |Chain|)
      && (Validate(data).Reject? <==> k < |Chain| && StepOf(Chain[k], data) == Fails)
      && (Validate(data).Reject? ==> Validate(data).stage == Chain[k])
      && (Validate(data).Raise? <==> k < |Chain| && StepOf(Chain[k], data) == Raises)
  {
  }

  /** Concrete form of the order property: a rejection names check `k` exactly
      when check `k` fails and every earlier check passes. */
  lemma RejectIffFirstFailure(data: Value, k: nat)
    requires k < |Chain|
    ensures Validate(data) == Reject(Chain[k]) <==>
              StepOf(Chain[k], data) == Fails && forall j | 0 <= j < k :: StepOf(Chain[j], data) == Passes
  {
    ValidateFollowsChain(data);
    var b := FirstBlocking(data, 0);
    if StepOf(Chain[k], data) == Fails && forall j | 0 <= j < k :: StepOf(Chain[j], data) == Passes {
      assert b == k;
    }
    if Validate(data) == Reject(Chain[k]) {
      assert Chain[b] == Chain[k];
      assert b == k;
    }
  }

  // ---------------------------------------------------------------------------
  // The size bound

  /** A body `{"script": s}`. */
  function ScriptRequest(s: string): Value {
    Obj(map[ScriptKey := Str(s)])
  }

  /** A script within the size bound that defines `main` is forwarded as it is. */
  lemma SizeBound(s: string)
    requires Contains(s, EntryPoint)
    ensures |s| <= MaxScriptLength ==> Validate(ScriptRequest(s)) == Forward(s)
  {
  }

  /** A script over the size bound is rejected as too large whatever it holds:
      the size check comes before the entry-point check. */
  lemma TooLargeRejected(s: string)
    ensures |s| > MaxScriptLength ==> Validate(ScriptRequest(s)) == Reject(TooLarge)
  {
  }

  /** `def main():` followed by spaces up to length `n`. */
  function Padded(n: nat): (s: string)
    requires n >= |EntryPoint|
    ensures |s| == n && Contains(s, EntryPoint)
  {
    var s := EntryPoint + seq(n - |EntryPoint|, _ => ' ');
    assert OccursAt(s, EntryPoint, 0);
    s
  }

  /** The boundary: 50000 characters pass, 50001 are too large. */
  lemma SizeBoundary()
    ensures Validate(ScriptRequest(Padded(50000))) == Forward(Padded(50000))
    ensures Validate(ScriptRequest(Padded(50001))) == Reject(TooLarge)
  {
  }

  // ---------------------------------------------------------------------------
  // The handler

  /** What the client receives: a status and a JSON body, or the framework's
      500 page after an uncaught exception. */
  datatype Reply = Reply(status: int, body: Output) | InternalError

  /** `execute_script` with `run_script` as a parameter: validate, forward the
      script unchanged, and pick the status from the runner's dict. */
  function Execute(data: Value, run: string -> Output): (r: Reply)
    ensures Validate(data).Reject? ==> r == Reply(400, ErrorOutput(Message(Validate(data).stage)))
    ensures Validate(data).Raise? <==> r.InternalError?
    ensures Validate(data).Forward? ==> r.Reply? && r.body == run(data.fields[ScriptKey].s)
    ensures r.Reply? ==> (r.status == 200 || r.status == 400) && (r.status == 400 <==> ErrorKey in r.body)
  {
    match Validate(data)
    case Reject(stage) => Reply(400, ErrorOutput(Message(stage)))
    case Raise => InternalError
    case Forward(script) =>
      var output := run(script);
      Reply(StatusOf(output), output)
  }

  /** The rejection messages are pairwise distinct, so a rejection tells the
      client which check failed. */
  lemma MessagesDistinct(a: Stage, b: Stage)
    requires Message(a) == Message(b)
    ensures a == b
  {
  }
}
