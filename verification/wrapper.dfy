/** The program text `run_script` writes to the script file (app.py lines
    25-32): a fixed header, the user's script verbatim, and a `__main__`
    driver that dumps `main()`'s value as JSON to the jail result path. */
module Wrapper {
  import opened Wrappers
  import opened Text

  /** The text before the script: an empty line, then `import json`. */
  const Header := "\nimport json\n"
  /** The driver up to the opening quote of the result path. */
  const DriverHead := "\nif __name__ == '__main__':\n    result = main()\n    with open('"
  /** The driver after the closing quote of the result path. */
  const DriverTail := "', 'w') as f:\n        json.dump(result, f)\n"

  /** The `__main__` driver writing to `resultPath`. */
  function Driver(resultPath: string): (d: string)
    ensures |d| == |DriverHead| + |resultPath| + |DriverTail|
    ensures d[|DriverHead|..|DriverHead| + |resultPath|] == resultPath
  {
    DriverHead + resultPath + DriverTail
  }

  /** The wrapped program: header, then the script, then the driver. The
      script sits verbatim right after the header and is followed by the
      driver, which embeds exactly `resultPath` between quotes. */
  function Wrap(script: string, resultPath: string): (w: string)
    ensures |w| == |Header| + |script| + |Driver(resultPath)|
    ensures w[..|Header|] == Header
    ensures w[|Header|..|Header| + |script|] == script
    ensures w[|Header| + |script|..] == Driver(resultPath)
    ensures OccursAt(w, resultPath, |Header| + |script| + |DriverHead|)
  {
    var w := Header + script + Driver(resultPath);
    assert w[|Header| + |script|..] == Driver(resultPath);
    assert w[|Header| + |script| + |DriverHead|..][..|resultPath|] == resultPath;
    w
  }

  /** Recovers the script from a wrapped program, given the result path its
      driver writes to; `None` when the text is not such a program. */
  function Unwrap(w: string, resultPath: string): (r: Option<string>)
    ensures r.Some? ==> |w| >= |Header| + |Driver(resultPath)|
  {
    var d := Driver(resultPath);
    if |w| >= |Header| + |d| && w[..|Header|] == Header && w[|w| - |d|..] == d
    then Some(w[|Header|..|w| - |d|])
    else None
  }

  /** Unwrapping a wrapped program gives back the script. */
  lemma UnwrapWrap(script: string, resultPath: string)
    ensures Unwrap(Wrap(script, resultPath), resultPath) == Some(script)
  {
  }

  /** Whatever unwraps to a script is that script's wrapped program. */
  lemma WrapUnwrap(w: string, resultPath: string)
    requires Unwrap(w, resultPath).Some?
    ensures Wrap(Unwrap(w, resultPath).value, resultPath) == w
  {
  }

  /** Different scripts give different programs for the same result path. */
  lemma WrapInjective(s1: string, s2: string, resultPath: string)
    requires Wrap(s1, resultPath) == Wrap(s2, resultPath)
    ensures s1 == s2
  {
  }

  /** An entry point in the script is still in the program. */
  lemma WrapKeepsEntryPoint(script: string, resultPath: string, entry: string)
    requires Contains(script, entry)
    ensures Contains(Wrap(script, resultPath), entry)
  {
    ContainsInfix(Header, script, Driver(resultPath), entry);
  }
}
