/** Running submitted code against a list of test cases: the JavaScript path calls the
    resolved entry point, the Python and other-language paths only check the code's
    structure and answer with the expected value, and the batch loop records one result
    per case. */
module Execution {
  import opened Results
  import opened Text
  import opened JsValues
  import opened Comparator
  import opened EntryPoint

  /** What one successful run yields: the answer and the captured log text. */
  datatype Run = Run(output: Value, logs: string)

  /** One entry of `results`. */
  datatype CaseResult = CaseResult(
    index: nat,
    passed: bool,
    actual: Value,
    expected: Value,
    input: Value,
    executionTime: nat,
    output: string,
    error: Option<string>)

  /** What `executeCode` resolves to: `success: true` with the results, or
      `success: false` with the message of the error that escaped the loop.
      `totalTests` is whatever `testCases.length` reads, which for an object need not be
      the number of cases the loop visited. */
  datatype BatchResult =
    | Completed(results: seq<CaseResult>, totalTests: Value, passedTests: nat)
    | Failed(error: string)

  /** The submitted code: its text, and what it does when run as JavaScript. */
  datatype Submission = Submission(text: string, program: Program)

  const FunctionNotFoundMessage: string :=
    "Function not found. Make sure to define a function named \"solution\", \"main\", or any function name."
  const InputAccessMessage: string :=
    "Error accessing input data. Check your function parameters."

  /** The rewording of engine errors before they are reported. */
  function FriendlyMessage(m: string): (r: string)
    ensures Contains(m, "is not defined") ==> r == FunctionNotFoundMessage
    ensures !Contains(m, "is not defined") && Contains(m, "Cannot read property") ==>
      r == InputAccessMessage
    ensures !Contains(m, "is not defined") && !Contains(m, "Cannot read property") ==> r == m
  {
    if Contains(m, "is not defined") then FunctionNotFoundMessage
    else if Contains(m, "Cannot read property") then InputAccessMessage
    else m
  }

  /** The message of the error `executeJavaScript` rejects with when `t` was thrown. A
      thrown value without a string `message` crashes the rewording, and the outer handler
      then names a variable that is out of its scope. */
  function JsFailure(t: Thrown): (r: string)
    ensures t.message.Some? ==> StartsWith(r, "Execution error: ")
  {
    match t.message
    case Some(m) => "Execution error: " + FriendlyMessage(m)
    case None => "originalLog is not defined"
  }

  /** The error of calling a resolved name that is not bound to a function. */
  function NotCallable(callee: string, v: Value): (t: Thrown)
    ensures t.message.Some? && StartsWith(JsFailure(t), "Execution error: ")
    ensures callee != "func" ==> t.message == Some(callee + " is not a function")
  {
    if callee == "func" && v.Null? then
      Thrown(Some(ReadError(v, "toString")))
    else Thrown(Some(callee + " is not a function"))
  }

  /** The lines the runner logs itself while `console.log` is captured, before the
      code runs: the test case, its input and the input's type, the outcome of decoding a
      string input, and the code. Each line is `String` of the logged values, joined by a
      space. */
  function PreludeLogs(h: Host, code: string, tc: Value): (r: seq<string>)
    ensures |r| == if Prop(tc, "input").Str? then 5 else 4
    ensures r[0] == "DEBUG: Raw testCase: " + ToJsString(h, tc)
    ensures r[|r| - 1] == "DEBUG: About to execute code: " + code
  {
    var input := Prop(tc, "input");
    var decoded :=
      if !input.Str? then []
      else match h.jsonParse(input.s)
        case Ok(v) => ["DEBUG: Parsed input: " + ToJsString(h, v)]
        case Err(_) => ["DEBUG: JSON parse failed, using raw string"];
    ["DEBUG: Raw testCase: " + ToJsString(h, tc),
     "DEBUG: testCase.input: " + ToJsString(h, input),
     "DEBUG: Input type: " + TypeOf(input)]
    + decoded + ["DEBUG: About to execute code: " + code]
  }

  /** The lines the runner logs after the call returned `v`. */
  function ResultLogs(h: Host, v: Value): (r: seq<string>)
    ensures |r| == 3 && r[1] == r[2] == "DEBUG: Result type: " + TypeOf(v)
  {
    ["DEBUG: Function result: " + ToJsString(h, v),
     "DEBUG: Result type: " + TypeOf(v), "DEBUG: Result type: " + TypeOf(v)]
  }

  /** `executeJavaScript(code, testCase)`. The captured log of a successful run holds the
      runner's own lines around those of the submitted code; a failure discards it. */
  function RunJavaScript(h: Host, sub: Submission, tc: Value): (r: Result<Run>)
    ensures IsNullish(tc) ==> r == Err(JsFailure(Thrown(Some(ReadError(tc, "input")))))
    ensures !IsNullish(tc) && sub.program.loadFailure.Some? ==>
      r == Err(JsFailure(sub.program.loadFailure.value))
    ensures r.Ok? ==>
      !IsNullish(tc) && sub.program.loadFailure.None?
      && Resolve(sub.program, ParseInput(h, Prop(tc, "input"))).Call?
    ensures r.Ok? ==> StartsWith(r.value.logs, "DEBUG: Raw testCase: " + ToJsString(h, tc))
    ensures r.Err? ==> StartsWith(r.error, "Execution error: ") || r.error == "originalLog is not defined"
  {
    var p := sub.program;
    if IsNullish(tc) then Err(JsFailure(Thrown(Some(ReadError(tc, "input")))))
    else if p.loadFailure.Some? then Err(JsFailure(p.loadFailure.value))
    else
      match Resolve(p, ParseInput(h, Prop(tc, "input")))
      case Fail(t) => Err(JsFailure(t))
      case Call(_, name, callee, b, args) =>
        if b.ValueBinding? then Err(JsFailure(NotCallable(callee, b.value)))
        else
          match p.invoke(name, args)
          case Returned(v, logs) =>
            var lines := PreludeLogs(h, sub.text, tc) + p.setupLogs + logs + ResultLogs(h, v);
            assert lines[0] == PreludeLogs(h, sub.text, tc)[0];
            Ok(Run(v, Join(lines, "\n")))
          case Threw(t) => Err(JsFailure(t))
  }

  /** The same, as the runner does it: log, compile and load, resolve with the scanning
      loop, call, log the result. */
  method ExecuteJavaScript(h: Host, sub: Submission, tc: Value) returns (r: Result<Run>)
    ensures r == RunJavaScript(h, sub, tc)
  {
    if IsNullish(tc) {
      return Err(JsFailure(Thrown(Some(ReadError(tc, "input")))));
    }
    var p := sub.program;
    var logs := PreludeLogs(h, sub.text, tc);
    if p.loadFailure.Some? {
      return Err(JsFailure(p.loadFailure.value));
    }
    logs := logs + p.setupLogs;
    var parsed := ParseInput(h, Prop(tc, "input"));
    var res := ResolveEntryPoint(p, parsed);
    if res.Fail? {
      return Err(JsFailure(res.exception));
    }
    if res.binding.ValueBinding? {
      return Err(JsFailure(NotCallable(res.callee, res.binding.value)));
    }
    var outcome := p.invoke(res.name, res.args);
    if outcome.Threw? {
      return Err(JsFailure(outcome.exception));
    }
    logs := logs + outcome.logs + ResultLogs(h, outcome.value);
    return Ok(Run(outcome.value, Join(logs, "\n")));
  }

  /** `/if|for|while|elif/.test(code)` */
  predicate HasLogicKeyword(code: string) {
    Contains(code, "if") || Contains(code, "for") || Contains(code, "while") || Contains(code, "elif")
  }

  /** The structure check of the simulated Python path. */
  predicate PythonLooksComplete(code: string) {
    Contains(code, "return") && HasLogicKeyword(code)
  }

  const NoDefinition: string := "No Python function definition found (def functionName)"

  /** `simulatePython(code, testCase)`. Code with `def ` reads `testCase.input`, which
      throws for a `null` or `undefined` case. */
  function SimulatePython(h: Host, code: string, tc: Value): (r: Result<Run>)
    ensures r.Ok? <==> Contains(code, "def ") && !IsNullish(tc) && !Prop(tc, "input").Undefined?
                       && PythonLooksComplete(code)
    ensures r.Ok? ==> r.value.output == Prop(tc, "expected")
    ensures r.Err? ==> StartsWith(r.error, "Python execution error: ")
    ensures Contains(code, "def ") && IsNullish(tc) ==>
      r == Err("Python execution error: " + ReadError(tc, "input"))
    ensures !Contains(code, "def ") ==>
      r == Err("Python execution error: " + NoDefinition)
  {
    var prefix := "Python execution error: ";
    StartsWithConcat(prefix, "Function appears incomplete or missing return statement");
    StartsWithConcat(prefix, NoDefinition);
    StartsWithConcat(prefix, ReadError(tc, "input"));
    if !Contains(code, "def ") then
      Err(prefix + NoDefinition)
    else if IsNullish(tc) then
      Err(prefix + ReadError(tc, "input"))
    else
      var input := Prop(tc, "input");
      if input.Undefined? then Err(prefix + NoDefinition)
      else if PythonLooksComplete(code) then
        Ok(Run(Prop(tc, "expected"), "Python execution: processing input " + JsonText(h, input)))
      else Err(prefix + "Function appears incomplete or missing return statement")
  }

  /** The structure check of `simulateOtherLanguages`. */
  predicate HasValidStructure(code: string, language: string) {
    if language == "java" then
      Contains(code, "public") && Contains(code, "class") && Contains(code, "return")
    else if language == "cpp" then
      Contains(code, "#include") && (Contains(code, "main") || Contains(code, "return"))
    else if language == "csharp" then
      Contains(code, "using") && Contains(code, "public") && Contains(code, "return")
    else if language == "go" then
      Contains(code, "package main") && Contains(code, "func")
    else if language == "rust" then
      Contains(code, "fn ") && (Contains(code, "main") || Contains(code, "return"))
    else |Trim(code)| > 10
  }

  /** `simulateOtherLanguages(code, testCase, language)`. Code that passes the structure
      check reads `testCase.expected`, which throws for a `null` or `undefined` case. */
  function SimulateOther(h: Host, code: string, tc: Value, language: string): (r: Result<Run>)
    ensures r.Ok? <==> HasValidStructure(code, language) && !IsNullish(tc)
    ensures r.Ok? ==> r.value.output == Prop(tc, "expected")
    ensures !HasValidStructure(code, language) ==>
      r == Err(language + " execution error: " + language + " code structure appears incomplete")
    ensures HasValidStructure(code, language) && IsNullish(tc) ==>
      r == Err(language + " execution error: " + ReadError(tc, "expected"))
  {
    if !HasValidStructure(code, language) then
      Err(language + " execution error: " + language + " code structure appears incomplete")
    else if IsNullish(tc) then
      Err(language + " execution error: " + ReadError(tc, "expected"))
    else
      Ok(Run(Prop(tc, "expected"),
             language + " execution: processing input " + JsonText(h, Prop(tc, "input"))))
  }

  predicate IsJavaScript(language: string) {
    language == "javascript" || language == "typescript"
  }

  /** The run of one test case on the path the language selects. */
  function RunOne(h: Host, sub: Submission, language: string, tc: Value): (r: Result<Run>)
    ensures IsNullish(tc) ==> r.Err?
    ensures !IsJavaScript(language) && r.Ok? ==> r.value.output == Prop(tc, "expected")
  {
    if IsJavaScript(language) then RunJavaScript(h, sub, tc)
    else if language == "python" then SimulatePython(h, sub.text, tc)
    else SimulateOther(h, sub.text, tc, language)
  }

  /** The result recorded for the case at position `i`; `elapsed(i)` is its measured
      time, rounded. */
  function CaseOf(h: Host, elapsed: nat -> nat, i: nat, tc: Value, run: Result<Run>): (r: CaseResult)
    ensures r.index == i && r.expected == Prop(tc, "expected") && r.input == Prop(tc, "input")
    ensures run.Err? ==> !r.passed && r.actual == Null && r.output == "" && r.error == Some(run.error)
    ensures run.Ok? ==> r.error.None? && r.actual == run.value.output && r.output == run.value.logs
    ensures run.Ok? ==> (r.passed <==> Compare(h, run.value.output, Prop(tc, "expected")))
  {
    match run
    case Ok(out) =>
      CaseResult(i, Compare(h, out.output, Prop(tc, "expected")), out.output,
                 Prop(tc, "expected"), Prop(tc, "input"), elapsed(i), out.logs, None)
    case Err(m) =>
      CaseResult(i, false, Null, Prop(tc, "expected"), Prop(tc, "input"), elapsed(i), "", Some(m))
  }

  function RunCase(h: Host, elapsed: nat -> nat, sub: Submission, language: string, i: nat, tc: Value): CaseResult {
    CaseOf(h, elapsed, i, tc, RunOne(h, sub, language, tc))
  }

  /** `results.filter(r => r.passed).length` */
  function CountPassed(rs: seq<CaseResult>): (n: nat)
    ensures n <= |rs|
    ensures n == |rs| <==> forall j :: 0 <= j < |rs| ==> rs[j].passed
    ensures n == 0 <==> forall j :: 0 <= j < |rs| ==> !rs[j].passed
  {
    if rs == [] then 0
    else (if rs[|rs| - 1].passed then 1 else 0) + CountPassed(rs[..|rs| - 1])
  }

  /** The error that escapes the loop at a `null` or `undefined` entry: recording the
      failed case reads `testCase.expected`. */
  function NullishCaseMessage(tc: Value): string {
    ReadError(tc, "expected")
  }

  /** The position of the first `null` or `undefined` entry, if any. */
  function FirstNullish(cs: seq<Value>): (r: Option<nat>)
    ensures r.Some? ==> r.value < |cs| && IsNullish(cs[r.value])
    ensures r.Some? ==> forall k :: 0 <= k < r.value ==> !IsNullish(cs[k])
    ensures r.None? <==> forall k :: 0 <= k < |cs| ==> !IsNullish(cs[k])
  {
    if cs == [] then None
    else if IsNullish(cs[0]) then Some(0)
    else match FirstNullish(cs[1..])
      case Some(j) => Some(j + 1)
      case None => None
  }

  /** One result per case, in order. */
  function CaseResults(h: Host, elapsed: nat -> nat, sub: Submission, language: string, cs: seq<Value>)
    : (r: seq<CaseResult>)
    ensures |r| == |cs|
  {
    seq(|cs|, j requires 0 <= j < |cs| => RunCase(h, elapsed, sub, language, j, cs[j]))
  }

  /** What `executeCode` resolves to when its loop visits the cases `cs` and
      `testCases.length` reads `length`. */
  function Batch(h: Host, elapsed: nat -> nat, sub: Submission, language: string, cs: seq<Value>, length: Value)
    : (r: BatchResult)
    ensures r.Completed? ==> |r.results| == |cs| && r.totalTests == length && r.passedTests <= |cs|
  {
    match FirstNullish(cs)
    case Some(j) => Failed(NullishCaseMessage(cs[j]))
    case None =>
      var rs := CaseResults(h, elapsed, sub, language, cs);
      Completed(rs, length, CountPassed(rs))
  }

  /** The batch fails exactly at a `null` or `undefined` entry, with the error of the
      first one; otherwise it holds one result per case, in order, each recording its
      index, and counts the passed ones. */
  lemma BatchShape(h: Host, elapsed: nat -> nat, sub: Submission, language: string, cs: seq<Value>, length: Value)
    ensures var r := Batch(h, elapsed, sub, language, cs, length);
      (r.Failed? <==> exists j :: 0 <= j < |cs| && IsNullish(cs[j]))
      && (r.Failed? ==>
            exists j :: (0 <= j < |cs| && IsNullish(cs[j])
                         && (forall k :: 0 <= k < j ==> !IsNullish(cs[k]))
                         && r.error == NullishCaseMessage(cs[j])))
      && (r.Completed? ==>
            |r.results| == |cs| && r.totalTests == length
            && (forall j :: 0 <= j < |cs| ==>
                  r.results[j] == RunCase(h, elapsed, sub, language, j, cs[j])
                  && r.results[j].index == j)
            && r.passedTests == CountPassed(r.results))
  {
    var r := Batch(h, elapsed, sub, language, cs, length);
    if r.Completed? {
      forall j | 0 <= j < |cs|
        ensures r.results[j].index == j
      {
        ResultShape(h, elapsed, sub, language, j, cs[j]);
      }
    }
  }

  lemma BatchStopsAt(h: Host, elapsed: nat -> nat, sub: Submission, language: string, cs: seq<Value>,
                     length: Value, i: nat)
    requires i < |cs| && IsNullish(cs[i])
    requires forall k :: 0 <= k < i ==> !IsNullish(cs[k])
    ensures Batch(h, elapsed, sub, language, cs, length) == Failed(NullishCaseMessage(cs[i]))
  {
    assert FirstNullish(cs) == Some(i);
  }

  lemma BatchCompletes(h: Host, elapsed: nat -> nat, sub: Submission, language: string,
                       cs: seq<Value>, length: Value, rs: seq<CaseResult>)
    requires forall k :: 0 <= k < |cs| ==> !IsNullish(cs[k])
    requires rs == CaseResults(h, elapsed, sub, language, cs)
    ensures Batch(h, elapsed, sub, language, cs, length) == Completed(rs, length, CountPassed(rs))
  {
    NoneNullish(cs);
  }

  lemma NoneNullish(cs: seq<Value>)
    requires forall k :: 0 <= k < |cs| ==> !IsNullish(cs[k])
    ensures FirstNullish(cs) == None
  {
  }

  /** The results recorded so far are those of the first cases, in order. */
  predicate InStep(h: Host, elapsed: nat -> nat, sub: Submission, language: string,
                   cs: seq<Value>, results: seq<CaseResult>) {
    |results| <= |cs|
    && forall k {:trigger results[k]} :: 0 <= k < |results| ==>
      results[k] == RunCase(h, elapsed, sub, language, k, cs[k])
  }

  lemma SameResults(h: Host, elapsed: nat -> nat, sub: Submission, language: string,
                    cs: seq<Value>, rs: seq<CaseResult>)
    requires |rs| == |cs| && InStep(h, elapsed, sub, language, cs, rs)
    ensures rs == CaseResults(h, elapsed, sub, language, cs)
  {
  }

  /** One more recorded case keeps the results in step with the cases. */
  lemma ExtendResults(h: Host, elapsed: nat -> nat, sub: Submission, language: string,
                      cs: seq<Value>, results: seq<CaseResult>, c: CaseResult)
    requires |results| < |cs| && InStep(h, elapsed, sub, language, cs, results)
    requires c == RunCase(h, elapsed, sub, language, |results|, cs[|results|])
    ensures InStep(h, elapsed, sub, language, cs, results + [c])
  {
    var i := |results|;
    forall k | 0 <= k < i + 1
      ensures (results + [c])[k] == RunCase(h, elapsed, sub, language, k, cs[k])
    {
      if k < i { assert (results + [c])[k] == results[k]; }
    }
  }

  /** The body of the loop for the case at position `i`: run it on the language's path
      and record the result, a thrown error included. */
  method ExecuteCase(h: Host, elapsed: nat -> nat, sub: Submission, language: string, i: nat, tc: Value)
    returns (c: CaseResult)
    ensures c == RunCase(h, elapsed, sub, language, i, tc)
  {
    var run: Result<Run>;
    if IsJavaScript(language) {
      run := ExecuteJavaScript(h, sub, tc);
    } else if language == "python" {
      run := SimulatePython(h, sub.text, tc);
    } else {
      run := SimulateOther(h, sub.text, tc, language);
    }
    c := CaseOf(h, elapsed, i, tc, run);
  }

  /** `executeCode(code, language, testCases)` over the cases the loop visits and the
      value of `testCases.length`: one result per case, in order, each failure confined
      to its own case; a `null` or `undefined` entry instead ends the whole batch with an
      error. */
  method ExecuteCode(h: Host, elapsed: nat -> nat, sub: Submission, language: string, testCases: seq<Value>,
                     length: Value)
    returns (r: BatchResult)
    ensures r == Batch(h, elapsed, sub, language, testCases, length)
  {
    var results: seq<CaseResult> := [];
    var i := 0;
    while i < |testCases|
      invariant i <= |testCases| && |results| == i
      invariant forall k :: 0 <= k < i ==> !IsNullish(testCases[k])
      invariant InStep(h, elapsed, sub, language, testCases, results)
    {
      var tc := testCases[i];
      if IsNullish(tc) {
        BatchStopsAt(h, elapsed, sub, language, testCases, length, i);
        return Failed(NullishCaseMessage(tc));
      }
      var c := ExecuteCase(h, elapsed, sub, language, i, tc);
      ExtendResults(h, elapsed, sub, language, testCases, results, c);
      results := results + [c];
      i := i + 1;
    }
    SameResults(h, elapsed, sub, language, testCases, results);
    BatchCompletes(h, elapsed, sub, language, testCases, length, results);
    return Completed(results, length, CountPassed(results));
  }

  /** Each result carries its position, and a failed run is recorded with no answer, an
      empty output and the error message. */
  lemma ResultShape(h: Host, elapsed: nat -> nat, sub: Submission, language: string, i: nat, tc: Value)
    ensures var c := RunCase(h, elapsed, sub, language, i, tc);
      c.index == i
      && (c.error.Some? ==> !c.passed && c.actual == Null && c.output == "")
      && (c.error.None? <==> RunOne(h, sub, language, tc).Ok?)
  {
  }

  /** On the simulated paths a case passes exactly when the structure checks pass (and,
      for Python, the case has an input). */
  lemma SimulatedPassIff(h: Host, elapsed: nat -> nat, sub: Submission, language: string, i: nat, tc: Value)
    requires !IsJavaScript(language)
    ensures RunCase(h, elapsed, sub, language, i, tc).passed <==>
      !IsNullish(tc) &&
      if language == "python" then
        Contains(sub.text, "def ") && !Prop(tc, "input").Undefined? && PythonLooksComplete(sub.text)
      else HasValidStructure(sub.text, language)
  {
    CompareReflexive(h, Prop(tc, "expected"));
  }
}
