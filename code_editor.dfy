/** The coding page: running the tests (validation, reading the question's test cases,
    the batch run and the state it leaves), the run summary shown in the drawer, the
    submission rule and the language switch. */
module CodeEditor {
  import opened Results
  import opened Text
  import opened JsValues
  import opened Validator
  import opened EntryPoint
  import opened Execution

  /** The editor's starting text. */
  const InitialCode: string :=
    "// Start coding here\nfunction solution() {\n  // Write your solution here\n}"

  const AllPassedStatus: string := "All Tests Passed"
  const SomeFailedStatus: string := "Some Tests Failed"
  const NoTestsStatus: string := "No Tests Available"
  const NoCasesOutput: string := "Code executed but no test cases were provided."
  const NoCasesAlert: string := "No test cases available for this question."

  /** How many times `for (let i = 0; i < n; i++)` runs for a bound `n` (`None` is NaN,
      which no comparison satisfies): the least natural number not below `n`. */
  function LoopCount(n: Option<real>): (r: nat)
    ensures n.None? || n.value <= 0.0 ==> r == 0
    ensures n.Some? && n.value > 0.0 ==> (r - 1) as real < n.value <= r as real
  {
    if n.None? || n.value <= 0.0 then 0
    else if n.value.Floor as real == n.value then n.value.Floor
    else n.value.Floor + 1
  }

  /** The list `executeCode` walks: `testCases.length` entries read by index. An array
      yields its elements and a string its characters. An object yields the entries
      under the index names below its `length`, read as a number. A number or boolean
      has no `length` and yields none. Reading the length of `null` or `undefined`
      throws, and `executeCode` reports that error. */
  function CaseList(h: Host, v: Value): (r: Result<seq<Value>>)
    ensures v.Arr? ==> r == Ok(v.items)
    ensures r.Err? <==> IsNullish(v)
    ensures v.Str? ==> r.Ok? && |r.value| == |v.s|
                       && forall i :: 0 <= i < |v.s| ==> r.value[i] == Str([v.s[i]])
    ensures v.Obj? ==> r.Ok? && |r.value| == LoopCount(NumberOf(h, Prop(v, "length")))
    ensures v.Obj? ==> forall i :: 0 <= i < |r.value| ==> r.value[i] == Prop(v, NatText(i))
    ensures v.Num? || v.Bool? ==> r == Ok([])
  {
    match v
    case Arr(items) => Ok(items)
    case Str(s) => Ok(seq(|s|, i requires 0 <= i < |s| => Str([s[i]])))
    case Obj(_) =>
      var n := LoopCount(NumberOf(h, Prop(v, "length")));
      Ok(seq(n, i requires 0 <= i < n => Prop(v, NatText(i))))
    case Null => Err(ReadError(v, "length"))
    case Undefined => Err(ReadError(v, "length"))
    case _ => Ok([])
  }

  /** An object standing in for a list, as `{"length": 1, "0": c}`, runs its entry. */
  lemma ObjectWithLengthRuns(h: Host, c: Value)
    ensures CaseList(h, Obj(map["length" := Num(1.0), "0" := c])) == Ok([c])
  {
    var v := Obj(map["length" := Num(1.0), "0" := c]);
    assert Prop(v, "length") == Num(1.0);
    assert LoopCount(NumberOf(h, Num(1.0))) == 1;
    assert NatText(0) == "0";
    var r := CaseList(h, v);
    assert |r.value| == 1 && r.value[0] == Prop(v, "0") == c;
    assert r.value == [c];
  }

  /** The loop visits exactly as many cases as `testCases.length` asks for, read as a
      number; so for an array or a text the visited count is the `totalTests` the batch
      reports, and for an object it is that `length` rounded up. */
  lemma CaseCountIsLength(h: Host, v: Value)
    requires !IsNullish(v)
    ensures CaseList(h, v).Ok?
    ensures |CaseList(h, v).value| == LoopCount(NumberOf(h, LengthOf(v)))
    ensures v.Arr? || v.Str? ==> LengthOf(v) == Num(|CaseList(h, v).value| as real)
  {
  }

  /** `typeof question.testCases === 'string' ? JSON.parse(...) : question.testCases`;
      a parse failure carries the parser's message. */
  function Decoded(h: Host, raw: Value): (r: Result<Value>)
    ensures !raw.Str? ==> r == Ok(raw)
    ensures raw.Str? ==> r == h.jsonParse(raw.s)
  {
    if raw.Str? then h.jsonParse(raw.s) else Ok(raw)
  }

  /** The stored test cases decoded, then read as a list. */
  function TestCasesOf(h: Host, raw: Value): (r: Result<seq<Value>>)
    ensures !raw.Str? ==> r == CaseList(h, raw)
    ensures raw.Str? && h.jsonParse(raw.s).Err? ==> r == Err(h.jsonParse(raw.s).error)
    ensures raw.Str? && h.jsonParse(raw.s).Ok? ==> r == CaseList(h, h.jsonParse(raw.s).value)
  {
    match Decoded(h, raw)
    case Err(e) => Err(e)
    case Ok(v) => CaseList(h, v)
  }

  /** The guard of `handleRunTests`: a loaded question with test cases. */
  predicate ReadyToRun(question: Value) {
    Truthy(question) && Truthy(Prop(question, "testCases"))
  }

  /** Test cases stored as JSON text are decoded before the run. */
  lemma StoredTextIsDecoded(h: Host, text: string, items: seq<Value>)
    requires h.jsonParse(text) == Ok(Arr(items))
    ensures TestCasesOf(h, Str(text)) == Ok(items)
  {
  }

  /** `results.filter(r => r.passed).length` and `results.length`, and the difference. */
  function FailedCount(rs: seq<CaseResult>): (n: nat)
    ensures n + CountPassed(rs) == |rs|
    ensures n == 0 <==> forall j :: 0 <= j < |rs| ==> rs[j].passed
  {
    |rs| - CountPassed(rs)
  }

  /** `reduce((acc, r) => acc + (r.executionTime || 0), 0)` */
  function TotalTime(rs: seq<CaseResult>): nat {
    if rs == [] then 0 else TotalTime(rs[..|rs| - 1]) + rs[|rs| - 1].executionTime
  }

  /** The average time per case, 0 with no cases. */
  function AverageTime(rs: seq<CaseResult>): (r: real)
    ensures r >= 0.0
    ensures rs == [] ==> r == 0.0
  {
    if |rs| > 0 then TotalTime(rs) as real / |rs| as real else 0.0
  }

  /** The average never exceeds a bound every case's time respects. */
  lemma AverageBounded(rs: seq<CaseResult>, bound: nat)
    requires forall j :: 0 <= j < |rs| ==> rs[j].executionTime <= bound
    ensures AverageTime(rs) <= bound as real
  {
    TotalTimeBounded(rs, bound);
    if |rs| > 0 {
      DivBound(TotalTime(rs) as real, |rs| as real, bound as real);
    }
  }

  lemma DivBound(x: real, n: real, b: real)
    requires n > 0.0 && x <= n * b
    ensures x / n <= b
  {
    var q := x / n;
    assert q * n == x;
    if q > b {
      assert q * n > b * n;
    }
  }

  lemma {:induction false} TotalTimeBounded(rs: seq<CaseResult>, bound: nat)
    requires forall j :: 0 <= j < |rs| ==> rs[j].executionTime <= bound
    ensures TotalTime(rs) <= |rs| * bound
  {
    if rs != [] {
      TotalTimeBounded(rs[..|rs| - 1], bound);
    }
  }

  /** The status line of the run summary. */
  function Status(rs: seq<CaseResult>): (r: string)
    ensures r == AllPassedStatus <==> rs != [] && forall j :: 0 <= j < |rs| ==> rs[j].passed
    ensures r == SomeFailedStatus <==> exists j :: 0 <= j < |rs| && !rs[j].passed
    ensures r == NoTestsStatus <==> rs == []
  {
    var passed := CountPassed(rs);
    if passed == |rs| && |rs| > 0 then AllPassedStatus
    else if |rs| > 0 then SomeFailedStatus
    else NoTestsStatus
  }

  /** How a result value is shown: `typeof v === 'object' ? JSON.stringify(v) : v || 'N/A'`. */
  function DisplayValue(h: Host, v: Value): (r: Value)
    ensures IsObjectType(v) ==> r == Str(h.jsonStringify(v))
    ensures !IsObjectType(v) && Truthy(v) ==> r == v
    ensures !IsObjectType(v) && !Truthy(v) ==> r == Str("N/A")
    ensures !IsObjectType(v) ==> Truthy(r)
  {
    if IsObjectType(v) then Str(h.jsonStringify(v))
    else if Truthy(v) then v
    else Str("N/A")
  }

  /** `0`, `''`, `false` and `undefined` all show as `N/A`, while `null` goes through
      `JSON.stringify`. */
  lemma FalsyScalarsShowAsNA(h: Host)
    ensures DisplayValue(h, Num(0.0)) == Str("N/A") && DisplayValue(h, Str("")) == Str("N/A")
    ensures DisplayValue(h, Bool(false)) == Str("N/A") && DisplayValue(h, Undefined) == Str("N/A")
    ensures DisplayValue(h, Null) == Str(h.jsonStringify(Null))
  {
  }

  /** One row of the drawer's results. */
  datatype Shown = Shown(passed: bool, input: Value, expected: Value, actual: Value, executionTime: real)

  /** The row shown for a result; `randomTime` is the `Math.random() * 50 + 10` drawn
      when the recorded time is 0. */
  function ShownOf(h: Host, r: CaseResult, randomTime: real): (s: Shown)
    ensures s.passed == r.passed
    ensures s.input == DisplayValue(h, r.input) && s.expected == DisplayValue(h, r.expected)
    ensures s.actual == DisplayValue(h, r.actual)
    ensures r.executionTime != 0 ==> s.executionTime == r.executionTime as real
  {
    Shown(r.passed, DisplayValue(h, r.input), DisplayValue(h, r.expected), DisplayValue(h, r.actual),
      if r.executionTime != 0 then r.executionTime as real else randomTime)
  }

  function ShownAll(h: Host, rs: seq<CaseResult>, randomTime: nat -> real): (r: seq<Shown>)
    ensures |r| == |rs|
    ensures forall j :: 0 <= j < |rs| ==> r[j] == ShownOf(h, rs[j], randomTime(j))
  {
    seq(|rs|, j requires 0 <= j < |rs| => ShownOf(h, rs[j], randomTime(j)))
  }

  /** The drawer's summary after a run. */
  datatype RunReport = RunReport(
    output: string, executionTime: real, status: string, testResults: seq<Shown>,
    totalTests: nat, passedTests: nat, failedTests: nat)

  /** The summary text; `fixed(x, d)` is `x.toFixed(d)`. */
  function RunOutput(rs: seq<CaseResult>, fixed: (real, nat) -> string): (r: string)
    ensures rs == [] ==> r == NoCasesOutput
    ensures rs != [] ==> StartsWith(r, "Execution completed successfully!\n\n")
  {
    var prefix := "Execution completed successfully!\n\n";
    if |rs| > 0 then
      var rate := CountPassed(rs) as real / |rs| as real * 100.0;
      var rest := "\U{2705} Passed: " + NatText(CountPassed(rs)) + "/" + NatText(|rs|)
        + " test cases\n\U{23F1}\U{FE0F}  Average execution time: " + fixed(AverageTime(rs), 2)
        + "ms\n\U{1F3AF} Success rate: " + fixed(rate, 1) + "%";
      StartsWithConcat(prefix, rest);
      prefix + rest
    else NoCasesOutput
  }

  /** The summary of `handleRunCode` for a list of results. */
  function Report(h: Host, rs: seq<CaseResult>, fixed: (real, nat) -> string, randomTime: nat -> real): (r: RunReport)
    ensures r.totalTests == |rs| && r.passedTests == CountPassed(rs)
    ensures r.passedTests + r.failedTests == r.totalTests
    ensures r.status == Status(rs) && r.executionTime == AverageTime(rs)
    ensures r.testResults == ShownAll(h, rs, randomTime)
    ensures r.output == RunOutput(rs, fixed)
  {
    RunReport(RunOutput(rs, fixed), AverageTime(rs), Status(rs), ShownAll(h, rs, randomTime),
      |rs|, CountPassed(rs), FailedCount(rs))
  }

  /** The summary of an accepted submission. */
  datatype SubmissionReport = SubmissionReport(
    output: string, executionTime: real, status: string, testResults: seq<Shown>, isSubmission: bool)

  /** What `handleSubmitCode` does with the results: accept and show the summary, or
      alert. */
  datatype Decision = Accepted(report: SubmissionReport) | Rejected(alert: string)

  function SubmittedOutput(total: nat): string {
    "\U{1F389} Submission Successful!\n\n\U{2705} All " + NatText(total)
    + " test cases passed!\n\U{1F680} Your solution has been accepted.\n\U{2B50} Great job solving this problem!"
  }

  function Decide(h: Host, rs: seq<CaseResult>, randomTime: nat -> real): (r: Decision)
    ensures r.Accepted? <==> rs != [] && forall j :: 0 <= j < |rs| ==> rs[j].passed
    ensures r.Accepted? ==>
      r.report.status == "Submission Accepted" && r.report.isSubmission
      && r.report.testResults == ShownAll(h, rs, randomTime)
    ensures rs == [] ==> r == Rejected(NoCasesAlert)
    ensures r.Rejected? && rs != [] ==>
      r.alert == "Cannot submit: " + NatText(FailedCount(rs)) + " test case(s) failed. Please fix your code."
  {
    var passed := CountPassed(rs);
    if passed == |rs| && |rs| > 0 then
      Accepted(SubmissionReport(SubmittedOutput(|rs|), AverageTime(rs), "Submission Accepted",
        ShownAll(h, rs, randomTime), true))
    else if |rs| == 0 then Rejected(NoCasesAlert)
    else Rejected("Cannot submit: " + NatText(|rs| - passed) + " test case(s) failed. Please fix your code.")
  }

  /** A submission is accepted exactly when a run of the same results reports that all
      tests passed. */
  lemma AcceptedIffAllPassed(h: Host, rs: seq<CaseResult>, fixed: (real, nat) -> string, randomTime: nat -> real)
    ensures Decide(h, rs, randomTime).Accepted? <==> Report(h, rs, fixed, randomTime).status == AllPassedStatus
  {
  }

  /** What the `try`/`catch` of `handleRunTests` leaves: the results and the error. */
  datatype Outcome = Outcome(results: seq<CaseResult>, error: Option<string>)

  /** The outcome for code `code` and the question's stored test cases `raw`: a
      validation failure or a parse failure gives its message, a completed batch its
      results, a failed batch its error. */
  function RunTests(h: Host, elapsed: nat -> nat, code: Submission, language: string, raw: Value): (o: Outcome)
    ensures o.error.Some? ==> o.results == []
    ensures Validate(code.text, language).Invalid? ==>
      o == Outcome([], Some(Validate(code.text, language).message))
    ensures Validate(code.text, language).Valid? && TestCasesOf(h, raw).Err? ==>
      o == Outcome([], Some(TestCasesOf(h, raw).error))
  {
    match Validate(code.text, language)
    case Invalid(m) => Outcome([], Some(m))
    case Valid =>
      match Decoded(h, raw)
      case Err(e) => Outcome([], Some(e))
      case Ok(v) =>
        match CaseList(h, v)
        case Err(e) => Outcome([], Some(e))
        case Ok(cases) =>
          match Batch(h, elapsed, code, language, cases, LengthOf(v))
          case Completed(rs, _, _) => Outcome(rs, None)
          case Failed(e) => Outcome([], Some(e))
  }

  /** After a batch over `cases`: no error exactly when no entry is `null` or
      `undefined`; then one result per case, in order; otherwise no results and the error
      of the first such entry. */
  lemma BatchOutcome(h: Host, elapsed: nat -> nat, code: Submission, language: string,
                     raw: Value, cases: seq<Value>)
    requires Validate(code.text, language).Valid? && TestCasesOf(h, raw) == Ok(cases)
    ensures var o := RunTests(h, elapsed, code, language, raw);
      (o.error.None? <==> forall j :: 0 <= j < |cases| ==> !IsNullish(cases[j]))
      && (o.error.Some? ==>
            o.results == []
            && exists j :: (0 <= j < |cases| && IsNullish(cases[j])
                            && (forall k :: 0 <= k < j ==> !IsNullish(cases[k]))
                            && o.error == Some(NullishCaseMessage(cases[j]))))
      && (o.error.None? ==>
            |o.results| == |cases|
            && forall j :: 0 <= j < |cases| ==>
                 o.results[j] == RunCase(h, elapsed, code, language, j, cases[j]))
  {
    var length := LengthOf(Decoded(h, raw).value);
    var b := Batch(h, elapsed, code, language, cases, length);
    assert RunTests(h, elapsed, code, language, raw)
      == if b.Completed? then Outcome(b.results, None) else Outcome([], Some(b.error));
    BatchShape(h, elapsed, code, language, cases, length);
  }

  /** Validation comes first: rejected code never reaches the test cases, and its message
      is the error shown. */
  lemma InvalidCodeNeverRuns(h: Host, elapsed: nat -> nat, code: Submission, language: string, raw: Value)
    requires Validate(code.text, language).Invalid?
    ensures RunTests(h, elapsed, code, language, raw)
      == Outcome([], Some(Validate(code.text, language).message))
  {
  }

  /** Either results or an error, never both. */
  lemma ResultsExcludeError(h: Host, elapsed: nat -> nat, code: Submission, language: string, raw: Value)
    ensures var o := RunTests(h, elapsed, code, language, raw);
      o.error.Some? ==> o.results == []
  {
  }

  /** The `try`/`catch` of `handleRunTests`: validate, read the test cases, run the batch,
      and keep either the results or the error. */
  method TryRun(h: Host, elapsed: nat -> nat, code: Submission, language: string, raw: Value)
    returns (results: seq<CaseResult>, error: Option<string>)
    ensures Outcome(results, error) == RunTests(h, elapsed, code, language, raw)
  {
    var verdict := Validate(code.text, language);
    if verdict.Invalid? {
      return [], Some(verdict.message);
    }
    var decoded := Decoded(h, raw);
    if decoded.Err? {
      return [], Some(decoded.error);
    }
    var cases := CaseList(h, decoded.value);
    if cases.Err? {
      return [], Some(cases.error);
    }
    var result := ExecuteCode(h, elapsed, code, language, cases.value, LengthOf(decoded.value));
    if result.Completed? {
      results, error := result.results, None;
    } else {
      results, error := [], Some(result.error);
    }
  }

  /** The page's running state. `code` pairs the editor text with what it does when
      run as JavaScript. */
  class Editor {
    var question: Value
    var code: Submission
    var language: string
    var testResults: seq<CaseResult>
    var isRunningTests: bool
    var executionError: Option<string>

    /** The page before the question loads, with the starter code whose behaviour is
        `program`. */
    constructor (program: Program)
      ensures question == Null && code == Submission(InitialCode, program)
      ensures language == "javascript" && testResults == [] && !isRunningTests
      ensures executionError == None
    {
      question := Null;
      code := Submission(InitialCode, program);
      language := "javascript";
      testResults := [];
      isRunningTests := false;
      executionError := None;
    }

    /** The fetched question arrives. */
    method SetQuestion(q: Value)
      modifies this
      ensures question == q && code == old(code) && language == old(language)
      ensures testResults == old(testResults) && isRunningTests == old(isRunningTests)
      ensures executionError == old(executionError)
    {
      question := q;
    }

    /** The editor's change handler. */
    method SetCode(c: Submission)
      modifies this
      ensures code == c && question == old(question) && language == old(language)
      ensures testResults == old(testResults) && isRunningTests == old(isRunningTests)
      ensures executionError == old(executionError)
    {
      code := c;
    }

    /** `handleLanguageChange`: the new language, and the old results cleared. */
    method HandleLanguageChange(newLanguage: string)
      modifies this
      ensures language == newLanguage && testResults == []
      ensures question == old(question) && code == old(code)
      ensures isRunningTests == old(isRunningTests) && executionError == old(executionError)
    {
      language := newLanguage;
      testResults := [];
    }

    /** `handleRunTests`: without a question or its test cases nothing happens; otherwise
        a validation, parse or batch failure sets the error and leaves no results, a
        completed batch stores its results and clears the error, and the running flag
        is down again at the end. */
    method HandleRunTests(h: Host, elapsed: nat -> nat)
      modifies this
      ensures question == old(question) && code == old(code) && language == old(language)
      ensures !ReadyToRun(old(question)) ==>
        testResults == old(testResults) && isRunningTests == old(isRunningTests)
        && executionError == old(executionError)
      ensures ReadyToRun(old(question)) ==> !isRunningTests
      ensures ReadyToRun(old(question)) ==>
        Outcome(testResults, executionError)
        == RunTests(h, elapsed, old(code), old(language), Prop(old(question), "testCases"))
    {
      if !ReadyToRun(question) {
        return;
      }
      var results, error := TryRun(h, elapsed, code, language, Prop(question, "testCases"));
      Finish(results, error);
    }

    /** The `finally` of `handleRunTests`, with what the `try`/`catch` kept. */
    method Finish(results: seq<CaseResult>, error: Option<string>)
      modifies this
      ensures testResults == results && executionError == error && !isRunningTests
      ensures question == old(question) && code == old(code) && language == old(language)
    {
      testResults, executionError, isRunningTests := results, error, false;
    }
  }
}
