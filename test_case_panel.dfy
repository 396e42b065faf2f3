/** The test-case panel beside the editor: the question's test cases as the panel reads
    them, the status of each case looked up by index among the run's results, the rows
    each case shows, and the output tab's lines and passed count. */
module TestCasePanel {
  import opened Results
  import opened Text
  import opened JsValues
  import opened Execution

  /** `question?.testCases || []` */
  function StoredCases(question: Value): (r: Value)
    ensures Truthy(r)
    ensures Truthy(Prop(question, "testCases")) ==> r == Prop(question, "testCases")
    ensures !Truthy(Prop(question, "testCases")) ==> r == Arr([])
  {
    var t := Prop(question, "testCases");
    if Truthy(t) then t else Arr([])
  }

  /** `parsedTestCases`: text is decoded with `JSON.parse` (which may throw), an array is
      used as it is, anything else becomes the empty list. */
  function ParsedTestCases(h: Host, question: Value): (r: Result<Value>)
    ensures !StoredCases(question).Str? ==> r.Ok? && r.value.Arr?
    ensures StoredCases(question).Arr? ==> r == Ok(StoredCases(question))
    ensures StoredCases(question).Str? ==> r == h.jsonParse(StoredCases(question).s)
  {
    var t := StoredCases(question);
    if t.Str? then h.jsonParse(if t.s == [] then "[]" else t.s)
    else if t.Arr? then Ok(t)
    else Ok(Arr([]))
  }

  /** A question without test cases, or with a value of some other kind there, shows
      the empty list. */
  lemma MissingCasesAreEmpty(h: Host, question: Value)
    requires !Prop(question, "testCases").Str? && !Prop(question, "testCases").Arr?
    ensures ParsedTestCases(h, question) == Ok(Arr([]))
  {
  }

  /** What the test-case tab shows for the parsed value: the placeholder when its
      `length` is 0, one card per entry of an array, and otherwise the error the render
      throws (`map` exists on arrays only, and `null` and `undefined` have no `length`). */
  datatype CaseList = NoCases | Listed(cases: seq<Value>) | Crashed(message: string)

  const NotMappable: string := "parsedTestCases.map is not a function"

  function CaseView(parsed: Value): (r: CaseList)
    ensures r.Listed? <==> parsed.Arr? && parsed.items != []
    ensures r.Listed? ==> r.cases == parsed.items
    ensures parsed.Arr? && parsed.items == [] ==> r == NoCases
  {
    match parsed
    case Arr(items) => if items == [] then NoCases else Listed(items)
    case Str(s) => if s == [] then NoCases else Crashed(NotMappable)
    case Null => Crashed(ReadError(parsed, "length"))
    case Undefined => Crashed(ReadError(parsed, "length"))
    case Obj(_) => if Prop(parsed, "length") == Num(0.0) then NoCases else Crashed(NotMappable)
    case _ => Crashed(NotMappable)
  }

  /** `testResults?.find(r => r.index === index)`: the first result carrying the index. */
  function FindByIndex(rs: seq<CaseResult>, index: nat): (r: Option<CaseResult>)
    ensures r.None? <==> forall j :: 0 <= j < |rs| ==> rs[j].index != index
    ensures r.Some? ==> exists j :: 0 <= j < |rs| && rs[j] == r.value
                                    && (forall k :: 0 <= k < j ==> rs[k].index != index)
    ensures r.Some? ==> r.value.index == index
  {
    if rs == [] then None
    else if rs[0].index == index then Some(rs[0])
    else
      var rest := FindByIndex(rs[1..], index);
      assert rest.Some? ==> exists j :: 0 <= j < |rs| - 1 && rs[1..][j] == rest.value
                                        && (forall k :: 0 <= k < j ==> rs[1..][k].index != index);
      assert rest.Some? ==> exists j :: 0 <= j < |rs| && rs[j] == rest.value
                                        && (forall k :: 0 <= k < j ==> rs[k].index != index) by {
        if rest.Some? {
          var j :| 0 <= j < |rs| - 1 && rs[1..][j] == rest.value
                   && (forall k :: 0 <= k < j ==> rs[1..][k].index != index);
          assert rs[j + 1] == rest.value;
          assert forall k :: 1 <= k < j + 1 ==> rs[k].index != index by {
            forall k | 1 <= k < j + 1
              ensures rs[k].index != index
            {
              assert rs[k] == rs[1..][k - 1];
            }
          }
        }
      }
      rest
  }

  /** The status badge of a case card. */
  datatype Status = Pending | Passed | Failed

  /** `result ? (result.passed ? 'passed' : 'failed') : 'pending'` */
  function CaseStatus(rs: seq<CaseResult>, index: nat): (s: Status)
    ensures s == Pending <==> forall j :: 0 <= j < |rs| ==> rs[j].index != index
    ensures s != Pending ==> (s == Passed <==> FindByIndex(rs, index).value.passed)
  {
    match FindByIndex(rs, index)
    case None => Pending
    case Some(r) => if r.passed then Passed else Status.Failed
  }

  /** When each result sits at its own index, as the batch run records them, the card
      at position `i` shows that result's verdict, and cards past the results are
      pending. */
  lemma StatusOfRecordedRun(rs: seq<CaseResult>, i: nat)
    requires forall j :: 0 <= j < |rs| ==> rs[j].index == j
    ensures i < |rs| ==> CaseStatus(rs, i) == if rs[i].passed then Passed else Status.Failed
    ensures i >= |rs| ==> CaseStatus(rs, i) == Pending
  {
    if i < |rs| {
      var r := FindByIndex(rs, i);
      assert rs[i].index == i;
      var j :| 0 <= j < |rs| && rs[j] == r.value && (forall k :: 0 <= k < j ==> rs[k].index != i);
      assert rs[j].index == j;
    }
  }

  /** A completed batch gives every card a verdict, the one of its own case. */
  lemma StatusAfterBatch(h: Host, elapsed: nat -> nat, sub: Submission, language: string,
                         cs: seq<Value>, length: Value, i: nat)
    requires Batch(h, elapsed, sub, language, cs, length).Completed? && i < |cs|
    ensures var rs := Batch(h, elapsed, sub, language, cs, length).results;
      |rs| == |cs| && CaseStatus(rs, i) == if rs[i].passed then Passed else Status.Failed
  {
    BatchShape(h, elapsed, sub, language, cs, length);
    StatusOfRecordedRun(Batch(h, elapsed, sub, language, cs, length).results, i);
  }

  /** With the results cleared, as a language change does, every card is pending. */
  lemma ClearedResultsArePending(i: nat)
    ensures CaseStatus([], i) == Pending
  {
  }

  /** What one case card shows: the status, the time when it is recorded and not 0, and
      which of the Input, Expected and Output rows appear. */
  datatype Card = Card(status: Status, time: Option<nat>, showInput: bool, showExpected: bool,
                       output: Option<Value>)

  /** The card of entry `tc` at position `index`; reading `input` from a `null` or
      `undefined` entry throws. */
  function CardOf(tc: Value, rs: seq<CaseResult>, index: nat): (r: Result<Card>)
    ensures r.Err? <==> IsNullish(tc)
    ensures r.Ok? ==> r.value.status == CaseStatus(rs, index)
    ensures r.Ok? ==> (r.value.showInput <==> Truthy(Prop(tc, "input")))
    ensures r.Ok? ==> (r.value.showExpected <==> Truthy(Prop(tc, "expected")))
    ensures r.Ok? ==>
      (r.value.output.Some? <==>
         FindByIndex(rs, index).Some? && !FindByIndex(rs, index).value.actual.Undefined?)
  {
    if IsNullish(tc) then
      Err(ReadError(tc, "input"))
    else
      var found := FindByIndex(rs, index);
      Ok(Card(
        CaseStatus(rs, index),
        if found.Some? && found.value.executionTime != 0 then Some(found.value.executionTime) else None,
        Truthy(Prop(tc, "input")),
        Truthy(Prop(tc, "expected")),
        if found.Some? && !found.value.actual.Undefined? then Some(found.value.actual) else None))
  }

  /** A case whose run failed still shows an Output row, holding `null`. */
  lemma FailedRunShowsNull(h: Host, elapsed: nat -> nat, i: nat, tc: Value, m: string)
    requires !IsNullish(tc)
    ensures var c := CaseOf(h, elapsed, i, tc, Err(m));
      CardOf(tc, [c], i) == Ok(Card(Status.Failed, if elapsed(i) != 0 then Some(elapsed(i)) else None,
                                    Truthy(Prop(tc, "input")), Truthy(Prop(tc, "expected")), Some(Null)))
  {
  }

  /** One line group of the output tab: `Test n: PASSED` or `FAILED`, the captured output
      when it is not empty, and the error when it is a non-empty message. */
  datatype OutputLine = OutputLine(number: nat, passed: bool, output: Option<string>, error: Option<string>)

  function OutputLines(rs: seq<CaseResult>): (r: seq<OutputLine>)
    ensures |r| == |rs|
    ensures forall j :: 0 <= j < |rs| ==> r[j].number == j + 1 && r[j].passed == rs[j].passed
    ensures forall j :: 0 <= j < |rs| ==> (r[j].output.Some? <==> rs[j].output != [])
    ensures forall j :: 0 <= j < |rs| ==> (r[j].error.Some? <==> rs[j].error.Some? && rs[j].error.value != [])
  {
    seq(|rs|, j requires 0 <= j < |rs| =>
      OutputLine(j + 1, rs[j].passed,
        if rs[j].output != [] then Some(rs[j].output) else None,
        if rs[j].error.Some? && rs[j].error.value != [] then rs[j].error else None))
  }

  /** The closing line `passed/total tests passed`, shown only when there are results. */
  function PassedLine(rs: seq<CaseResult>): (r: Option<string>)
    ensures r.None? <==> rs == []
  {
    if |rs| > 0 then Some(NatText(CountPassed(rs)) + "/" + NatText(|rs|) + " tests passed") else None
  }

  /** After a completed batch over an array of cases the closing line repeats the counts
      the batch reported: its passed count, and its `totalTests`, which is the array's
      length. */
  lemma PassedLineMatchesBatch(h: Host, elapsed: nat -> nat, sub: Submission, language: string, cs: seq<Value>)
    requires Batch(h, elapsed, sub, language, cs, LengthOf(Arr(cs))).Completed? && cs != []
    ensures var b := Batch(h, elapsed, sub, language, cs, LengthOf(Arr(cs)));
      b.totalTests == Num(|cs| as real)
      && PassedLine(b.results) == Some(NatText(b.passedTests) + "/" + NatText(|cs|) + " tests passed")
  {
    BatchShape(h, elapsed, sub, language, cs, LengthOf(Arr(cs)));
  }
}
