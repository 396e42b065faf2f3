/** The admin form that adds a question to the bank: its one `question` state cell, the
    test-case list editor, the difficulty toggle and the guarded submit. */
module QuestionForm {
  import opened Results

  /** One test-case entry of the editor. The editor writes `input` and `output`; any
      other key written through `updateTestCase` lands in `extra`. */
  datatype TestCase = TestCase(input: string, output: string, extra: map<string, string>)

  /** The `question` state cell. `kind` is the source's `type`. */
  datatype Question = Question(
    title: string, description: string, example: string, constraints: string,
    difficulty: string, kind: string, testCases: seq<TestCase>)

  /** The fields `handleInputChange` is called with. */
  datatype Field = Title | Description | Example | Constraints | Difficulty | Kind

  /** A test case of the payload: `{ input: tc.input, output: tc.output }`. */
  datatype PayloadCase = PayloadCase(input: string, output: string)

  /** The body of the create request. */
  datatype SubmitData = SubmitData(
    title: string, description: string, example: string, constraints: string,
    difficulty: string, kind: string, testCases: seq<PayloadCase>)

  const EmptyCase: TestCase := TestCase("", "", map[])

  const RequiredFieldsAlert: string := "Please fill in all required fields (Type, Title, Description)"
  const AddedAlert: string := "Question added successfully!"
  const FailedAlert: string := "Failed to create question. Please try again."

  /** The initial state, to which a successful submit also resets the form. */
  function InitialQuestion(): (q: Question)
    ensures q.testCases == [EmptyCase] && q.difficulty == "Easy"
    ensures q.title == "" && q.description == "" && q.example == "" && q.constraints == ""
    ensures q.kind == ""
  {
    Question("", "", "", "", "Easy", "", [TestCase("", "", map[])])
  }

  /** The value of one field. */
  function FieldValue(q: Question, f: Field): string {
    match f
    case Title => q.title
    case Description => q.description
    case Example => q.example
    case Constraints => q.constraints
    case Difficulty => q.difficulty
    case Kind => q.kind
  }

  /** `handleInputChange(field, value)`: `{ ...prev, [field]: value }`. */
  function WithField(q: Question, f: Field, value: string): (r: Question)
    ensures FieldValue(r, f) == value
    ensures forall g :: g != f ==> FieldValue(r, g) == FieldValue(q, g)
    ensures r.testCases == q.testCases
  {
    match f
    case Title => q.(title := value)
    case Description => q.(description := value)
    case Example => q.(example := value)
    case Constraints => q.(constraints := value)
    case Difficulty => q.(difficulty := value)
    case Kind => q.(kind := value)
  }

  /** Setting a field twice keeps only the second value. */
  lemma WithFieldLastWins(q: Question, f: Field, v: string, w: string)
    ensures WithField(WithField(q, f, v), f, w) == WithField(q, f, w)
  {
  }

  /** Setting a field to the value it already has changes nothing. */
  lemma WithFieldSameValue(q: Question, f: Field)
    ensures WithField(q, f, FieldValue(q, f)) == q
  {
  }

  /** The toggle's `value || 'Easy'`: clearing the selection falls back to `Easy`. */
  function DifficultyChoice(value: string): (r: string)
    ensures r != ""
    ensures value != "" ==> r == value
  {
    if value == "" then "Easy" else value
  }

  /** `addTestCase`: one empty entry appended, every existing entry unchanged. */
  function WithTestCaseAdded(q: Question): (r: Question)
    ensures |r.testCases| == |q.testCases| + 1
    ensures r.testCases[..|q.testCases|] == q.testCases
    ensures r.testCases[|q.testCases|] == EmptyCase
    ensures forall f :: FieldValue(r, f) == FieldValue(q, f)
  {
    q.(testCases := q.testCases + [EmptyCase])
  }

  /** `filter((_, i) => i !== index)`: the entry at `index` goes, the others keep their
      order; an index outside the list removes nothing. */
  function RemoveAt(s: seq<TestCase>, index: int): (r: seq<TestCase>)
    ensures 0 <= index < |s| ==> |r| == |s| - 1
    ensures 0 <= index < |s| ==> forall j :: 0 <= j < |r| ==> r[j] == (if j < index then s[j] else s[j + 1])
    ensures !(0 <= index < |s|) ==> r == s
  {
    if 0 <= index < |s| then s[..index] + s[index + 1..] else s
  }

  /** `removeTestCase(index)`: only when more than one entry exists. */
  function WithTestCaseRemoved(q: Question, index: int): (r: Question)
    ensures |q.testCases| <= 1 ==> r == q
    ensures |q.testCases| > 1 ==> r.testCases == RemoveAt(q.testCases, index)
    ensures forall f :: FieldValue(r, f) == FieldValue(q, f)
  {
    if |q.testCases| > 1 then q.(testCases := RemoveAt(q.testCases, index)) else q
  }

  /** The list never becomes empty through removal. */
  lemma RemoveKeepsOne(q: Question, index: int)
    requires |q.testCases| >= 1
    ensures |WithTestCaseRemoved(q, index).testCases| >= 1
  {
  }

  /** Removing the entry just added restores the question. */
  lemma {:induction false} RemoveUndoesAdd(q: Question)
    requires |q.testCases| >= 1
    ensures WithTestCaseRemoved(WithTestCaseAdded(q), |q.testCases|) == q
  {
    var s := WithTestCaseAdded(q).testCases;
    var n := |q.testCases|;
    assert s[..n] == q.testCases && s[n + 1..] == [];
    assert RemoveAt(s, n) == q.testCases;
  }

  /** `{ ...tc, [field]: value }` on one entry. */
  function SetCaseField(tc: TestCase, field: string, value: string): (r: TestCase)
    ensures field == "input" ==> r == tc.(input := value)
    ensures field == "output" ==> r == tc.(output := value)
    ensures field != "input" && field != "output" ==>
      r.input == tc.input && r.output == tc.output && r.extra == tc.extra[field := value]
  {
    if field == "input" then tc.(input := value)
    else if field == "output" then tc.(output := value)
    else tc.(extra := tc.extra[field := value])
  }

  /** `updateTestCase(index, field, value)`: the map touches only the entry at `index`. */
  function WithTestCaseUpdated(q: Question, index: int, field: string, value: string): (r: Question)
    ensures |r.testCases| == |q.testCases|
    ensures forall j :: 0 <= j < |q.testCases| && j != index ==> r.testCases[j] == q.testCases[j]
    ensures 0 <= index < |q.testCases| ==>
      r.testCases[index] == SetCaseField(q.testCases[index], field, value)
    ensures forall f :: FieldValue(r, f) == FieldValue(q, f)
  {
    if 0 <= index < |q.testCases| then
      q.(testCases := q.testCases[index := SetCaseField(q.testCases[index], field, value)])
    else q
  }

  /** Editing the same field of the same entry twice keeps only the second value. */
  lemma UpdateLastWins(q: Question, index: int, field: string, v: string, w: string)
    ensures WithTestCaseUpdated(WithTestCaseUpdated(q, index, field, v), index, field, w)
      == WithTestCaseUpdated(q, index, field, w)
  {
    if 0 <= index < |q.testCases| {
      var tc := q.testCases[index];
      assert SetCaseField(SetCaseField(tc, field, v), field, w) == SetCaseField(tc, field, w);
    }
  }

  /** The submit guard `!type || !title || !description`. */
  predicate HasRequiredFields(q: Question) {
    q.kind != "" && q.title != "" && q.description != ""
  }

  /** `submitData`: the question with each test case reduced to `input` and `output`. */
  function Payload(q: Question): (r: SubmitData)
    ensures |r.testCases| == |q.testCases|
    ensures forall j :: 0 <= j < |r.testCases| ==>
      r.testCases[j] == PayloadCase(q.testCases[j].input, q.testCases[j].output)
    ensures r.title == q.title && r.description == q.description && r.example == q.example
    ensures r.constraints == q.constraints && r.difficulty == q.difficulty && r.kind == q.kind
  {
    SubmitData(q.title, q.description, q.example, q.constraints, q.difficulty, q.kind,
      PayloadCases(q.testCases))
  }

  function PayloadCases(s: seq<TestCase>): (r: seq<PayloadCase>)
    ensures |r| == |s|
    ensures forall j :: 0 <= j < |s| ==> r[j] == PayloadCase(s[j].input, s[j].output)
  {
    if s == [] then [] else [PayloadCase(s[0].input, s[0].output)] + PayloadCases(s[1..])
  }

  /** Keys written into `extra` never reach the server. */
  lemma PayloadIgnoresExtra(q: Question, index: int, field: string, value: string)
    requires field != "input" && field != "output"
    ensures Payload(WithTestCaseUpdated(q, index, field, value)) == Payload(q)
  {
    var r := WithTestCaseUpdated(q, index, field, value);
    assert PayloadCases(r.testCases) == PayloadCases(q.testCases);
  }

  /** The editor state: the source's single `question` cell. */
  class NewProject {
    var question: Question

    /** Every reachable state has at least one test case. */
    predicate Valid()
      reads this
    {
      |question.testCases| >= 1
    }

    constructor ()
      ensures Valid() && question == InitialQuestion()
    {
      question := InitialQuestion();
    }

    method HandleInputChange(f: Field, value: string)
      requires Valid()
      modifies this
      ensures Valid() && question == WithField(old(question), f, value)
    {
      question := WithField(question, f, value);
    }

    /** The difficulty toggle's change handler. */
    method ToggleDifficulty(value: string)
      requires Valid()
      modifies this
      ensures Valid() && question == WithField(old(question), Difficulty, DifficultyChoice(value))
    {
      HandleInputChange(Difficulty, DifficultyChoice(value));
    }

    method AddTestCase()
      requires Valid()
      modifies this
      ensures Valid() && question == WithTestCaseAdded(old(question))
    {
      question := WithTestCaseAdded(question);
    }

    method RemoveTestCase(index: int)
      requires Valid()
      modifies this
      ensures Valid() && question == WithTestCaseRemoved(old(question), index)
    {
      question := WithTestCaseRemoved(question, index);
    }

    method UpdateTestCase(index: int, field: string, value: string)
      requires Valid()
      modifies this
      ensures Valid() && question == WithTestCaseUpdated(old(question), index, field, value)
    {
      question := WithTestCaseUpdated(question, index, field, value);
    }

    /** `onSubmit`: the guard, the request and its end. `posted` stands for the POST
        succeeding; `request` is the body sent, `None` when no request is made. */
    method OnSubmit(posted: bool) returns (request: Option<SubmitData>, alert: string)
      requires Valid()
      modifies this
      ensures Valid()
      ensures !HasRequiredFields(old(question)) ==>
        request == None && alert == RequiredFieldsAlert && question == old(question)
      ensures HasRequiredFields(old(question)) ==> request == Some(Payload(old(question)))
      ensures HasRequiredFields(old(question)) && posted ==>
        alert == AddedAlert && question == InitialQuestion()
      ensures HasRequiredFields(old(question)) && !posted ==>
        alert == FailedAlert && question == old(question)
    {
      if !HasRequiredFields(question) {
        return None, RequiredFieldsAlert;
      }
      request := Some(Payload(question));
      if posted {
        question := InitialQuestion();
        alert := AddedAlert;
      } else {
        alert := FailedAlert;
      }
    }
  }
}
