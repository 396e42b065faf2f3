/** How the JavaScript runner picks the function to call in the submitted code and
    which arguments it passes: `twoSum`, then `solution`, then `main`, then the first
    callable name found by scanning the code for declarations. */
module EntryPoint {
  import opened Results
  import opened JsValues

  /** What a name is bound to once the submitted code has run: a function with its
      number of declared parameters, some other value, or nothing `eval` can read: a
      matched word whose evaluation throws `error`, such as the reserved word `for`
      that the declaration pattern finds in the comment "// helper function for x". */
  datatype Binding =
    | FunctionBinding(paramCount: nat)
    | ValueBinding(value: Value)
    | EvalThrows(error: Thrown)

  /** A thrown value; `message` is its `message` property when that is a string. */
  datatype Thrown = Thrown(message: Option<string>)

  /** What calling a user function does: it returns a value, having logged some lines,
      or it throws. */
  datatype Outcome = Returned(value: Value, logs: seq<string>) | Threw(exception: Thrown)

  /** The submitted JavaScript, seen from the runner.
      `loadFailure`: what is thrown while the code is compiled and its top level runs;
      `setupLogs`: the lines its top level logs;
      `scope`: the names it declares and what they are bound to;
      `declared`: the names the declaration pattern of the runner matches in the code
      text, in source order;
      `invoke`: what calling one of its functions with some arguments does. */
  datatype Program = Program(
    loadFailure: Option<Thrown>,
    setupLogs: seq<string>,
    scope: map<string, Binding>,
    declared: seq<string>,
    invoke: (string, seq<Value>) -> Outcome)

  /** Which branch of the runner chose the call. */
  datatype Rule = TwoSumRule | SolutionRule | MainRule | ScanTwoSumRule | ScanListedRule | ScanArityRule

  /** The runner's decision: call `name` (bound to `binding`; `callee` is the name the
      call expression uses, which is what an engine error names) with `args`, or throw. */
  datatype Resolution =
    | Call(rule: Rule, name: string, callee: string, binding: Binding, args: seq<Value>)
    | Fail(exception: Thrown)

  /** The functions that take the input as their one argument, whatever it is. */
  const ListedNames: set<string> :=
    {"maxArea", "trap", "findPeak", "maxProfit", "removeElement", "removeDuplicates"}

  /** The answer `twoSum` sees when the input gives none. */
  const DefaultNums: Value := Arr([Num(2.0), Num(7.0), Num(11.0), Num(15.0)])
  const DefaultTarget: Value := Num(9.0)

  /** The test case's input as the runner passes it on: a string is decoded as JSON when
      it is valid JSON and kept as it is otherwise. */
  function ParseInput(h: Host, input: Value): (r: Value)
    ensures !input.Str? ==> r == input
    ensures input.Str? && h.jsonParse(input.s).Err? ==> r == input
  {
    match input
    case Str(s) =>
      (match h.jsonParse(s)
       case Ok(v) => v
       case Err(_) => input)
    case _ => input
  }

  /** `typeof name !== 'undefined'`; the three names it is asked about are identifiers,
      so they are never bound to `EvalThrows`. */
  predicate IsDefined(scope: map<string, Binding>, name: string) {
    name in scope
    && (scope[name].FunctionBinding? || (scope[name].ValueBinding? && !scope[name].value.Undefined?))
  }

  /** `typeof eval(name) === 'function'` for a name that is in scope. */
  predicate IsCallable(scope: map<string, Binding>, name: string) {
    name in scope && scope[name].FunctionBinding?
  }

  /** The two arguments `twoSum` receives. */
  function TwoSumArgs(parsed: Value): (r: seq<Value>)
    ensures |r| == 2
    ensures parsed.Arr? && |parsed.items| >= 2 ==> r == parsed.items[..2]
    ensures !parsed.Arr? || parsed.items == [] ==> r == [DefaultNums, DefaultTarget]
    ensures parsed.Arr? && |parsed.items| == 1 ==>
      if parsed.items[0].Arr? && |parsed.items[0].items| >= 2 then r == parsed.items[0].items[..2]
      else r == [parsed, DefaultTarget]
  {
    if parsed.Arr? && |parsed.items| >= 2 then [parsed.items[0], parsed.items[1]]
    else if parsed.Arr? && |parsed.items| == 1 then
      var nested := parsed.items[0];
      if nested.Arr? && |nested.items| >= 2 then [nested.items[0], nested.items[1]]
      else [parsed, DefaultTarget]
    else [DefaultNums, DefaultTarget]
  }

  /** The two arguments of the `twoSum` case inside the declaration scan. */
  function ScanTwoSumArgs(parsed: Value): (r: seq<Value>)
    ensures |r| == 2
    ensures parsed.Arr? && |parsed.items| >= 2 ==> r == parsed.items[..2]
    ensures !(parsed.Arr? && |parsed.items| >= 2) ==> r == [DefaultNums, DefaultTarget]
  {
    if parsed.Arr? && |parsed.items| >= 2 then [parsed.items[0], parsed.items[1]]
    else [DefaultNums, DefaultTarget]
  }

  /** The call shape chosen from the declared parameter count: one parameter and an array
      input pass the array; otherwise an array of more than one element is spread;
      anything else is passed as the one argument. */
  function ArityArgs(paramCount: nat, parsed: Value): (r: seq<Value>)
    ensures r == [parsed] || (parsed.Arr? && r == parsed.items)
    ensures paramCount == 1 && parsed.Arr? ==> r == [parsed]
    ensures r != [parsed] ==> paramCount != 1 && |r| > 1
  {
    if paramCount == 1 && parsed.Arr? then [parsed]
    else if parsed.Arr? && |parsed.items| > 1 then parsed.items
    else [parsed]
  }

  /** The number of parameters the runner reads off a binding; a value that is not a
      function shows an empty parameter list. */
  function ParamCount(b: Binding): nat {
    if b.FunctionBinding? then b.paramCount else 0
  }

  /** What the declaration scan does with `name` once it is known to be callable. */
  function ScanCall(scope: map<string, Binding>, name: string, parsed: Value): (r: Resolution)
    requires IsCallable(scope, name)
    ensures r.Call? && r.name == name && r.callee == "func" && r.binding == scope[name]
    ensures r.rule == ScanTwoSumRule <==> name == "twoSum"
    ensures name !in ListedNames && name != "twoSum" ==>
      r.args == ArityArgs(scope[name].paramCount, parsed)
  {
    var b := scope[name];
    if name == "twoSum" then Call(ScanTwoSumRule, name, "func", b, ScanTwoSumArgs(parsed))
    else if name in ListedNames then Call(ScanListedRule, name, "func", b, [parsed])
    else Call(ScanArityRule, name, "func", b, ArityArgs(b.paramCount, parsed))
  }

  /** The message of the error that ends the search when nothing is callable. */
  const NoFunctionMessage: string := "No executable function found. Please define a function."

  /** The declaration scan from position `k` on: names not in scope throw a
      ReferenceError, names whose evaluation throws end the scan with that error, names
      bound to something other than a function are passed over. */
  function Scan(p: Program, parsed: Value, k: nat): (r: Resolution)
    requires k <= |p.declared|
    decreases |p.declared| - k
  {
    if k == |p.declared| then Fail(Thrown(Some(NoFunctionMessage)))
    else
      var name := p.declared[k];
      if name == "" then Scan(p, parsed, k + 1)
      else if name !in p.scope then Fail(Thrown(Some(name + " is not defined")))
      else if p.scope[name].EvalThrows? then Fail(p.scope[name].error)
      else if IsCallable(p.scope, name) then ScanCall(p.scope, name, parsed)
      else Scan(p, parsed, k + 1)
  }

  /** The whole resolution, in the runner's priority order. */
  function Resolve(p: Program, parsed: Value): Resolution {
    if IsDefined(p.scope, "twoSum") then
      Call(TwoSumRule, "twoSum", "twoSum", p.scope["twoSum"], TwoSumArgs(parsed))
    else if IsDefined(p.scope, "solution") then
      var b := p.scope["solution"];
      Call(SolutionRule, "solution", "func", b, ArityArgs(ParamCount(b), parsed))
    else if IsDefined(p.scope, "main") then
      var b := p.scope["main"];
      Call(MainRule, "main", "func", b, ArityArgs(ParamCount(b), parsed))
    else Scan(p, parsed, 0)
  }

  /** The runner's loop over the matches of the declaration pattern, after the three
      named checks. */
  method ResolveEntryPoint(p: Program, parsed: Value) returns (r: Resolution)
    ensures r == Resolve(p, parsed)
  {
    if IsDefined(p.scope, "twoSum") {
      return Call(TwoSumRule, "twoSum", "twoSum", p.scope["twoSum"], TwoSumArgs(parsed));
    }
    if IsDefined(p.scope, "solution") {
      var b := p.scope["solution"];
      return Call(SolutionRule, "solution", "func", b, ArityArgs(ParamCount(b), parsed));
    }
    if IsDefined(p.scope, "main") {
      var b := p.scope["main"];
      return Call(MainRule, "main", "func", b, ArityArgs(ParamCount(b), parsed));
    }
    var k := 0;
    while k < |p.declared|
      invariant k <= |p.declared|
      invariant Scan(p, parsed, k) == Scan(p, parsed, 0)
      decreases |p.declared| - k
    {
      var name := p.declared[k];
      if name != "" {
        if name !in p.scope {
          return Fail(Thrown(Some(name + " is not defined")));
        }
        if p.scope[name].EvalThrows? {
          return Fail(p.scope[name].error);
        }
        if IsCallable(p.scope, name) {
          return ScanCall(p.scope, name, parsed);
        }
      }
      k := k + 1;
    }
    return Fail(Thrown(Some(NoFunctionMessage)));
  }

  /** A name the scan passes over. */
  predicate PassedOver(scope: map<string, Binding>, name: string) {
    name == "" || (name in scope && !IsCallable(scope, name) && !scope[name].EvalThrows?)
  }

  /** The scan calls the first callable declared name when every name before it is passed
      over. */
  lemma {:induction false} ScanPicksFirstCallable(p: Program, parsed: Value, k: nat, j: nat)
    requires k <= j < |p.declared|
    requires forall i :: k <= i < j ==> PassedOver(p.scope, p.declared[i])
    requires p.declared[j] != "" && IsCallable(p.scope, p.declared[j])
    ensures Scan(p, parsed, k) == ScanCall(p.scope, p.declared[j], parsed)
    decreases j - k
  {
    if k < j {
      ScanPicksFirstCallable(p, parsed, k + 1, j);
    }
  }

  /** The scan throws "<name> is not defined" at the first declared name that is not in
      scope, when every name before it is passed over. */
  lemma {:induction false} ScanStopsAtUndefinedName(p: Program, parsed: Value, k: nat, j: nat)
    requires k <= j < |p.declared|
    requires forall i :: k <= i < j ==> PassedOver(p.scope, p.declared[i])
    requires p.declared[j] != "" && p.declared[j] !in p.scope
    ensures Scan(p, parsed, k) == Fail(Thrown(Some(p.declared[j] + " is not defined")))
    decreases j - k
  {
    if k < j {
      ScanStopsAtUndefinedName(p, parsed, k + 1, j);
    }
  }

  /** The scan throws what evaluating a matched name throws, at the first such name,
      when every name before it is passed over: a reserved word matched inside a comment
      ends the search with the engine's syntax error. */
  lemma {:induction false} ScanStopsAtThrowingName(p: Program, parsed: Value, k: nat, j: nat)
    requires k <= j < |p.declared|
    requires forall i :: k <= i < j ==> PassedOver(p.scope, p.declared[i])
    requires p.declared[j] != "" && p.declared[j] in p.scope && p.scope[p.declared[j]].EvalThrows?
    ensures Scan(p, parsed, k) == Fail(p.scope[p.declared[j]].error)
    decreases j - k
  {
    if k < j {
      ScanStopsAtThrowingName(p, parsed, k + 1, j);
    }
  }

  /** With nothing callable the error is "No executable function found". */
  lemma {:induction false} ScanFindsNothing(p: Program, parsed: Value, k: nat)
    requires k <= |p.declared|
    requires forall i :: k <= i < |p.declared| ==> PassedOver(p.scope, p.declared[i])
    ensures Scan(p, parsed, k) == Fail(Thrown(Some(NoFunctionMessage)))
    decreases |p.declared| - k
  {
    if k < |p.declared| {
      ScanFindsNothing(p, parsed, k + 1);
    }
  }

  /** Whatever the scan decides is either a call of a callable declared name or a thrown
      error. */
  lemma {:induction false} ScanResultShape(p: Program, parsed: Value, k: nat)
    requires k <= |p.declared|
    ensures var r := Scan(p, parsed, k);
      r.Call? ==> r.name in p.declared[k..] && IsCallable(p.scope, r.name)
                  && r == ScanCall(p.scope, r.name, parsed)
    decreases |p.declared| - k
  {
    if k < |p.declared| {
      ScanResultShape(p, parsed, k + 1);
      assert p.declared[k + 1..] == p.declared[k..][1..];
    }
  }

  /** The `twoSum` case inside the scan never applies: a callable `twoSum` is taken by the
      first check. */
  lemma ScanTwoSumUnreachable(p: Program, parsed: Value)
    ensures Resolve(p, parsed).Call? ==> Resolve(p, parsed).rule != ScanTwoSumRule
  {
    if !IsDefined(p.scope, "twoSum") && !IsDefined(p.scope, "solution")
       && !IsDefined(p.scope, "main") {
      ScanResultShape(p, parsed, 0);
    }
  }

  /** A defined `twoSum` is always preferred, then `solution`, then `main`. */
  lemma Priority(p: Program, parsed: Value)
    ensures IsDefined(p.scope, "twoSum") ==> Resolve(p, parsed).name == "twoSum"
    ensures !IsDefined(p.scope, "twoSum") && IsDefined(p.scope, "solution") ==>
      Resolve(p, parsed).name == "solution"
    ensures (!IsDefined(p.scope, "twoSum") && !IsDefined(p.scope, "solution")
             && IsDefined(p.scope, "main")) ==> Resolve(p, parsed).name == "main"
  {
  }

  /** The functions of the name list get the input as their only argument, provided no
      earlier check or declared name comes first. */
  lemma ListedNameGetsWholeInput(p: Program, parsed: Value, j: nat)
    requires !IsDefined(p.scope, "twoSum") && !IsDefined(p.scope, "solution")
    requires !IsDefined(p.scope, "main")
    requires j < |p.declared| && p.declared[j] in ListedNames
    requires IsCallable(p.scope, p.declared[j])
    requires forall i :: 0 <= i < j ==> PassedOver(p.scope, p.declared[i])
    ensures Resolve(p, parsed).Call? && Resolve(p, parsed).args == [parsed]
  {
    ScanPicksFirstCallable(p, parsed, 0, j);
  }
}
