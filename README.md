# Algoflow front end: the verified core

Algoflow is a web front end for practising coding questions. This project models its
core:

- **The code-execution service.** It validates submitted code and runs it against the
  question's test cases. It compares each answer with the expected one and gathers the
  results of a run.
- **The coding page** that drives a run: running the tests, the run summary, the
  submission rule and the language switch.
- **Its test-case panel**, its custom-test-case drawer and its AI-help sidebar.
- **The dashboard's question table**: search, pagination, completion marks and
  difficulty badges.
- **The admin form** that adds a question.
- **The signup form**, with its password-strength meter and submission lock.

Pure logic is modelled as functions over datatypes, with lemmas about them:

- JavaScript values;
- comparison;
- validation;
- entry-point resolution;
- the text formatting of the AI-help sidebar.

Components that hold state are modelled as classes. Their fields are the component's
state cells and their methods are its handlers. Each handler's `ensures` states the
whole new state in terms of the specification functions.

Places where the runner loops step by step are methods with loops, proved equal to a
function:

- `executeCode`'s loop over the test cases;
- the JavaScript runner's scan for a declared function.

Some things are parameters because the model cannot see them:

- `Host` stands for the runtime services `JSON.parse`, `JSON.stringify` and the decimal
  text of a non-integer number.
- `Program` stands for what the submitted JavaScript does when it is compiled and
  called.
- `elapsed` and `randomTime` stand for clock and random readings.
- `posted`, `Response` and `Reply` stand for how network requests end.

Modules, one per file:

- `Results` (`results.dfy`): `Option` and `Result`.
- `Text` (`text.dfy`): the string built-ins the application uses.
- `JsValues` (`values.dfy`): JavaScript values, `typeof`, truthiness, `String(v)`.
- `Validator` (`validator.dfy`): `validateCode`.
- `Comparator` (`comparator.dfy`): `compareResults`.
- `EntryPoint` (`entry_point.dfy`): which user function the JavaScript runner calls,
  with which arguments.
- `Execution` (`execution.dfy`): `executeJavaScript`, `simulatePython`,
  `simulateOtherLanguages` and `executeCode`.
- `CodeEditor` (`code_editor.dfy`): the coding page (`index.jsx`).
- `TestCasePanel` (`test_case_panel.dfy`): `TestCasePanel.jsx`.
- `ResultDrawer` (`result_drawer.dfy`): the custom test cases of `ResultDrawer.jsx`.
- `AiHelp` (`ai_help.dfy`): `AIHelpSidebar.jsx`.
- `QuestionTable` (`question_table.dfy`): `data-table.jsx`.
- `QuestionForm` (`question_form.dfy`): `newProject.jsx`.
- `Signup` (`signup.dfy`): `signup-form.jsx`.

Where the code and its documentation disagree, the model follows the code:

- The arity rule of the entry-point call (`ArityArgs`) is as written. An array input is
  passed whole to a one-parameter function. Otherwise an array of more than one element
  is spread.
- A `null` or `undefined` test case ends the whole batch with an error; it is not
  recorded as a failed case. Recording the failed case reads `testCase.expected`, and
  that read throws out of the loop.
- The rewording of "Cannot read property" errors never applies to the messages of
  current engines, which say "Cannot read properties". The model keeps the test as
  written.
- `executeJavaScript` compiles the submitted code inside its inner `try`. A syntax error is therefore reported as "Execution error: ...", like any other thrown error. The outer handler, which would report "Code compilation error: ...", is reached only when the rewording itself throws, for a thrown value without a `message`. That handler then names `originalLog`, which is out of its scope, so the run fails with "originalLog is not defined" (`JsFailure`).
- In the object branch of the comparison, an array can match a plain object with the
  same index keys.

## Model

| member | source | states |
|---|---|---|
| Text.Trim | src/dashboard/code/services/codeExecutionService.js:402 | `trim` cuts the text at its first position that is not white space and keeps everything up to the last one. The text before the result and the text after it are all white space. The result begins and ends with a non-space, and it is empty exactly when the text is all white space. |
| Text.Join | src/dashboard/code/services/codeExecutionService.js:256 | `join` of no parts is empty, and of one part is that part. Otherwise it starts with the first part. `JoinAppend` states where the separators go. |
| Text.JoinAppend | src/dashboard/code/services/codeExecutionService.js:256 | Joining two non-empty lists gives the join of the first list, one separator, then the join of the second. |
| Text.Lower | src/dashboard/components/data-table.jsx:45 | `toLowerCase` maps every character to its lower-case form and keeps the length. |
| Text.Upper | src/dashboard/components/data-table.jsx:101 | `toUpperCase` maps every character to its upper-case form and keeps the length. |
| Text.Slice | src/dashboard/code/components/AIHelpSidebar.jsx:23 | `slice` with in-range bounds is the subsequence between them. It is never longer than the input. |
| Text.StartsWith | src/dashboard/code/components/AIHelpSidebar.jsx:10 | `startsWith`: the text begins with the given prefix. `StartsWithConcat` states that a text begins with any of its prefixes. |
| Text.EndsWith | src/dashboard/code/components/AIHelpSidebar.jsx:20 | `endsWith`: the text ends with the given suffix. |
| Text.Contains | src/dashboard/code/services/codeExecutionService.js:290 | `includes`: the text starts with the other one, or its tail includes it. `ContainsAt` states the positional reading. |
| Text.ContainsAt | src/dashboard/code/services/codeExecutionService.js:290 | A text includes another exactly when that other occurs at some position in it. |
| Text.IndexOf | src/dashboard/code/services/codeExecutionService.js:407 | The search the lazy block-comment pattern makes for its closer: the first position at or after the start where the closer occurs, with no occurrence before it, or none when there is no occurrence at all. |
| Text.NatText | src/dashboard/code/index.jsx:96 | The decimal text of a count is non-empty and all digits. Its digits read back give the count (`DigitsValue`). A positive count has no leading zero, and the text is one digit long exactly for counts below 10. |
| JsValues.TypeOf | src/dashboard/code/services/codeExecutionService.js:371 | `typeof` is "object" exactly for null, arrays and objects, and "undefined" exactly for undefined. |
| JsValues.Prop | src/dashboard/code/services/codeExecutionService.js:39-40 | Reading a property missing from an object, or any property of a non-object, gives undefined. |
| JsValues.ToJsString | src/dashboard/code/services/codeExecutionService.js:398 | `String` of a one-element array is the text of its element when that is neither null nor undefined, and of an empty array the empty text. |
| JsValues.JsonText | src/dashboard/code/services/codeExecutionService.js:297 | A template literal writes `JSON.stringify(undefined)` as the word "undefined". |
| JsValues.IsNullish | src/dashboard/code/services/codeExecutionService.js:356-357 | The value is `null` or `undefined`. |
| JsValues.ReadError | src/dashboard/code/services/codeExecutionService.js:287 | The TypeError message of reading a property of `null` or `undefined`, naming which one and the property. |
| JsValues.Truthy | src/dashboard/code/index.jsx:103-105 | JavaScript truthiness: undefined, null, false, 0 and the empty text are falsy, and every other value is truthy. |
| JsValues.NumberText | src/dashboard/code/services/codeExecutionService.js:398 | `String` of a number: the decimal text of an integer below 1e21 (`IntText`), otherwise the host's text. |
| Validator.StripBlockComments | src/dashboard/code/services/codeExecutionService.js:407 | Removing block comments never lengthens the code. Code without a block-comment opener is unchanged. |
| Validator.BlockCommentRemoved | src/dashboard/code/services/codeExecutionService.js:407 | A closed block comment at the front goes up to and including its first closer. The rest of the text is then cleaned the same way. |
| Validator.BlockCommentOnlyRejected | src/dashboard/code/services/codeExecutionService.js:407-414 | Code that is one closed block comment is rejected as too short or comments only, however long the comment is. |
| Validator.Clean | src/dashboard/code/services/codeExecutionService.js:407-410 | The text the keyword checks read: block comments removed, then line comments, then white space collapsed and trimmed. `CleanShape` states its shape. |
| Validator.StripLineComments | src/dashboard/code/services/codeExecutionService.js:408 | Removing line comments never lengthens the code. Code without `//` is unchanged. Code that does not start with `//` keeps its first character. |
| Validator.CollapseSpaces | src/dashboard/code/services/codeExecutionService.js:409 | After the white-space replace, white space occurs only as single plain spaces. The first character is kept or becomes a space. |
| Validator.Validate | src/dashboard/code/services/codeExecutionService.js:401-463 | Blank code is rejected as empty. Accepted code is non-blank with at least 10 cleaned characters. |
| Validator.NoLineCommentRemains | src/dashboard/code/services/codeExecutionService.js:408 | No `//` survives line-comment removal. |
| Validator.CollapsePreservesNoSlashes | src/dashboard/code/services/codeExecutionService.js:409 | Collapsing white space creates no `//`. |
| Validator.CleanShape | src/dashboard/code/services/codeExecutionService.js:407-410 | The cleaned code has no line comment and no white space other than single spaces. It has no white space at either end. |
| Validator.CommentOnlyRejected | src/dashboard/code/services/codeExecutionService.js:412-414 | Code that is one line comment without a block-comment opener, of any length, is rejected as too short or only comments. |
| Validator.LineCommentCleansAway | src/dashboard/code/services/codeExecutionService.js:407-410 | A single line comment cleans to the empty text although the code itself is not blank. |
| Validator.JavaScriptRule | src/dashboard/code/services/codeExecutionService.js:417-426 | JavaScript and TypeScript code, once past the length checks, is accepted exactly when it has `function` or `=`, and when `function` also comes with `return` or `=>`. |
| Validator.OtherLanguageRule | src/dashboard/code/services/codeExecutionService.js:455-459 | A language without its own rule is accepted exactly for non-blank code with 20 cleaned characters. Between 10 and 19 it gets the "code appears incomplete" message. |
| Comparator.Compare | src/dashboard/code/services/codeExecutionService.js:354-399 | When either side is null or undefined, the two values match exactly when both are. The other branches are stated by the lemmas that follow. |
| Comparator.CompareReflexive | src/dashboard/code/services/codeExecutionService.js:354-399 | Every value matches itself. |
| Comparator.CompareSymmetric | src/dashboard/code/services/codeExecutionService.js:354-399 | Matching does not depend on which side is the answer. |
| Comparator.NullishMatchesOnlyNullish | src/dashboard/code/services/codeExecutionService.js:356-362 | When either side is null or undefined, the two match exactly when both are. |
| Comparator.OrderMatters | src/dashboard/code/services/codeExecutionService.js:365-368 | Arrays compare position by position: [1, 2] does not match [2, 1]. |
| Comparator.ToleranceIsNotTransitive | src/dashboard/code/services/codeExecutionService.js:382-385 | Numbers within 1e-9 match, and this matching is not transitive. |
| Comparator.NumberMatchesItsText | src/dashboard/code/services/codeExecutionService.js:398 | Through the text fallback the number 6 matches the string "6". |
| Comparator.SingletonMatchesElement | src/dashboard/code/services/codeExecutionService.js:398 | Through the text fallback [5] matches 5. |
| Comparator.ArrayMatchesIndexedObject | src/dashboard/code/services/codeExecutionService.js:371-379 | In the object branch [5] matches {"0": 5}. |
| Comparator.StringsIgnoreSurroundingSpace | src/dashboard/code/services/codeExecutionService.js:388-390 | Strings that agree after trimming match. |
| EntryPoint.IsDefined | src/dashboard/code/services/codeExecutionService.js:130 | `typeof name !== 'undefined'`: the name is bound to a function or to a value other than undefined. |
| EntryPoint.IsCallable | src/dashboard/code/services/codeExecutionService.js:194 | `typeof eval(name) === 'function'` for a name in scope: it is bound to a function. |
| EntryPoint.ParamCount | src/dashboard/code/services/codeExecutionService.js:159-162 | The parameter count read off a function; a value that is not a function shows none. |
| EntryPoint.ParseInput | src/dashboard/code/services/codeExecutionService.js:117-124 | A non-string input is passed on unchanged, and so is a string that is not valid JSON. |
| EntryPoint.TwoSumArgs | src/dashboard/code/services/codeExecutionService.js:130-154 | `twoSum` always gets two arguments. An array of two or more gives its first two elements. A one-element array gives the first two of its nested array, or else itself and 9. Any other input gives the defaults [2, 7, 11, 15] and 9. |
| EntryPoint.ScanTwoSumArgs | src/dashboard/code/services/codeExecutionService.js:198-208 | The `twoSum` case inside the scan passes the first two elements of an array of two or more, and otherwise the defaults. |
| EntryPoint.ArityArgs | src/dashboard/code/services/codeExecutionService.js:225-231 | The input is passed whole or, when it is an array, spread. A one-parameter function with an array input gets it whole. A spread has more than one element. |
| EntryPoint.ScanCall | src/dashboard/code/services/codeExecutionService.js:194-231 | A callable scanned name is called through `func`, with its own binding. The scan's `twoSum` rule is used exactly for `twoSum`. Names outside the special list get the arity-based arguments. |
| EntryPoint.Scan | src/dashboard/code/services/codeExecutionService.js:188-235 | The declaration scan: a name not in scope throws "<name> is not defined", a name whose evaluation throws ends the scan with that error, a callable name is called, anything else is passed over. The lemmas below state what it decides. |
| EntryPoint.Resolve | src/dashboard/code/services/codeExecutionService.js:129-235 | The runner's order: `twoSum`, `solution`, `main`, then the scan. `Priority` and `ScanTwoSumUnreachable` state it. |
| EntryPoint.ResolveEntryPoint | src/dashboard/code/services/codeExecutionService.js:129-235 | The loop over the declaration pattern's matches decides as the recursive resolution `Resolve` does: `twoSum`, `solution`, `main`, then the scan. |
| EntryPoint.ScanPicksFirstCallable | src/dashboard/code/services/codeExecutionService.js:192-195 | The scan calls the first callable declared name when every earlier name is passed over. |
| EntryPoint.ScanStopsAtUndefinedName | src/dashboard/code/services/codeExecutionService.js:194 | The scan throws "<name> is not defined" at the first declared name not in scope. |
| EntryPoint.ScanStopsAtThrowingName | src/dashboard/code/services/codeExecutionService.js:192-194 | The scan ends with what evaluating a matched name throws, at the first such name, when every name before it is passed over. An example is the syntax error for a reserved word that the pattern matched inside a comment. |
| EntryPoint.ScanFindsNothing | src/dashboard/code/services/codeExecutionService.js:235 | With nothing callable the error is "No executable function found. Please define a function." |
| EntryPoint.ScanResultShape | src/dashboard/code/services/codeExecutionService.js:192-233 | A call chosen by the scan is of a callable name declared at or after the scan's position. |
| EntryPoint.ScanTwoSumUnreachable | src/dashboard/code/services/codeExecutionService.js:198-208 | The scan's own `twoSum` case never decides a call, since a defined `twoSum` is taken first. |
| EntryPoint.Priority | src/dashboard/code/services/codeExecutionService.js:130-187 | A defined `twoSum` is called first, then `solution`, then `main`. |
| EntryPoint.ListedNameGetsWholeInput | src/dashboard/code/services/codeExecutionService.js:211-215 | `maxArea`, `trap`, `findPeak`, `maxProfit`, `removeElement` and `removeDuplicates` found by the scan receive the whole input as their one argument. |
| Execution.FriendlyMessage | src/dashboard/code/services/codeExecutionService.js:264-269 | "is not defined" errors become the function-not-found message. Otherwise "Cannot read property" errors become the input-access message. Anything else is kept. |
| Execution.JsFailure | src/dashboard/code/services/codeExecutionService.js:271 | A thrown value with a message is reported as "Execution error: ..." with the reworded message. |
| Execution.NotCallable | src/dashboard/code/services/codeExecutionService.js:153-186 | Calling a resolved name that is not bound to a function throws an error with a message, which surfaces as an "Execution error: ..." failure. Under its own name the message is "<name> is not a function". |
| Execution.PreludeLogs | src/dashboard/code/services/codeExecutionService.js:91-110 | The runner's own captured lines before the call: four, or five for a string input. They begin with the test case and end with the code. |
| Execution.ResultLogs | src/dashboard/code/services/codeExecutionService.js:247-249 | After the call the runner logs the result and, twice, its type. |
| Execution.RunJavaScript | src/dashboard/code/services/codeExecutionService.js:79-279 | A null or undefined test case fails with the error of reading its `input`, and code that fails to load fails with the load error. A success needs a non-null case, loaded code and a resolved call, and its log starts with the runner's first line. Every failure reads "Execution error: ..." or, for a thrown value without a message, "originalLog is not defined". |
| Execution.ExecuteJavaScript | src/dashboard/code/services/codeExecutionService.js:79-279 | The step-by-step runner, with the scanning loop, gives exactly `RunJavaScript`. |
| Execution.SimulatePython | src/dashboard/code/services/codeExecutionService.js:281-309 | The simulated Python run succeeds exactly when the code has `def `, the case is neither null nor undefined, its input is not undefined, and the code has `return` and a logic keyword. It then answers with the expected value. Every failure is prefixed "Python execution error: ". Code without `def ` gives the no-definition message, and a null or undefined case gives the TypeError of reading its `input`. |
| Execution.HasLogicKeyword | src/dashboard/code/services/codeExecutionService.js:291 | The regex test `/if\|for\|while\|elif/` finds one of `if`, `for`, `while` or `elif`. |
| Execution.PythonLooksComplete | src/dashboard/code/services/codeExecutionService.js:290-293 | The Python structure check: the code includes `return` and a logic keyword. `SimulatePython` succeeds exactly when it holds, together with the `def ` and input conditions. |
| Execution.SimulateOther | src/dashboard/code/services/codeExecutionService.js:311-350 | The simulated run succeeds exactly when the language's structure check holds and the case is neither null nor undefined. It then answers with the expected value. A failed structure check gives "<language> execution error: <language> code structure appears incomplete". A null or undefined case with valid structure gives the TypeError of reading its `expected`. |
| Execution.HasValidStructure | src/dashboard/code/services/codeExecutionService.js:318-339 | The per-language structure check: Java needs `public`, `class` and `return`; C++ needs `#include` and `main` or `return`; C# needs `using`, `public` and `return`; Go needs `package main` and `func`; Rust needs `fn ` and `main` or `return`; any other language needs a trimmed length above 10. `SimulateOther` succeeds exactly when it holds and the case is not nullish. |
| Execution.RunOne | src/dashboard/code/services/codeExecutionService.js:18-30 | The run of one case on the language's path. A null or undefined case fails on every path, and a successful simulated run answers with the expected value. |
| Execution.CaseOf | src/dashboard/code/services/codeExecutionService.js:35-59 | A result records its index, the expected value and the input. A failed run records no answer (null), no output and the error message. A successful run records its answer and logs, and passes exactly when the answer matches. |
| Execution.RunCase | src/dashboard/code/services/codeExecutionService.js:12-59 | The result recorded for the case at a position. `ResultShape` and `SimulatedPassIff` state what it holds. |
| Execution.CountPassed | src/dashboard/code/services/codeExecutionService.js:67 | The passed count is at most the total. It equals the total exactly when every result passed, and is 0 exactly when none did. |
| Execution.FirstNullish | src/dashboard/code/services/codeExecutionService.js:54 | The position of the first null or undefined test case, and none exactly when there is no such case. |
| Execution.NullishCaseMessage | src/dashboard/code/services/codeExecutionService.js:39 | The message of the TypeError thrown by reading `expected` from a null or undefined case. |
| Execution.CaseResults | src/dashboard/code/services/codeExecutionService.js:8-61 | One result per test case. |
| Execution.Batch | src/dashboard/code/services/codeExecutionService.js:3-77 | A completed batch has one result per visited case, `totalTests` is the value `testCases.length` read, and at most as many cases passed as were visited. `BatchShape` states the rest. |
| Execution.BatchShape | src/dashboard/code/services/codeExecutionService.js:3-77 | The batch fails exactly when some case is null or undefined, with the error of the first one. Otherwise it holds one result per case, in order, each with its own index and run, and counts the passed ones. |
| Execution.BatchStopsAt | src/dashboard/code/services/codeExecutionService.js:46-59 | The first null or undefined case ends the batch with the error of reading its `expected`. |
| Execution.BatchCompletes | src/dashboard/code/services/codeExecutionService.js:63-68 | Without null or undefined cases the batch reports its results, `testCases.length` as the total, and the passed count. |
| Execution.ExecuteCase | src/dashboard/code/services/codeExecutionService.js:12-59 | The loop body runs the case on the language's path and records exactly `RunCase`. |
| Execution.ExecuteCode | src/dashboard/code/services/codeExecutionService.js:3-77 | The loop of `executeCode` gives exactly `Batch`. |
| Execution.ResultShape | src/dashboard/code/services/codeExecutionService.js:35-59 | Each result carries its position. A result with an error failed, with a null answer and empty output. The error is absent exactly when the run succeeded. |
| Execution.SimulatedPassIff | src/dashboard/code/services/codeExecutionService.js:22-30 | On the simulated paths a case passes exactly when it is neither null nor undefined and the structure checks pass. For Python it must also have an input. |
| CodeEditor.CaseList | src/dashboard/code/services/codeExecutionService.js:8-9 | The cases the loop visits. An array gives its elements, a string one entry per character, and an object as many entries as its `length` denotes (the ceiling of a positive number), read under the keys "0", "1", .... A number or a boolean gives none. Reading the length of null or undefined is the only failure. |
| CodeEditor.LoopCount | src/dashboard/code/services/codeExecutionService.js:8 | How many times `i < length` holds for i = 0, 1, ...: none for NaN or a length of at most 0, otherwise the ceiling of the length. |
| CodeEditor.ObjectWithLengthRuns | src/dashboard/code/services/codeExecutionService.js:8-9 | An object with `length` 1 and an entry under "0" runs as a one-case list. |
| JsValues.LengthOf | src/dashboard/code/services/codeExecutionService.js:65 | `v.length` of a value that is not null or undefined: the element count of an array, the character count of a text, an object's own `length` property, and undefined for a number or a boolean. |
| JsValues.NumberOf | src/dashboard/code/services/codeExecutionService.js:8 | The number `<` converts a value to: a number is itself; undefined and plain objects are NaN; null and the booleans are 0 exactly when falsy; a string, and an array through its text, are read by the host. |
| CodeEditor.CaseCountIsLength | src/dashboard/code/services/codeExecutionService.js:8 | For stored cases that are neither null nor undefined, the loop visits as many cases as `testCases.length` asks for, read as a number. For an array or a text that count is exactly the `totalTests` the batch reports. |
| CodeEditor.TestCasesOf | src/dashboard/code/index.jsx:61-63 | Stored text is decoded with `JSON.parse`, and its failure is the error. Anything else is read as a list directly. |
| CodeEditor.ReadyToRun | src/dashboard/code/index.jsx:50 | The guard of `handleRunTests`: a question is loaded and it has test cases. |
| CodeEditor.StoredTextIsDecoded | src/dashboard/code/index.jsx:61-63 | Test cases stored as JSON text of an array run as that array's elements. |
| CodeEditor.FailedCount | src/dashboard/code/index.jsx:110 | Failed plus passed is the total. No failures exactly when all passed. |
| CodeEditor.AverageTime | src/dashboard/code/index.jsx:92 | The average time is non-negative, and 0 without results. |
| CodeEditor.TotalTime | src/dashboard/code/index.jsx:92 | The sum of the execution times. `TotalTimeBounded` bounds it. |
| CodeEditor.AverageBounded | src/dashboard/code/index.jsx:92 | The average never exceeds a bound that every case's time respects. |
| CodeEditor.TotalTimeBounded | src/dashboard/code/index.jsx:92 | The total time is at most the count times such a bound. |
| CodeEditor.Status | src/dashboard/code/index.jsx:100 | "All Tests Passed" exactly when there are results and all passed. "Some Tests Failed" exactly when one failed. "No Tests Available" exactly when there are none. |
| CodeEditor.DisplayValue | src/dashboard/code/index.jsx:103-105 | Objects are shown as JSON. Other truthy values are shown as they are, and falsy ones as "N/A". A non-object is always shown as something truthy. |
| CodeEditor.FalsyScalarsShowAsNA | src/dashboard/code/index.jsx:103-105 | 0, "", false and undefined show as "N/A", while null goes through `JSON.stringify`. |
| CodeEditor.ShownOf | src/dashboard/code/index.jsx:101-107 | A row keeps the verdict and shows each value with `DisplayValue`. A recorded non-zero time is kept. |
| CodeEditor.ShownAll | src/dashboard/code/index.jsx:101-107 | One row per result, in order. |
| CodeEditor.RunOutput | src/dashboard/code/index.jsx:95-97 | Without results the text is "Code executed but no test cases were provided.". Otherwise it starts "Execution completed successfully!". |
| CodeEditor.Report | src/dashboard/code/index.jsx:94-111 | The run summary: totals, passed count, failed count adding up, status, average time, rows and text. |
| CodeEditor.Decide | src/dashboard/code/index.jsx:153-189 | A submission is accepted exactly when there are results and all passed, and then shows "Submission Accepted" with the rows. With no results the alert is the no-test-cases message. Otherwise the alert names the failed count. |
| CodeEditor.SubmittedOutput | src/dashboard/code/index.jsx:166 | The summary of an accepted submission, with the number of cases in decimal. |
| CodeEditor.AcceptedIffAllPassed | src/dashboard/code/index.jsx:160 | A submission is accepted exactly when a run of the same results reports "All Tests Passed". |
| CodeEditor.RunTests | src/dashboard/code/index.jsx:58-76 | The outcome of a run: a validation failure or a failure to decode the stored cases gives its message and no results, and any error comes with no results. |
| CodeEditor.BatchOutcome | src/dashboard/code/index.jsx:65-73 | After valid code and readable test cases, there is no error exactly when no case is null or undefined. Then there is one result per case, in order. Otherwise there are no results and the first such case's error. |
| CodeEditor.InvalidCodeNeverRuns | src/dashboard/code/index.jsx:59 | Rejected code never reaches the test cases, and its message is the error. |
| CodeEditor.ResultsExcludeError | src/dashboard/code/index.jsx:67-76 | There are results or an error, never both. |
| CodeEditor.TryRun | src/dashboard/code/index.jsx:58-76 | The try/catch of `handleRunTests` keeps exactly the outcome `RunTests` defines. |
| CodeEditor.Editor.constructor | src/dashboard/code/index.jsx:18-31 | The page starts with no question, the starter code, JavaScript, no results, not running and no error. |
| CodeEditor.Editor.SetQuestion | src/dashboard/code/index.jsx:41 | The fetched question is stored, and nothing else changes. |
| CodeEditor.Editor.SetCode | src/dashboard/code/index.jsx:252 | The editor text is replaced, and nothing else changes. |
| CodeEditor.Editor.HandleLanguageChange | src/dashboard/code/index.jsx:191-194 | The new language is set and the results are cleared. |
| CodeEditor.Editor.HandleRunTests | src/dashboard/code/index.jsx:49-80 | Without a question or test cases nothing changes. Otherwise the results and error are the outcome of `RunTests`, and running ends. |
| CodeEditor.Editor.Finish | src/dashboard/code/index.jsx:77-79 | What the try/catch kept is stored, and the running flag goes down. |
| TestCasePanel.StoredCases | src/dashboard/code/components/TestCasePanel.jsx:7 | The panel reads the question's test cases or, when those are falsy, the empty list. |
| TestCasePanel.ParsedTestCases | src/dashboard/code/components/TestCasePanel.jsx:8-10 | Text is parsed as JSON, an array is kept, and anything else becomes the empty array. |
| TestCasePanel.MissingCasesAreEmpty | src/dashboard/code/components/TestCasePanel.jsx:10 | A question whose test cases are neither text nor an array shows the empty list. |
| TestCasePanel.CaseView | src/dashboard/code/components/TestCasePanel.jsx:63-70 | Cards are listed exactly for a non-empty array, one per entry. An empty array shows the placeholder. |
| TestCasePanel.FindByIndex | src/dashboard/code/components/TestCasePanel.jsx:71 | `find` gives the first result carrying the index, and nothing exactly when none carries it. |
| TestCasePanel.CaseStatus | src/dashboard/code/components/TestCasePanel.jsx:72 | A card is pending exactly when no result carries its index. Otherwise it is passed exactly when the found result passed. |
| TestCasePanel.StatusOfRecordedRun | src/dashboard/code/components/TestCasePanel.jsx:71-72 | When each result sits at its own index, card i shows result i's verdict; later cards are pending. |
| TestCasePanel.StatusAfterBatch | src/dashboard/code/components/TestCasePanel.jsx:71-72 | After a completed batch every card shows the verdict of its own case. |
| TestCasePanel.ClearedResultsArePending | src/dashboard/code/components/TestCasePanel.jsx:72 | With no results every card is pending. |
| TestCasePanel.CardOf | src/dashboard/code/components/TestCasePanel.jsx:70-126 | A null or undefined entry crashes the card. Otherwise the card shows the status, and the Input and Expected rows exactly when those fields are truthy. It shows an Output row exactly when a result was found with a defined answer. |
| TestCasePanel.FailedRunShowsNull | src/dashboard/code/components/TestCasePanel.jsx:117-126 | A failed run still shows an Output row, holding null. |
| TestCasePanel.OutputLines | src/dashboard/code/components/TestCasePanel.jsx:141-153 | One group per result is numbered from 1 with its verdict. It shows the output exactly when that is non-empty, and the error exactly when that is a non-empty message. |
| TestCasePanel.PassedLine | src/dashboard/code/components/TestCasePanel.jsx:139-156 | The closing line is shown exactly when there are results. |
| TestCasePanel.PassedLineMatchesBatch | src/dashboard/code/components/TestCasePanel.jsx:156 | After a completed batch over an array, the batch's `totalTests` is the array's length. The closing line repeats the batch's passed count and that total. |
| ResultDrawer.AddEnabled | src/dashboard/code/components/ResultDrawer.jsx:236 | The Add button is enabled when neither field is white space only. |
| ResultDrawer.BlankDraftDisabled | src/dashboard/code/components/ResultDrawer.jsx:236 | A draft whose input is white space only cannot be added. |
| ResultDrawer.CaseOf | src/dashboard/code/components/ResultDrawer.jsx:30-34 | The added case keeps the draft's fields, takes the clock reading as id, and is marked custom. |
| ResultDrawer.WithoutId | src/dashboard/code/components/ResultDrawer.jsx:41 | Removal keeps exactly the cases with another id and never lengthens the list. |
| ResultDrawer.WithoutIdConcat | src/dashboard/code/components/ResultDrawer.jsx:41 | Removal works piece by piece, so kept cases stay in order. |
| ResultDrawer.WithoutAbsentId | src/dashboard/code/components/ResultDrawer.jsx:41 | Removing an id no case has changes nothing. |
| ResultDrawer.RemoveUndoesAdd | src/dashboard/code/components/ResultDrawer.jsx:28-42 | Removing the case just added, when its id is new, restores the list. |
| ResultDrawer.SameTickRemovesBoth | src/dashboard/code/components/ResultDrawer.jsx:32 | Two cases added in the same clock tick share an id, and removing one removes both. |
| ResultDrawer.Drawer.constructor | src/dashboard/code/components/ResultDrawer.jsx:25-26 | No custom cases and an empty draft. |
| ResultDrawer.Drawer.EditInput | src/dashboard/code/components/ResultDrawer.jsx:219 | Only the draft's input changes. |
| ResultDrawer.Drawer.EditExpected | src/dashboard/code/components/ResultDrawer.jsx:228 | Only the draft's expected output changes. |
| ResultDrawer.Drawer.AddCustomTestCase | src/dashboard/code/components/ResultDrawer.jsx:28-38 | With a blank field nothing changes. Otherwise the new case is appended and the draft cleared. Every listed case stays custom. |
| ResultDrawer.Drawer.Append | src/dashboard/code/components/ResultDrawer.jsx:35-36 | The list grows by the case and the draft is cleared. |
| ResultDrawer.Drawer.RemoveCustomTestCase | src/dashboard/code/components/ResultDrawer.jsx:40-42 | The list becomes `WithoutId` of the old list, and the draft is kept. |
| AiHelp.MatchEnd | src/dashboard/code/components/AIHelpSidebar.jsx:7 | A found end closes a match of the pattern. |
| AiHelp.MatchEndShortest | src/dashboard/code/components/AIHelpSidebar.jsx:7 | The found end is the shortest match there (the lazy fence), and nothing is found only when no match exists. |
| AiHelp.FirstMatch | src/dashboard/code/components/AIHelpSidebar.jsx:7 | A found match is non-empty, in range and matches the pattern. |
| AiHelp.FirstMatchLeftmost | src/dashboard/code/components/AIHelpSidebar.jsx:7 | No match starts before the found one, and none at all when none is found. |
| AiHelp.Split | src/dashboard/code/components/AIHelpSidebar.jsx:7 | `split` with a capturing pattern gives an odd number of parts, with the matches at the odd positions. |
| AiHelp.SplitConcat | src/dashboard/code/components/AIHelpSidebar.jsx:7 | The parts put back together give the text. |
| AiHelp.SplitFindsAll | src/dashboard/code/components/AIHelpSidebar.jsx:7 | The text between matches holds no match. |
| AiHelp.WordEnd | src/dashboard/code/components/AIHelpSidebar.jsx:11 | `(\w+)?` consumes exactly the run of word characters. |
| AiHelp.TagEnd | src/dashboard/code/components/AIHelpSidebar.jsx:11 | `(\w+)?\n?` ends after the word, or after the word and a newline. |
| AiHelp.StripFrom | src/dashboard/code/components/AIHelpSidebar.jsx:11 | Removing each fence mark with its language word and newline, left to right. `StripPlain` states it on text without marks. |
| AiHelp.DropClosingMark | src/dashboard/code/components/AIHelpSidebar.jsx:11 | A closing mark at the very end is removed, and otherwise the text is kept. |
| AiHelp.CodeContent | src/dashboard/code/components/AIHelpSidebar.jsx:10-11 | The text of a code block. `FenceContent` states that it is the text between the marks. |
| AiHelp.StripPlain | src/dashboard/code/components/AIHelpSidebar.jsx:11 | Text without marks, up to a closing mark at the end, passes through the global replace unchanged. |
| AiHelp.FenceContent | src/dashboard/code/components/AIHelpSidebar.jsx:10-11 | A fenced block's code is the text between its marks, less the language word and the newline after the opening mark. |
| AiHelp.BoldPiece | src/dashboard/code/components/AIHelpSidebar.jsx:29-32 | A bold match is shown bold without its asterisks. A segment that does not both begin and end with `**` is shown as it is. |
| AiHelp.BoldPieces | src/dashboard/code/components/AIHelpSidebar.jsx:28 | One piece per part of the bold split. |
| AiHelp.TickPieces | src/dashboard/code/components/AIHelpSidebar.jsx:20-24 | An inline-code match is shown as code without its backticks. A segment that does not both begin and end with a backtick goes on to the bold split. |
| AiHelp.InlinePieces | src/dashboard/code/components/AIHelpSidebar.jsx:19-33 | The pieces of a text part: split at inline code, then at bold text. `PlainTextUnchanged` and `LoneBacktickShownAsCode` state cases of it. |
| AiHelp.PlainTextUnchanged | src/dashboard/code/components/AIHelpSidebar.jsx:19-33 | Text with no backtick or asterisk is shown as one plain piece. |
| AiHelp.InlineSourceRoundTrip | src/dashboard/code/components/AIHelpSidebar.jsx:19-33 | Rendering drops only the markers of inline code and bold text: when no text between matches itself begins and ends with its delimiter, the pieces with their markers put back give the part. |
| AiHelp.NoMatchWithout | src/dashboard/code/components/AIHelpSidebar.jsx:19 | Without the delimiter character the inline split gives the text alone. |
| AiHelp.LoneBacktickShownAsCode | src/dashboard/code/components/AIHelpSidebar.jsx:20 | A lone backtick passes the inline-code test and is shown as empty code. |
| AiHelp.RenderPart | src/dashboard/code/components/AIHelpSidebar.jsx:9-36 | A part starting with a fence mark is a code block of its content. Any other part is a span of inline pieces. |
| AiHelp.FormatContent | src/dashboard/code/components/AIHelpSidebar.jsx:4-38 | Nothing is shown exactly for absent or empty text. Otherwise there is one block per part of the fence split. |
| AiHelp.FencedBlocksShown | src/dashboard/code/components/AIHelpSidebar.jsx:7-11 | Every fenced block of the text shows the code between its marks. |
| AiHelp.FenceBlock | src/dashboard/code/components/AIHelpSidebar.jsx:10-11 | A fence match renders as a code block of the text between its marks. |
| AiHelp.ShownMessage | src/dashboard/code/components/AIHelpSidebar.jsx:81 | The shown message is never empty, and is the error's own message when that is non-empty. |
| AiHelp.ReplyOutcome | src/dashboard/code/components/AIHelpSidebar.jsx:72-81 | The analysis is stored exactly for an ok reply with a body. Every failure has a non-empty message. A rejected reply without `error` shows "Failed to analyze code". |
| AiHelp.Sidebar.constructor | src/dashboard/code/components/AIHelpSidebar.jsx:41-43 | No analysis, not loading, no error. |
| AiHelp.Sidebar.BeginAnalysis | src/dashboard/code/components/AIHelpSidebar.jsx:45-70 | No request is made exactly without code or a question, and then the error is set. Otherwise loading starts, the error clears and the request carries the code, the question's fields and the language. |
| AiHelp.Sidebar.FinishAnalysis | src/dashboard/code/components/AIHelpSidebar.jsx:72-84 | An accepted reply stores its analysis, and a failure its message. Loading stops either way. |
| AiHelp.Sidebar.AnalyzeCode | src/dashboard/code/components/AIHelpSidebar.jsx:45-85 | The whole handler. An accepted truthy analysis is shown with no error, and the open sidebar then does not analyze again. |
| QuestionTable.FieldMatches | src/dashboard/components/data-table.jsx:45 | A field matches when it is present and its lower-cased text includes the lower-cased term; an absent field never matches. |
| QuestionTable.Matches | src/dashboard/components/data-table.jsx:44-48 | A question matches when its title, type or difficulty matches. `Filter` keeps exactly the matching questions. |
| QuestionTable.Filter | src/dashboard/components/data-table.jsx:43-51 | The filtered list holds exactly the questions whose title, type or difficulty contains the term, ignoring case. |
| QuestionTable.FilterConcat | src/dashboard/components/data-table.jsx:43-51 | Filtering keeps order: the matches of a concatenation are the matches of the first part followed by those of the second. |
| QuestionTable.FilterIdempotent | src/dashboard/components/data-table.jsx:44-48 | Filtering twice with the same term changes nothing. |
| QuestionTable.UnlabelledNeverListed | src/dashboard/components/data-table.jsx:45-47 | A question with none of the three fields is never listed. |
| QuestionTable.EmptyTermListsLabelled | src/dashboard/components/data-table.jsx:45-47 | An empty term lists exactly the questions with at least one of the fields. |
| QuestionTable.RefinedSearchNarrows | src/dashboard/components/data-table.jsx:45-47 | A term containing the old one can only shorten the list. |
| QuestionTable.StartIndex | src/dashboard/components/data-table.jsx:53 | The first position of a page, ten per page from page 1. `PageItems` and `ShowingRange` state what is shown from it. |
| QuestionTable.PageItems | src/dashboard/components/data-table.jsx:53-55 | A page shows the next at most ten questions from its start, and nothing past the end. |
| QuestionTable.TotalPages | src/dashboard/components/data-table.jsx:56 | The page count is the ceiling of the count over ten. |
| QuestionTable.PagesCoverList | src/dashboard/components/data-table.jsx:53-56 | A page shows questions exactly when its number is at most the page count. |
| QuestionTable.ShowingRange | src/dashboard/components/data-table.jsx:247-248 | The header shows the page's first position, counted from 1, and its last position. |
| QuestionTable.ShowingMatchesPage | src/dashboard/components/data-table.jsx:247-248 | The header counts exactly the questions on a non-empty page. |
| QuestionTable.PreviousPage | src/dashboard/components/data-table.jsx:255 | Previous never goes below 1, and otherwise steps back one. |
| QuestionTable.NextPage | src/dashboard/components/data-table.jsx:299 | Next never passes the page count, and otherwise steps forward one. |
| QuestionTable.WindowPage | src/dashboard/components/data-table.jsx:264-273 | The number of window button `i`: with five pages or fewer, or near the start, `i + 1`; near the end, counted back from the last page; otherwise centred on the current page. Every button that exists names a page between 1 and the total. |
| QuestionTable.PageWindow | src/dashboard/components/data-table.jsx:263-273 | The window has at most five buttons, each numbered by the source's rule. |
| QuestionTable.WindowShape | src/dashboard/components/data-table.jsx:263-273 | The window is a run of consecutive existing pages that includes the current page. |
| QuestionTable.Toggled | src/dashboard/components/data-table.jsx:94-98 | Marking an id removes it when present and appends it otherwise. Other ids are unaffected. |
| QuestionTable.RemoveAll | src/dashboard/components/data-table.jsx:96 | Keeps exactly the other ids. |
| QuestionTable.ToggleTwice | src/dashboard/components/data-table.jsx:94-98 | Toggling twice restores every id's membership, and the very list when the id was absent. |
| QuestionTable.DifficultyStyle | src/dashboard/components/data-table.jsx:100-111 | A value whose upper-case form is EASY, MEDIUM or HARD gets the green, orange or red style. Any other value, and a missing one, gets the gray style. |
| QuestionTable.StyleIdentifiesLevel | src/dashboard/components/data-table.jsx:100-111 | The four styles are told apart: each coloured style is given exactly to the values that name its level in any case, and the gray one exactly to the rest. |
| QuestionTable.StyleIgnoresCase | src/dashboard/components/data-table.jsx:101 | A difficulty and its upper-case form get the same style. |
| QuestionTable.KnownLevels | src/dashboard/components/data-table.jsx:102-107 | "easy", "Medium" and "HARD" get green, orange and red. |
| QuestionTable.UnknownLevel | src/dashboard/components/data-table.jsx:108-109 | Any other level, such as "Expert", gets the neutral style. |
| QuestionTable.Table.constructor | src/dashboard/components/data-table.jsx:18-24 | Empty lists, empty term, page 1. |
| QuestionTable.Table.SetData | src/dashboard/components/data-table.jsx:26-51 | The loaded questions are filtered by the current term, and the page resets to 1. |
| QuestionTable.Table.SetSearchTerm | src/dashboard/components/data-table.jsx:43-51 | The list is filtered by the new term, and the page resets to 1. |
| QuestionTable.Table.ToggleCompletion | src/dashboard/components/data-table.jsx:94-98 | Only the completion list changes, by `Toggled`. |
| QuestionTable.Table.Previous | src/dashboard/components/data-table.jsx:255 | Only the page changes, to `PreviousPage`. |
| QuestionTable.Table.Next | src/dashboard/components/data-table.jsx:299 | Only the page changes, to `NextPage`. |
| QuestionTable.Table.GoToPage | src/dashboard/components/data-table.jsx:281 | A window button moves to its page, which exists. |
| QuestionForm.InitialQuestion | src/admin/components/newProject.jsx:26-34 | Empty fields, difficulty "Easy", one empty test case. |
| QuestionForm.WithField | src/admin/components/newProject.jsx:99-104 | The field takes the value, and every other field and the test cases are kept. |
| QuestionForm.WithFieldLastWins | src/admin/components/newProject.jsx:99-104 | Setting a field twice keeps the second value. |
| QuestionForm.WithFieldSameValue | src/admin/components/newProject.jsx:99-104 | Setting a field to its own value changes nothing. |
| QuestionForm.DifficultyChoice | src/admin/components/newProject.jsx:147 | Clearing the toggle falls back to "Easy", and a chosen value is kept. |
| QuestionForm.WithTestCaseAdded | src/admin/components/newProject.jsx:73-79 | One empty case is appended, and the others and the fields are kept. |
| QuestionForm.RemoveAt | src/admin/components/newProject.jsx:85 | The entry at the index goes and the rest keep their order. An index outside the list removes nothing. |
| QuestionForm.WithTestCaseRemoved | src/admin/components/newProject.jsx:81-88 | Removal happens only with more than one case. |
| QuestionForm.RemoveKeepsOne | src/admin/components/newProject.jsx:82 | The list never becomes empty through removal. |
| QuestionForm.RemoveUndoesAdd | src/admin/components/newProject.jsx:73-88 | Removing the case just added restores the question. |
| QuestionForm.SetCaseField | src/admin/components/newProject.jsx:94 | `input` and `output` are set directly. Any other key is stored beside them. |
| QuestionForm.WithTestCaseUpdated | src/admin/components/newProject.jsx:90-97 | Only the entry at the index changes. |
| QuestionForm.UpdateLastWins | src/admin/components/newProject.jsx:90-97 | Editing the same field twice keeps the second value. |
| QuestionForm.Payload | src/admin/components/newProject.jsx:45-51 | The request holds the question's fields and each case reduced to input and output. |
| QuestionForm.PayloadCases | src/admin/components/newProject.jsx:47-50 | One reduced case per case, in order. |
| QuestionForm.PayloadIgnoresExtra | src/admin/components/newProject.jsx:47-50 | Extra keys written into a case never reach the server. |
| QuestionForm.HasRequiredFields | src/admin/components/newProject.jsx:39 | The submit guard: type, title and description are all non-empty. |
| QuestionForm.NewProject.constructor | src/admin/components/newProject.jsx:26-34 | The form starts at `InitialQuestion`. |
| QuestionForm.NewProject.HandleInputChange | src/admin/components/newProject.jsx:99-104 | The question becomes `WithField` of the old one. |
| QuestionForm.NewProject.ToggleDifficulty | src/admin/components/newProject.jsx:147 | The difficulty becomes the choice, defaulting to "Easy". |
| QuestionForm.NewProject.AddTestCase | src/admin/components/newProject.jsx:73-79 | The question becomes `WithTestCaseAdded` of the old one. |
| QuestionForm.NewProject.RemoveTestCase | src/admin/components/newProject.jsx:81-88 | The question becomes `WithTestCaseRemoved` of the old one, keeping at least one case. |
| QuestionForm.NewProject.UpdateTestCase | src/admin/components/newProject.jsx:90-97 | The question becomes `WithTestCaseUpdated` of the old one. |
| QuestionForm.NewProject.OnSubmit | src/admin/components/newProject.jsx:36-71 | Without type, title or description there is no request and the form is kept. Otherwise the payload is sent. On success the form resets with the success alert. On failure it is kept with the failure alert. |
| Signup.LongEnough | src/api/auth/Signup/signup-form.jsx:27 | The first criterion: at least eight characters. |
| Signup.HasLower | src/api/auth/Signup/signup-form.jsx:28 | `/[a-z]/` finds a lower-case ASCII letter. |
| Signup.HasUpper | src/api/auth/Signup/signup-form.jsx:28 | `/[A-Z]/` finds an upper-case ASCII letter. |
| Signup.MixedCase | src/api/auth/Signup/signup-form.jsx:28 | The second criterion: both a lower-case and an upper-case letter. |
| Signup.HasDigit | src/api/auth/Signup/signup-form.jsx:29 | The third criterion: `/[0-9]/` finds a digit. |
| Signup.HasSymbol | src/api/auth/Signup/signup-form.jsx:30 | The fourth criterion: `/[^a-zA-Z0-9]/` finds a character that is neither an ASCII letter nor a digit. |
| Signup.CriteriaMet | src/api/auth/Signup/signup-form.jsx:26-30 | At most four criteria are met, and none is met exactly when the count is 0. |
| Signup.Level | src/api/auth/Signup/signup-form.jsx:32-38 | Strength 1 reads "Weak" in red, 2 "Fair" in orange, 3 "Good" in yellow and 4 "Strong" in green. Any other strength gives the empty reading. |
| Signup.GetPasswordStrength | src/api/auth/Signup/signup-form.jsx:24-39 | An empty password has the empty reading. Otherwise the reading is the level of the number of criteria met, at most 4. |
| Signup.StrongIffAllCriteria | src/api/auth/Signup/signup-form.jsx:27-30 | The meter is full exactly when the password is long enough, has both cases, a digit and a symbol. |
| Signup.LevelExamples | src/api/auth/Signup/signup-form.jsx:27-30 | Example passwords meet 0, 1, 2, 3 and 4 criteria. |
| Signup.LettersOnly | src/api/auth/Signup/signup-form.jsx:29-30 | A password of letters only has no digit and no symbol. |
| Signup.RefusedAlert | src/api/auth/Signup/signup-form.jsx:88-91 | A refused signup alerts the server's message when it is non-empty text. An absent or empty message gives the generic alert. |
| Signup.PasswordsMatch | src/api/auth/Signup/signup-form.jsx:42 | The passwords match exactly when the password is non-empty and equals the confirmation. |
| Signup.SignupForm.constructor | src/api/auth/Signup/signup-form.jsx:14-22 | An empty form, not loading and not locked. |
| Signup.SignupForm.Edit | src/api/auth/Signup/signup-form.jsx:113 | The fields take the typed values, and the flags are kept. |
| Signup.SignupForm.CanSubmit | src/api/auth/Signup/signup-form.jsx:241 | An enabled submit button means the terms are accepted, the password is non-empty and equal to its confirmation, and no request is loading. |
| Signup.SignupForm.BeginSubmit | src/api/auth/Signup/signup-form.jsx:44-65 | A locked form ignores the submit. A mismatch alerts and changes nothing. Otherwise loading starts, the lock is taken and the name, email and password are sent. A submit through the enabled button of an unlocked form is always sent. |
| Signup.SignupForm.FinishSubmit | src/api/auth/Signup/signup-form.jsx:71-93 | Success clears the form with the created alert, and a refusal keeps it with `RefusedAlert`. Loading stops and the lock stays. |
| Signup.SignupForm.ReleaseLock | src/api/auth/Signup/signup-form.jsx:94 | The timer releases the lock, and nothing else changes. |

## Left out

- Text: strings are sequences of characters, with no UTF-16 surrogate pairs. `toLowerCase` and `toUpperCase` change the ASCII letters only.
- JsValues: numbers are reals, with no NaN, no infinities and no negative zero. Functions, symbols and other host objects are not values of the model.
- JsValues.ToJsString: the decimal text of a number that is not an integer below 1e21 comes from `Host.numberText`, and `JSON.parse` and `JSON.stringify` come from `Host`. The model does not define them.
- JsValues.NumberOf: an object is read as NaN. An object or array whose own `valueOf` or `toString` would give a number is not modelled.
- Comparator: `compareResults` is a predicate. Beyond the null and undefined case it is characterised by the lemmas beside it rather than by an `ensures` of its own. Object keys are compared as sets, which agrees with the sorted-key-list comparison of the source.
- EntryPoint: compiling the submitted code, `eval` scope rules, `Function.prototype.toString` and the declaration pattern are abstracted by `Program`. Its `declared` field stands for the names the pattern finds, in order, and `paramCount` for the parameter count read off the function text. A matched word whose `eval` throws (a reserved word matched in a comment or a string) is the `EvalThrows` binding, with the thrown error as a parameter. The submitted code is pasted into the body of a `new Function` (src/dashboard/code/services/codeExecutionService.js:113-115), so a top-level `return` in it ends the run with that value before any entry point is looked up. For example, `const x = 5; return x * 2;` answers 10. The model has no such path and fails with "No executable function found".
- Execution: the 5-second timeout is not modelled. Nor is `console.log` being left captured when a call never returns.
- Execution: the random delays of the simulated languages are not modelled.
- Execution.CaseOf: the measured time (`performance.now`, rounded) is the parameter `elapsed`.
- CodeEditor: memory usage and submission time (random numbers and the clock) are not modelled. `Math.random` for a missing time is the parameter `randomTime`, and `toFixed` is the parameter `fixed`.
- CodeEditor.Report: the summary of `handleRunCode` and `handleSubmitCode` reads `testResults` from the render in which the handler started, not the results just stored. So `Report` and `Decide` take the results as a parameter, and the model does not say which results they are given.
- CodeEditor.Editor.HandleRunTests: the intermediate state while the run is in flight (running flag up, results cleared) is not modelled as a separate state. Only the final state is stated.
- CodeEditor: `handleRunCustomTestCase` and the drawer's `runCustomTestCase` are not modelled. They run one custom case through the same `executeCode` and store the result in the drawer.
- CodeEditor: the question fetch, and the drawer's open, loading and timer state, are left to the parameters of `SetQuestion` and are not modelled.
- TestCasePanel.CaseView: an object test-case value with a `length` of 0 shows the placeholder. Other non-array values crash the render. What an object with another `length` would render is not modelled beyond that crash.
- AiHelp: the regular-expression engine is modelled by `IsMatch` and its leftmost match, the shortest for the lazy fence. Only the three patterns of `formatContent` are modelled.
- AiHelp.FormatContent: the text is taken to be a string or absent. A truthy value that is not a string makes the source throw at `text.split`, and that case is not modelled.
- AiHelp: JSX rendering, the issues and suggestions lists of the analysis, the loading skeleton and `console.error` are not modelled. The `fetch` round trip is the parameter `Reply`.
- QuestionTable: loading of the question list is the parameter of `SetData`. A failed load (the error is only logged) and the loading flag are not modelled.
- QuestionForm.NewProject.OnSubmit: the POST is the parameter `posted`. The server's reply body is only logged and is not modelled.
- Signup: the request is the parameter `response` of `FinishSubmit`. Visibility toggles and the one-second timer are not modelled; the timer's effect is `ReleaseLock`.
- Signup.RefusedAlert: the server's message is taken to be text. A non-text truthy `message` is not modelled.
- QuestionTable.Table.Previous: the button's disabled state on page 1 is not a precondition, since `PreviousPage` already stays at 1.
- Styling, dark mode and layout are not modelled.
