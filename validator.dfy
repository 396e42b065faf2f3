/** The static check run on submitted code before any test case: comments are removed,
    white space is collapsed, and per language a few keywords must be present. */
module Validator {
  import opened Results
  import opened Text

  datatype Verdict = Valid | Invalid(message: string)

  // The first replace of validateCode: each block-comment opener (slash, star) that has a
  // later closer (star, slash) is removed up to and including the first such closer; an
  // unclosed opener and everything after it stays.
  function StripBlockComments(s: string): (r: string)
    decreases |s|
    ensures |r| <= |s|
    ensures !Contains(s, "/*") ==> r == s
  {
    if StartsWith(s, "/*") then
      match IndexOf(s, "*/", 2)
      case Some(j) => StripBlockComments(s[j + 2..])
      case None => s
    else if s == [] then []
    else [s[0]] + StripBlockComments(s[1..])
  }

  /** `code.replace(/\/\/.*$/gm, '')`: from each `//` to the end of its line is removed;
      the line terminator stays. */
  function StripLineComments(s: string): (r: string)
    decreases |s|
    ensures |r| <= |s|
    ensures !Contains(s, "//") ==> r == s
    ensures s != [] && !StartsWith(s, "//") ==> r != [] && r[0] == s[0]
  {
    if StartsWith(s, "//") then
      var e := LineEnd(s, 0);
      assert e >= 2 by {
        assert !IsLineTerminator(s[0]) && !IsLineTerminator(s[1]);
      }
      StripLineComments(s[e..])
    else if s == [] then []
    else [s[0]] + StripLineComments(s[1..])
  }

  /** `code.replace(/\s+/g, ' ')`: every run of white space becomes a single space. */
  function CollapseSpaces(s: string): (r: string)
    decreases |s|
    ensures |r| <= |s|
    ensures s != [] ==> r != [] && r[0] == (if IsSpace(s[0]) then ' ' else s[0])
    ensures forall i :: 0 <= i < |r| && IsSpace(r[i]) ==> r[i] == ' '
    ensures forall i :: 0 <= i < |r| - 1 ==> !(r[i] == ' ' && r[i + 1] == ' ')
  {
    if s == [] then []
    else if IsSpace(s[0]) then [' '] + CollapseSpaces(s[SpaceRunEnd(s, 0)..])
    else [s[0]] + CollapseSpaces(s[1..])
  }

  /** The text the keyword checks look at. */
  function Clean(code: string): string {
    Trim(CollapseSpaces(StripLineComments(StripBlockComments(code))))
  }

  /** `validateCode(code, language)`: `Valid` where the source returns `true`,
      `Invalid(message)` where it throws an Error with that message. */
  function Validate(code: string, language: string): (r: Verdict)
    ensures Trim(code) == [] ==> r == Invalid("Code cannot be empty")
    ensures r.Valid? ==> Trim(code) != [] && |Clean(code)| >= 10
  {
    var c := Clean(code);
    if Trim(code) == [] then Invalid("Code cannot be empty")
    else if |c| < 10 then Invalid("Code appears to be too short or contains only comments")
    else if language == "javascript" || language == "typescript" then
      if !Contains(c, "function") && !Contains(c, "=>") && !Contains(c, "=") then
        Invalid("No function definition found in JavaScript/TypeScript code")
      else if Contains(c, "function") && !Contains(c, "return") && !Contains(c, "=>") then
        Invalid("Function should return a value. Add a return statement.")
      else Valid
    else if language == "python" then
      if !Contains(c, "def ") then
        Invalid("No function definition found. Use \"def function_name():\" syntax")
      else if Contains(c, "def ") && !Contains(c, "return") && !Contains(c, "print") then
        Invalid("Function should return a value or print output")
      else Valid
    else if language == "java" then
      if !Contains(c, "public") || !Contains(c, "class") then
        Invalid("Java code must contain a public class")
      else if Contains(c, "public") && !Contains(c, "return") then
        Invalid("Java method should return a value")
      else Valid
    else if language == "cpp" then
      if !Contains(c, "#include") then
        Invalid("C++ code should include necessary headers")
      else if !Contains(c, "main") && !Contains(c, "return") then
        Invalid("C++ code should have a main function or return statement")
      else Valid
    else if |c| < 20 then Invalid(language + " code appears incomplete")
    else Valid
  }

  /** No `//` survives line-comment removal. */
  lemma {:induction false} NoLineCommentRemains(s: string)
    ensures !Contains(StripLineComments(s), "//")
    decreases |s|
  {
    var r := StripLineComments(s);
    if StartsWith(s, "//") {
      NoLineCommentRemains(s[LineEnd(s, 0)..]);
    } else if s != [] {
      var tail := StripLineComments(s[1..]);
      NoLineCommentRemains(s[1..]);
      assert r == [s[0]] + tail;
      assert !StartsWith(r, "//") by {
        if |s| >= 2 && s[0] == '/' {
          assert s[1] != '/';
          assert !StartsWith(s[1..], "//");
        }
      }
      assert r[1..] == tail;
    }
  }

  /** The shape of the cleaned text: no line comment, no white space other than single
      inner spaces. */
  lemma CleanShape(code: string)
    ensures !Contains(Clean(code), "//")
    ensures forall i :: 0 <= i < |Clean(code)| && IsSpace(Clean(code)[i]) ==> Clean(code)[i] == ' '
    ensures forall i :: 0 <= i < |Clean(code)| - 1 ==>
      !(Clean(code)[i] == ' ' && Clean(code)[i + 1] == ' ')
    ensures Clean(code) != [] ==> !IsSpace(Clean(code)[0]) && !IsSpace(Clean(code)[|Clean(code)| - 1])
  {
    var l := StripLineComments(StripBlockComments(code));
    NoLineCommentRemains(StripBlockComments(code));
    CollapsePreservesNoSlashes(l);
    TrimKeepsNoSlashes(CollapseSpaces(l));
    TrimKeepsSingleSpaces(CollapseSpaces(l));
  }

  /** Trimming cuts out a piece of the text, so it creates no `//`. */
  lemma TrimKeepsNoSlashes(w: string)
    requires !Contains(w, "//")
    ensures !Contains(Trim(w), "//")
  {
    ContainsThroughPiece(w, Trim(w), SpaceRunEnd(w, 0), "//");
  }

  /** Trimming keeps white space as single plain spaces. */
  lemma TrimKeepsSingleSpaces(w: string)
    requires forall i :: 0 <= i < |w| && IsSpace(w[i]) ==> w[i] == ' '
    requires forall i :: 0 <= i < |w| - 1 ==> !(w[i] == ' ' && w[i + 1] == ' ')
    ensures forall i :: 0 <= i < |Trim(w)| && IsSpace(Trim(w)[i]) ==> Trim(w)[i] == ' '
    ensures forall i :: 0 <= i < |Trim(w)| - 1 ==> !(Trim(w)[i] == ' ' && Trim(w)[i + 1] == ' ')
  {
    OccursAtIndex(w, Trim(w), SpaceRunEnd(w, 0));
  }

  /** Collapsing white space creates no `//`. */
  lemma {:induction false} CollapsePreservesNoSlashes(s: string)
    requires !Contains(s, "//")
    ensures !Contains(CollapseSpaces(s), "//")
    decreases |s|
  {
    var r := CollapseSpaces(s);
    if s == [] {
    } else if IsSpace(s[0]) {
      var e := SpaceRunEnd(s, 0);
      NoSlashesInSuffix(s, e);
      CollapsePreservesNoSlashes(s[e..]);
      assert !StartsWith(r, "//");
      assert r[1..] == CollapseSpaces(s[e..]);
    } else {
      NoSlashesInSuffix(s, 1);
      CollapsePreservesNoSlashes(s[1..]);
      var tail := CollapseSpaces(s[1..]);
      assert r == [s[0]] + tail;
      assert !StartsWith(r, "//") by {
        if |s| >= 2 && s[0] == '/' {
          assert !StartsWith(s, "//");
          assert s[1] != '/';
          assert tail[0] == (if IsSpace(s[1]) then ' ' else s[1]);
        }
      }
      assert r[1..] == tail;
    }
  }

  lemma NoSlashesInSuffix(s: string, k: nat)
    requires k <= |s| && !Contains(s, "//")
    ensures !Contains(s[k..], "//")
  {
    assert OccursAt(s, s[k..], k);
    ContainsThroughPiece(s, s[k..], k, "//");
  }

  /** A closed block comment at the front is removed up to and including its first
      closer, and the text after it is cleaned the same way. */
  lemma BlockCommentRemoved(x: string, y: string)
    requires !Contains(x, "*/")
    ensures StripBlockComments("/*" + x + "*/" + y) == StripBlockComments(y)
  {
    var s := "/*" + x + "*/" + y;
    var e := |x| + 2;
    assert StartsWith(s, "/*") by { assert s[..2] == "/*"; }
    assert OccursAt(s, "*/", e) by { assert s[e..e + 2] == "*/"; }
    forall j: nat | 2 <= j < e
      ensures !OccursAt(s, "*/", j)
    {
      NoCloserInside(x, y, j);
    }
    assert IndexOf(s, "*/", 2) == Some(e);
    assert s[e + 2..] == y;
  }

  /** Before the closer that follows `x`, no closer starts. */
  lemma NoCloserInside(x: string, y: string, j: nat)
    requires !Contains(x, "*/") && 2 <= j < |x| + 2
    ensures !OccursAt("/*" + x + "*/" + y, "*/", j)
  {
    var s := "/*" + x + "*/" + y;
    TwoCharsAt(s, "*/", j);
    assert s[j] == x[j - 2];
    if j < |x| + 1 {
      assert s[j + 1] == x[j - 1];
      NotContainedAt(x, "*/", j - 2);
      TwoCharsAt(x, "*/", j - 2);
    } else {
      assert s[j + 1] == '*';
    }
  }

  lemma NotContainedAt(s: string, t: string, i: nat)
    requires !Contains(s, t)
    ensures !OccursAt(s, t, i)
  {
    ContainsAt(s, t);
  }

  /** A two-character text occurs at `j` exactly when its two characters are there. */
  lemma TwoCharsAt(s: string, t: string, j: nat)
    requires |t| == 2
    ensures OccursAt(s, t, j) <==> j + 2 <= |s| && s[j] == t[0] && s[j + 1] == t[1]
  {
    if j + 2 <= |s| && s[j] == t[0] && s[j + 1] == t[1] {
      assert s[j..j + 2] == t;
    }
  }

  /** Code that is a single closed block comment is rejected as "only comments", however
      long the comment is. */
  lemma BlockCommentOnlyRejected(x: string, language: string)
    requires !Contains(x, "*/")
    ensures Validate("/*" + x + "*/", language)
      == Invalid("Code appears to be too short or contains only comments")
  {
    var code := "/*" + x + "*/";
    BlockCommentRemoved(x, "");
    assert code + "" == code;
    assert Clean(code) == [];
    assert !IsSpace(code[0]);
  }

  /** Code that is a single line comment is rejected as "only comments", however long
      it is (provided no block-comment opener hides in it). */
  lemma {:induction false} CommentOnlyRejected(t: string, language: string)
    requires forall i :: 0 <= i < |t| ==> !IsLineTerminator(t[i])
    requires !Contains("/" + t, "/*")
    ensures Validate("//" + t, language)
      == Invalid("Code appears to be too short or contains only comments")
  {
    LineCommentCleansAway(t);
  }

  lemma {:induction false} LineCommentCleansAway(t: string)
    requires forall i :: 0 <= i < |t| ==> !IsLineTerminator(t[i])
    requires !Contains("/" + t, "/*")
    ensures Clean("//" + t) == [] && Trim("//" + t) != []
  {
    var code := "//" + t;
    assert code[1..] == "/" + t;
    assert !Contains(code, "/*");
    assert LineEnd(code, 0) == |code| by {
      forall j | 0 <= j < |code|
        ensures !IsLineTerminator(code[j])
      {
        if j >= 2 {
          assert code[j] == t[j - 2];
        }
      }
    }
    assert StripBlockComments(code) == code;
    assert StripLineComments(code) == [];
    assert CollapseSpaces([]) == [];
    assert Trim(code) != [] by {
      assert !IsSpace(code[0]);
    }
  }

  /** The JavaScript/TypeScript rule in one line: since `=>` contains `=`, the first check
      reduces to "has `function` or `=`". */
  lemma JavaScriptRule(code: string, language: string)
    requires language == "javascript" || language == "typescript"
    requires Trim(code) != [] && |Clean(code)| >= 10
    ensures Validate(code, language).Valid? <==>
      (Contains(Clean(code), "function") || Contains(Clean(code), "="))
      && (Contains(Clean(code), "function") ==>
            Contains(Clean(code), "return") || Contains(Clean(code), "=>"))
  {
    ContainsPiece(Clean(code), "=>", 0, 1);
    assert "=>"[0..1] == "=";
  }

  /** Every other language (C#, Go and Rust among them) only needs 20 cleaned
      characters. */
  lemma OtherLanguageRule(code: string, language: string)
    requires language != "javascript" && language != "typescript"
    requires language != "python" && language != "java" && language != "cpp"
    ensures Validate(code, language).Valid? <==> Trim(code) != [] && |Clean(code)| >= 20
    ensures Validate(code, language).Invalid? && Trim(code) != [] && |Clean(code)| >= 10 ==>
      Validate(code, language).message == language + " code appears incomplete"
  {
  }
}
