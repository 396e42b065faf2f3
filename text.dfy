/** String operations of the JavaScript runtime that the application relies on:
    `trim`, `includes`, `startsWith`, `indexOf`, `slice`, `join`, ASCII case mapping
    and the decimal text of an integer. */
module Text {
  import opened Results

  /** The characters JavaScript's `\s` matches and `trim` removes
      (WhiteSpace and LineTerminator of ECMAScript). */
  predicate IsSpace(c: char) {
    c == ' ' || c == '\t' || c == '\n' || c == '\r' || c == '\U{000B}' || c == '\U{000C}'
    || c == '\U{00A0}' || c == '\U{1680}' || ('\U{2000}' <= c <= '\U{200A}')
    || c == '\U{2028}' || c == '\U{2029}' || c == '\U{202F}' || c == '\U{205F}'
    || c == '\U{3000}' || c == '\U{FEFF}'
  }

  /** The characters a regular expression's `.` does not match. */
  predicate IsLineTerminator(c: char) {
    c == '\n' || c == '\r' || c == '\U{2028}' || c == '\U{2029}'
  }

  /** `\w` */
  predicate IsWordChar(c: char) {
    ('a' <= c <= 'z') || ('A' <= c <= 'Z') || ('0' <= c <= '9') || c == '_'
  }

  predicate IsLowerAscii(c: char) { 'a' <= c <= 'z' }
  predicate IsUpperAscii(c: char) { 'A' <= c <= 'Z' }
  predicate IsDigit(c: char) { '0' <= c <= '9' }

  /** `s.trim()`: the text from the first character that is not white space up to and
      including the last one. */
  function Trim(s: string): (r: string)
    ensures |r| <= |s|
    ensures OccursAt(s, r, SpaceRunEnd(s, 0))
    ensures r == [] || (!IsSpace(r[0]) && !IsSpace(r[|r| - 1]))
    ensures r == [] <==> forall i :: 0 <= i < |s| ==> IsSpace(s[i])
    ensures forall j :: 0 <= j < SpaceRunEnd(s, 0) ==> IsSpace(s[j])
    ensures forall j :: SpaceRunEnd(s, 0) + |r| <= j < |s| ==> IsSpace(s[j])
  {
    var a := SpaceRunEnd(s, 0);
    var b := SpaceRunStart(s, a, |s|);
    assert a == b ==> forall i :: 0 <= i < |s| ==> IsSpace(s[i]) by {
      assert forall i :: 0 <= i < a ==> IsSpace(s[i]);
    }
    s[a..b]
  }

  /** The position where the run of white space that ends at `hi` begins, looking no
      further left than `lo`. */
  function SpaceRunStart(s: string, lo: nat, hi: nat): (r: nat)
    requires lo <= hi <= |s|
    decreases hi - lo
    ensures lo <= r <= hi
    ensures forall j :: r <= j < hi ==> IsSpace(s[j])
    ensures r > lo ==> !IsSpace(s[r - 1])
  {
    if hi > lo && IsSpace(s[hi - 1]) then SpaceRunStart(s, lo, hi - 1) else hi
  }

  predicate StartsWith(s: string, p: string) {
    |p| <= |s| && s[..|p|] == p
  }

  lemma StartsWithConcat(a: string, b: string)
    ensures StartsWith(a + b, a)
  {
    assert (a + b)[..|a|] == a;
  }

  predicate EndsWith(s: string, p: string) {
    |p| <= |s| && s[|s| - |p|..] == p
  }

  /** `t` occurs in `s` starting at position `i`. */
  predicate OccursAt(s: string, t: string, i: nat) {
    i + |t| <= |s| && s[i..i + |t|] == t
  }

  /** The characters of an occurrence, one by one. */
  lemma OccursAtIndex(s: string, t: string, i: nat)
    requires OccursAt(s, t, i)
    ensures forall j :: 0 <= j < |t| ==> t[j] == s[i + j]
  {
    forall j | 0 <= j < |t|
      ensures t[j] == s[i + j]
    {
      assert s[i..i + |t|][j] == s[i + j];
    }
  }

  /** `s.includes(t)` */
  predicate Contains(s: string, t: string)
    decreases |s|
  {
    StartsWith(s, t) || (s != [] && Contains(s[1..], t))
  }

  /** `Contains` agrees with the positional definition of a substring. */
  lemma {:induction false} ContainsAt(s: string, t: string)
    ensures Contains(s, t) <==> exists i: nat :: OccursAt(s, t, i)
  {
    if StartsWith(s, t) {
      assert OccursAt(s, t, 0);
    } else if s == [] {
      assert forall i: nat :: !OccursAt(s, t, i);
    } else {
      ContainsAt(s[1..], t);
      if exists i: nat :: OccursAt(s, t, i) {
        var i: nat :| OccursAt(s, t, i);
        assert i != 0;
        assert s[1..][i - 1..i - 1 + |t|] == s[i..i + |t|];
        assert OccursAt(s[1..], t, i - 1);
      }
      if Contains(s[1..], t) {
        var i: nat :| OccursAt(s[1..], t, i);
        assert s[i + 1..i + 1 + |t|] == s[1..][i..i + |t|];
        assert OccursAt(s, t, i + 1);
      }
    }
  }

  /** An occurrence inside an occurrence is an occurrence. */
  lemma OccursWithin(s: string, r: string, a: nat, t: string, k: nat)
    requires OccursAt(s, r, a) && OccursAt(r, t, k)
    ensures OccursAt(s, t, a + k)
  {
    var u := s[a + k..a + k + |t|];
    forall j | 0 <= j < |t|
      ensures u[j] == t[j]
    {
      assert u[j] == s[a + k + j] == r[k + j] == t[j];
    }
    assert u == t;
  }

  /** A string contains whatever a piece of it contains. */
  lemma ContainsThroughPiece(s: string, r: string, a: nat, t: string)
    requires OccursAt(s, r, a)
    ensures Contains(r, t) ==> Contains(s, t)
  {
    if Contains(r, t) {
      ContainsAt(r, t);
      var k: nat :| OccursAt(r, t, k);
      OccursWithin(s, r, a, t, k);
      ContainsAt(s, t);
    }
  }

  /** A string containing `t` contains every piece of `t`. */
  lemma ContainsPiece(s: string, t: string, a: nat, b: nat)
    requires a <= b <= |t|
    ensures Contains(s, t) ==> Contains(s, t[a..b])
  {
    if Contains(s, t) {
      ContainsAt(s, t);
      var i: nat :| OccursAt(s, t, i);
      assert OccursAt(t, t[a..b], a);
      OccursWithin(s, t, i, t[a..b], a);
      ContainsAt(s, t[a..b]);
    }
  }

  /** The first position at or after `from` where `t` occurs in `s`: `s.indexOf(t, from)`. */
  function IndexOf(s: string, t: string, from: nat): (r: Option<nat>)
    decreases |s| - from
    ensures r.Some? ==> from <= r.value && OccursAt(s, t, r.value)
    ensures r.Some? ==> forall j: nat :: from <= j < r.value ==> !OccursAt(s, t, j)
    ensures r.None? ==> forall j: nat :: from <= j ==> !OccursAt(s, t, j)
  {
    if from + |t| > |s| then None
    else if OccursAt(s, t, from) then Some(from)
    else IndexOf(s, t, from + 1)
  }

  /** The position of the first character at or after `from` that satisfies no `\s`
      (or the end of the string). */
  function SpaceRunEnd(s: string, from: nat): (r: nat)
    requires from <= |s|
    decreases |s| - from
    ensures from <= r <= |s|
    ensures forall j :: from <= j < r ==> IsSpace(s[j])
    ensures r < |s| ==> !IsSpace(s[r])
  {
    if from < |s| && IsSpace(s[from]) then SpaceRunEnd(s, from + 1) else from
  }

  /** The position of the first line terminator at or after `from` (or the end). */
  function LineEnd(s: string, from: nat): (r: nat)
    requires from <= |s|
    decreases |s| - from
    ensures from <= r <= |s|
    ensures forall j :: from <= j < r ==> !IsLineTerminator(s[j])
    ensures r < |s| ==> IsLineTerminator(s[r])
  {
    if from < |s| && !IsLineTerminator(s[from]) then LineEnd(s, from + 1) else from
  }

  /** How `slice` reads one of its bounds: negative counts from the end, then clamp. */
  function SliceBound(i: int, len: nat): (r: nat)
    ensures r <= len
    ensures 0 <= i <= len ==> r == i
  {
    if i < 0 then (if len + i < 0 then 0 else len + i) else if i > len then len else i
  }

  /** `s.slice(start, end)` */
  function Slice<T>(s: seq<T>, start: int, end: int): (r: seq<T>)
    ensures 0 <= start <= end <= |s| ==> r == s[start..end]
    ensures |r| <= |s|
  {
    var a := SliceBound(start, |s|);
    var b := SliceBound(end, |s|);
    if a < b then s[a..b] else []
  }

  /** `parts.join(sep)` */
  function Join(parts: seq<string>, sep: string): (r: string)
    ensures parts == [] ==> r == ""
    ensures |parts| == 1 ==> r == parts[0]
    ensures parts != [] ==> StartsWith(r, parts[0])
  {
    if parts == [] then ""
    else if |parts| == 1 then parts[0]
    else parts[0] + sep + Join(parts[1..], sep)
  }

  /** Joining two non-empty lists puts one separator between their joins. */
  lemma {:induction false} JoinAppend(a: seq<string>, b: seq<string>, sep: string)
    requires a != [] && b != []
    ensures Join(a + b, sep) == Join(a, sep) + sep + Join(b, sep)
    decreases |a|
  {
    var ab := a + b;
    assert ab[0] == a[0];
    if |a| == 1 {
      assert ab[1..] == b;
      calc {
        Join(ab, sep);
        ab[0] + sep + Join(ab[1..], sep);
        a[0] + sep + Join(b, sep);
      }
    } else {
      assert ab[1..] == a[1..] + b;
      JoinAppend(a[1..], b, sep);
      calc {
        Join(ab, sep);
        a[0] + sep + Join(a[1..] + b, sep);
        a[0] + sep + (Join(a[1..], sep) + sep + Join(b, sep));
        (a[0] + sep + Join(a[1..], sep)) + sep + Join(b, sep);
      }
    }
  }

  function LowerChar(c: char): char {
    if IsUpperAscii(c) then (c as int + 32) as char else c
  }

  function UpperChar(c: char): char {
    if IsLowerAscii(c) then (c as int - 32) as char else c
  }

  /** `s.toLowerCase()` on the ASCII letters. */
  function Lower(s: string): (r: string)
    ensures |r| == |s|
    ensures forall i :: 0 <= i < |s| ==> r[i] == LowerChar(s[i])
  {
    if s == [] then [] else [LowerChar(s[0])] + Lower(s[1..])
  }

  /** `s.toUpperCase()` on the ASCII letters. */
  function Upper(s: string): (r: string)
    ensures |r| == |s|
    ensures forall i :: 0 <= i < |s| ==> r[i] == UpperChar(s[i])
  {
    if s == [] then [] else [UpperChar(s[0])] + Upper(s[1..])
  }

  function DigitChar(d: nat): char
    requires d < 10
  {
    ('0' as int + d) as char
  }

  /** The number a text of decimal digits denotes. */
  function DigitsValue(s: string): nat
    requires forall i :: 0 <= i < |s| ==> IsDigit(s[i])
  {
    if s == [] then 0
    else
      assert IsDigit(s[|s| - 1]);
      DigitsValue(s[..|s| - 1]) * 10 + (s[|s| - 1] as int - '0' as int)
  }

  /** Decimal digits of a natural number, without leading zeros. */
  function NatText(n: nat): (r: string)
    decreases n
    ensures r != []
    ensures forall i :: 0 <= i < |r| ==> IsDigit(r[i])
    ensures DigitsValue(r) == n
    ensures n > 0 ==> r[0] != '0'
    ensures n < 10 <==> |r| == 1
  {
    if n < 10 then [DigitChar(n)]
    else
      var high := NatText(n / 10);
      var r := high + [DigitChar(n % 10)];
      assert r[..|r| - 1] == high;
      r
  }

  /** The decimal text JavaScript gives an integer: `String(n)` for |n| < 1e21. */
  function IntText(n: int): string {
    if n < 0 then "-" + NatText(-n) else NatText(n)
  }
}
