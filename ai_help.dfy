/** The AI help sidebar: `formatContent`, which cuts the analysis text into fenced code
    blocks, inline code and bold text, and the guard of `analyzeCode` with the sidebar's
    `loading`, `error` and `analysis` cells. */
module AiHelp {
  import opened Results
  import opened Text
  import opened JsValues

  /** The three patterns the text is split on, each with one capture group around the
      whole match: `/(```[\s\S]*?```)/`, `/(`[^`]+`)/` and `/(\*\*[^*]+\*\*)/`. */
  datatype Pattern = Fence | Tick | Stars

  const FenceMark: string := "```"

  /** `m` is, in full, the match the pattern makes when it starts at the beginning of
      `m`. For the lazy fence this is the shortest text that opens and closes with three
      backticks: no closing fence occurs before the last one. The other two patterns
      admit one match at most at a position, since their middle excludes the delimiter. */
  predicate IsMatch(pat: Pattern, m: string) {
    match pat
    case Fence =>
      |m| >= 6 && StartsWith(m, FenceMark) && EndsWith(m, FenceMark)
      && forall i :: 3 <= i < |m| - 3 ==> !OccursAt(m, FenceMark, i)
    case Tick =>
      |m| >= 3 && m[0] == '`' && m[|m| - 1] == '`'
      && forall i :: 0 < i < |m| - 1 ==> m[i] != '`'
    case Stars =>
      |m| >= 5 && StartsWith(m, "**") && EndsWith(m, "**")
      && forall i :: 2 <= i < |m| - 2 ==> m[i] != '*'
  }

  /** The end of the shortest match at `p` that ends at `e` or later. */
  function MatchEnd(pat: Pattern, s: string, p: nat, e: nat): (r: Option<nat>)
    requires p <= e <= |s|
    decreases |s| - e
    ensures r.Some? ==> e <= r.value <= |s| && IsMatch(pat, s[p..r.value])
  {
    if IsMatch(pat, s[p..e]) then Some(e)
    else if e == |s| then None
    else MatchEnd(pat, s, p, e + 1)
  }

  /** No match at `p` ends at or after `e` unless `MatchEnd` finds one, and it finds the
      shortest. */
  lemma {:induction false} MatchEndShortest(pat: Pattern, s: string, p: nat, e: nat)
    requires p <= e <= |s|
    decreases |s| - e
    ensures MatchEnd(pat, s, p, e).Some? ==>
      forall k :: e <= k < MatchEnd(pat, s, p, e).value ==> !IsMatch(pat, s[p..k])
    ensures MatchEnd(pat, s, p, e).None? ==> forall k :: e <= k <= |s| ==> !IsMatch(pat, s[p..k])
  {
    if !IsMatch(pat, s[p..e]) && e < |s| {
      MatchEndShortest(pat, s, p, e + 1);
      var r := MatchEnd(pat, s, p, e + 1);
      assert MatchEnd(pat, s, p, e) == r;
      forall k | e <= k <= |s| && (r.None? || k < r.value)
        ensures !IsMatch(pat, s[p..k])
      {
        if k == e {
          assert s[p..k] == s[p..e];
        }
      }
    }
  }

  /** The leftmost match at `from` or later, as the position where it starts and the one
      where it ends. */
  function FirstMatch(pat: Pattern, s: string, from: nat): (r: Option<(nat, nat)>)
    requires from <= |s|
    decreases |s| - from
    ensures r.Some? ==> from <= r.value.0 < r.value.1 <= |s|
    ensures r.Some? ==> IsMatch(pat, s[r.value.0..r.value.1])
  {
    if from == |s| then None
    else
      match MatchEnd(pat, s, from, from)
      case Some(e) =>
        assert from < e by {
          assert IsMatch(pat, s[from..e]);
        }
        Some((from, e))
      case None => FirstMatch(pat, s, from + 1)
  }

  /** No match starts before the leftmost one, and none at all when there is none. */
  lemma {:induction false} FirstMatchLeftmost(pat: Pattern, s: string, from: nat)
    requires from <= |s|
    decreases |s| - from
    ensures var r := FirstMatch(pat, s, from);
      r.Some? ==> forall a, b :: from <= a < r.value.0 && a <= b <= |s| ==> !IsMatch(pat, s[a..b])
    ensures FirstMatch(pat, s, from).None? ==>
      forall a, b :: from <= a <= b <= |s| ==> !IsMatch(pat, s[a..b])
  {
    if from == |s| {
      assert !IsMatch(pat, s[from..from]);
    } else {
      MatchEndShortest(pat, s, from, from);
      if MatchEnd(pat, s, from, from).None? {
        FirstMatchLeftmost(pat, s, from + 1);
        var r := FirstMatch(pat, s, from + 1);
        assert FirstMatch(pat, s, from) == r;
        forall a, b | from <= a <= b <= |s| && (r.None? || a < r.value.0)
          ensures !IsMatch(pat, s[a..b])
        {
          if a == from {
            assert from <= b <= |s|;
          }
        }
      }
    }
  }

  /** `s.split(pattern)`: the text between matches at even positions and the matches
      themselves, kept by the capture group, at odd positions. */
  function Split(pat: Pattern, s: string): (parts: seq<string>)
    decreases |s|
    ensures |parts| % 2 == 1
    ensures forall j :: 0 <= j < |parts| && j % 2 == 1 ==> IsMatch(pat, parts[j])
  {
    match FirstMatch(pat, s, 0)
    case None => [s]
    case Some((p, e)) =>
      var rest := Split(pat, s[e..]);
      var r := [s[..p], s[p..e]] + rest;
      assert forall j :: 2 <= j < |r| ==> r[j] == rest[j - 2];
      r
  }

  /** The pieces concatenated in order. */
  function Concat(parts: seq<string>): string {
    if parts == [] then "" else parts[0] + Concat(parts[1..])
  }

  /** Splitting loses nothing: the parts put back together give the text. */
  lemma {:induction false} SplitConcat(pat: Pattern, s: string)
    ensures Concat(Split(pat, s)) == s
    decreases |s|
  {
    match FirstMatch(pat, s, 0)
    case None =>
    case Some((p, e)) =>
      SplitConcat(pat, s[e..]);
      ConcatCons2(s[..p], s[p..e], Split(pat, s[e..]));
      Rejoin(s, p, e);
  }

  lemma Rejoin(s: string, p: nat, e: nat)
    requires p <= e <= |s|
    ensures s[..p] + (s[p..e] + s[e..]) == s
  {
    assert s[..p] + s[p..e] == s[..e];
  }

  lemma ConcatCons2(x: string, y: string, rest: seq<string>)
    ensures Concat([x, y] + rest) == x + (y + Concat(rest))
  {
    var r := [x, y] + rest;
    assert r[1..] == [y] + rest && r[1..][1..] == rest;
  }

  /** `s` holds no match of the pattern anywhere. */
  predicate NoMatchIn(pat: Pattern, s: string) {
    forall a, b :: 0 <= a <= b <= |s| ==> !IsMatch(pat, s[a..b])
  }

  /** The text between matches holds no match: the split finds every one. */
  lemma {:induction false} SplitFindsAll(pat: Pattern, s: string)
    ensures forall j :: 0 <= j < |Split(pat, s)| && j % 2 == 0 ==> NoMatchIn(pat, Split(pat, s)[j])
    decreases |s|
  {
    match FirstMatch(pat, s, 0)
    case None =>
      FirstMatchLeftmost(pat, s, 0);
      assert s[0..|s|] == s;
    case Some((p, e)) =>
      SplitFindsAll(pat, s[e..]);
      FirstMatchLeftmost(pat, s, 0);
      NoMatchInPrefix(pat, s, p);
      EvenPartsCons(pat, s[..p], s[p..e], Split(pat, s[e..]));
  }

  /** Text before the leftmost match holds none. */
  lemma NoMatchInPrefix(pat: Pattern, s: string, p: nat)
    requires p <= |s|
    requires forall a, b :: 0 <= a < p && a <= b <= |s| ==> !IsMatch(pat, s[a..b])
    ensures NoMatchIn(pat, s[..p])
  {
    forall a, b | 0 <= a <= b <= p
      ensures !IsMatch(pat, s[..p][a..b])
    {
      assert s[..p][a..b] == s[a..b];
    }
  }

  lemma EvenPartsCons(pat: Pattern, x: string, y: string, rest: seq<string>)
    requires NoMatchIn(pat, x)
    requires forall j :: 0 <= j < |rest| && j % 2 == 0 ==> NoMatchIn(pat, rest[j])
    ensures forall j :: 0 <= j < |[x, y] + rest| && j % 2 == 0 ==> NoMatchIn(pat, ([x, y] + rest)[j])
  {
    forall j | 2 <= j < |[x, y] + rest| && j % 2 == 0
      ensures NoMatchIn(pat, ([x, y] + rest)[j])
    {
      assert ([x, y] + rest)[j] == rest[j - 2];
      assert (j - 2) % 2 == 0;
    }
  }

  // ---- Code blocks ----

  /** Where the run of word characters (`\w`) at `from` ends, as `(\w+)?` consumes it
      greedily. */
  function WordEnd(s: string, from: nat): (r: nat)
    requires from <= |s|
    decreases |s| - from
    ensures from <= r <= |s|
    ensures forall j :: from <= j < r ==> IsWordChar(s[j])
    ensures r < |s| ==> !IsWordChar(s[r])
  {
    if from < |s| && IsWordChar(s[from]) then WordEnd(s, from + 1) else from
  }

  /** Where `(\w+)?\n?` ends when it starts at `from`: after the language word and the
      newline that follows it. */
  function TagEnd(s: string, from: nat): (r: nat)
    requires from <= |s|
    ensures from <= r <= |s|
    ensures r == WordEnd(s, from) || (r == WordEnd(s, from) + 1 && s[r - 1] == '\n')
  {
    var k := WordEnd(s, from);
    if k < |s| && s[k] == '\n' then k + 1 else k
  }

  /** `replace(/```(\w+)?\n?/g, '')` from position `i` on, scanning left to right: each
      mark goes with the word and the newline after it, every other character stays. */
  function StripFrom(s: string, i: nat): string
    requires i <= |s|
    decreases |s| - i
  {
    if OccursAt(s, FenceMark, i) then StripFrom(s, TagEnd(s, i + 3))
    else if i == |s| then []
    else [s[i]] + StripFrom(s, i + 1)
  }

  /** `replace(/```$/g, '')`: a mark at the very end goes. */
  function DropClosingMark(s: string): (r: string)
    ensures EndsWith(s, FenceMark) ==> r + FenceMark == s
    ensures !EndsWith(s, FenceMark) ==> r == s
  {
    if EndsWith(s, FenceMark) then s[..|s| - 3] else s
  }

  /** The text of a code block. */
  function CodeContent(part: string): string {
    DropClosingMark(StripFrom(part, 0))
  }

  /** From `i` up to a closing mark at the end, text without marks is kept as it is. */
  lemma {:induction false} StripPlain(s: string, i: nat, n: nat)
    requires i <= n && n + 3 == |s| && OccursAt(s, FenceMark, n)
    requires forall j :: i <= j < n ==> !OccursAt(s, FenceMark, j)
    ensures StripFrom(s, i) == s[i..n]
    decreases n - i
  {
    if i < n {
      StripPlain(s, i + 1, n);
      assert [s[i]] + s[i + 1..n] == s[i..n];
    }
  }

  /** A fenced block shows the text between its marks, from the end of the language
      word and the newline after the opening mark. */
  lemma FenceContent(m: string)
    requires IsMatch(Fence, m)
    ensures TagEnd(m, 3) <= |m| - 3
    ensures CodeContent(m) == m[TagEnd(m, 3)..|m| - 3]
  {
    var n := |m| - 3;
    assert OccursAt(m, FenceMark, 0) && OccursAt(m, FenceMark, n);
    assert m[n] == '`';
    var a := TagEnd(m, 3);
    StripPlain(m, a, n);
    var c := m[a..n];
    if EndsWith(c, FenceMark) {
      assert m[n - 3..n] == c[|c| - 3..];
      assert OccursAt(m, FenceMark, n - 3);
    }
  }

  // ---- Inline code and bold text ----

  /** A piece of a text part: as it is, bold, or inline code. */
  datatype Piece = Plain(text: string) | Strong(text: string) | Code(text: string)

  /** The source text a piece stands for, with its markers. */
  function Source(p: Piece): string {
    match p
    case Plain(t) => t
    case Strong(t) => "**" + t + "**"
    case Code(t) => "`" + t + "`"
  }

  /** One segment of the bold split: bold when it begins and ends with `**`. */
  function BoldPiece(b: string): (r: Piece)
    ensures IsMatch(Stars, b) ==> r == Strong(b[2..|b| - 2]) && Source(r) == b
    ensures !(StartsWith(b, "**") && EndsWith(b, "**")) ==> r == Plain(b)
  {
    if StartsWith(b, "**") && EndsWith(b, "**") then Strong(Slice(b, 2, -2)) else Plain(b)
  }

  function BoldPieces(seg: string): (r: seq<Piece>)
    ensures |r| == |Split(Stars, seg)|
    ensures forall j :: 0 <= j < |r| ==> r[j] == BoldPiece(Split(Stars, seg)[j])
  {
    var bs := Split(Stars, seg);
    seq(|bs|, j requires 0 <= j < |bs| => BoldPiece(bs[j]))
  }

  /** One segment of the inline-code split: code when it begins and ends with a
      backtick, otherwise split again for bold text. */
  function TickPieces(seg: string): (r: seq<Piece>)
    ensures IsMatch(Tick, seg) ==> r == [Code(seg[1..|seg| - 1])] && Source(r[0]) == seg
    ensures !(StartsWith(seg, "`") && EndsWith(seg, "`")) ==> r == BoldPieces(seg)
  {
    if StartsWith(seg, "`") && EndsWith(seg, "`") then [Code(Slice(seg, 1, -1))] else BoldPieces(seg)
  }

  function TickPiecesAll(segs: seq<string>): seq<Piece> {
    if segs == [] then [] else TickPieces(segs[0]) + TickPiecesAll(segs[1..])
  }

  /** The pieces of a text part. */
  function InlinePieces(part: string): seq<Piece> {
    TickPiecesAll(Split(Tick, part))
  }

  /** The source text of pieces in order. */
  function SourceAll(ps: seq<Piece>): string {
    if ps == [] then "" else Source(ps[0]) + SourceAll(ps[1..])
  }

  /** `s` looks like a delimited span to the `startsWith`/`endsWith` test. */
  predicate Delimited(s: string, mark: string) {
    StartsWith(s, mark) && EndsWith(s, mark)
  }

  /** No text between bold matches passes the bold test. */
  predicate PlainBetweenStars(seg: string) {
    forall k :: 0 <= k < |Split(Stars, seg)| && k % 2 == 0 ==> !Delimited(Split(Stars, seg)[k], "**")
  }

  /** No text between inline-code matches passes the inline-code test, and within each
      such text no text between bold matches passes the bold test. */
  predicate PlainBetweenMarks(part: string) {
    forall j :: 0 <= j < |Split(Tick, part)| && j % 2 == 0 ==>
      !Delimited(Split(Tick, part)[j], "`") && PlainBetweenStars(Split(Tick, part)[j])
  }

  /** Markers are the only thing rendering drops: when the text between matches does not
      itself look delimited, putting the markers back gives the part. */
  lemma InlineSourceRoundTrip(part: string)
    requires PlainBetweenMarks(part)
    ensures SourceAll(InlinePieces(part)) == part
  {
    var segs := Split(Tick, part);
    forall j | 0 <= j < |segs|
      ensures SourceAll(TickPieces(segs[j])) == segs[j]
    {
      if j % 2 == 1 {
        assert SourceAll([Code(segs[j][1..|segs[j]| - 1])]) == Source(Code(segs[j][1..|segs[j]| - 1]));
      } else {
        BoldSourceRoundTrip(segs[j]);
      }
    }
    TickSources(segs);
    SplitConcat(Tick, part);
  }

  lemma BoldSourceRoundTrip(seg: string)
    requires PlainBetweenStars(seg)
    ensures SourceAll(BoldPieces(seg)) == seg
  {
    var bs := Split(Stars, seg);
    SourcesOf(BoldPieces(seg), bs);
    SplitConcat(Stars, seg);
  }

  lemma {:induction false} SourcesOf(ps: seq<Piece>, bs: seq<string>)
    requires |ps| == |bs| && forall j :: 0 <= j < |ps| ==> Source(ps[j]) == bs[j]
    ensures SourceAll(ps) == Concat(bs)
  {
    if ps != [] {
      SourcesOf(ps[1..], bs[1..]);
    }
  }

  lemma {:induction false} TickSources(segs: seq<string>)
    requires forall j :: 0 <= j < |segs| ==> SourceAll(TickPieces(segs[j])) == segs[j]
    ensures SourceAll(TickPiecesAll(segs)) == Concat(segs)
  {
    if segs != [] {
      TickSources(segs[1..]);
      SourceAllAppend(TickPieces(segs[0]), TickPiecesAll(segs[1..]));
    }
  }

  lemma {:induction false} SourceAllAppend(a: seq<Piece>, b: seq<Piece>)
    ensures SourceAll(a + b) == SourceAll(a) + SourceAll(b)
  {
    if a == [] {
      assert a + b == b;
    } else {
      assert (a + b)[0] == a[0] && (a + b)[1..] == a[1..] + b;
      SourceAllAppend(a[1..], b);
    }
  }

  /** Text with neither backticks nor asterisks is shown as it is. */
  lemma PlainTextUnchanged(part: string)
    requires forall i :: 0 <= i < |part| ==> part[i] != '`' && part[i] != '*'
    ensures InlinePieces(part) == [Plain(part)]
  {
    NoMatchWithout(Tick, part);
    NoMatchWithout(Stars, part);
    assert !StartsWith(part, "`") && !StartsWith(part, "**") by {
      if part != [] {
        assert part[..1][0] == part[0];
      }
    }
    assert BoldPieces(part) == [Plain(part)];
    assert TickPiecesAll([part]) == TickPieces(part) + TickPiecesAll([]);
  }

  /** Without the pattern's delimiter character nothing matches, and the split is the
      text alone. */
  lemma NoMatchWithout(pat: Pattern, s: string)
    requires pat != Fence
    requires forall i :: 0 <= i < |s| ==> s[i] != '`' && s[i] != '*'
    ensures Split(pat, s) == [s]
  {
    forall a, b | 0 <= a <= b <= |s|
      ensures !IsMatch(pat, s[a..b])
    {
      assert s[a..b] == [] || s[a..b][0] == s[a];
    }
  }

  /** A lone backtick passes the source's test for inline code and is shown as empty
      code, so the character itself is not displayed. */
  lemma LoneBacktickShownAsCode()
    ensures TickPieces("`") == [Code("")]
  {
  }

  // ---- The whole text ----

  /** A part of the fence split: a code block when it begins with a fence mark. */
  datatype Block = CodeBlock(code: string) | Span(pieces: seq<Piece>)

  function RenderPart(part: string): (b: Block)
    ensures StartsWith(part, FenceMark) ==> b == CodeBlock(CodeContent(part))
    ensures !StartsWith(part, FenceMark) ==> b == Span(InlinePieces(part))
  {
    if StartsWith(part, FenceMark) then CodeBlock(CodeContent(part)) else Span(InlinePieces(part))
  }

  /** `formatContent(text)`: nothing for absent or empty text, otherwise one block per
      part of the fence split. */
  function FormatContent(text: Option<string>): (r: Option<seq<Block>>)
    ensures r.None? <==> text.None? || text.value == []
    ensures r.Some? ==>
      |r.value| == |Split(Fence, text.value)|
      && forall j :: 0 <= j < |r.value| ==> r.value[j] == RenderPart(Split(Fence, text.value)[j])
  {
    match text
    case None => None
    case Some(t) =>
      if t == [] then None
      else
        var parts := Split(Fence, t);
        Some(seq(|parts|, j requires 0 <= j < |parts| => RenderPart(parts[j])))
  }

  /** Every fenced block of the text is shown as a code block holding the text between
      its marks, less the language word and the newline after the opening mark. */
  lemma FencedBlocksShown(t: string, j: nat, m: string)
    requires t != [] && j < |Split(Fence, t)| && j % 2 == 1 && m == Split(Fence, t)[j]
    ensures TagEnd(m, 3) <= |m| - 3
    ensures FormatContent(Some(t)).value[j] == CodeBlock(m[TagEnd(m, 3)..|m| - 3])
  {
    FenceBlock(m);
  }

  lemma FenceBlock(m: string)
    requires IsMatch(Fence, m)
    ensures TagEnd(m, 3) <= |m| - 3 && RenderPart(m) == CodeBlock(m[TagEnd(m, 3)..|m| - 3])
  {
    FenceContent(m);
  }

  // ---- Asking for an analysis ----

  const NoCodeError: string := "Please write some code first"
  const RejectedFallback: string := "Failed to analyze code"
  const FailedFallback: string := "Failed to analyze code. Please try again."

  /** The body of the analysis request. */
  datatype AnalyzeBody = AnalyzeBody(
    code: string, title: Value, description: Value, examples: Value, constraints: Value,
    language: string)

  /** How the request ends: a decoded reply with the response's `ok` flag, or an error
      thrown by `fetch` or by decoding the reply, with its message. */
  datatype Reply = Answered(ok: bool, data: Value) | Thrown(message: string)

  /** `err.message || 'Failed to analyze code. Please try again.'` */
  function ShownMessage(message: string): (r: string)
    ensures r != []
    ensures message != [] ==> r == message
  {
    if message != [] then message else FailedFallback
  }

  /** How a request that was made ends: the analysis to store, or the message to show.
      A reply that is not `ok` throws `new Error(data.error || 'Failed to analyze code')`;
      a reply body of `null` throws when `error` or `analysis` is read from it. */
  function ReplyOutcome(h: Host, reply: Reply): (r: Result<Value>)
    ensures r.Ok? <==> reply.Answered? && reply.ok && !reply.data.Null?
    ensures r.Ok? ==> r.value == Prop(reply.data, "analysis")
    ensures r.Err? ==> r.error != []
    ensures reply.Thrown? ==> r == Err(ShownMessage(reply.message))
    ensures reply.Answered? && !reply.ok && !reply.data.Null? && !Truthy(Prop(reply.data, "error")) ==>
      r == Err(RejectedFallback)
  {
    match reply
    case Thrown(m) => Err(ShownMessage(m))
    case Answered(ok, data) =>
      if data.Null? then
        Err(ReadError(data, if ok then "analysis" else "error"))
      else if ok then Ok(Prop(data, "analysis"))
      else
        var e := Prop(data, "error");
        Err(ShownMessage(if Truthy(e) then ToJsString(h, e) else RejectedFallback))
  }

  /** The sidebar's state cells. */
  class Sidebar {
    var analysis: Value
    var loading: bool
    var error: Option<string>

    constructor ()
      ensures analysis == Null && !loading && error.None?
    {
      analysis := Null;
      loading := false;
      error := None;
    }

    /** The effect on opening: an analysis starts when there is none and none is
        running. */
    predicate AutoAnalyzes(isOpen: bool)
      reads this
    {
      isOpen && !Truthy(analysis) && !loading
    }

    /** `analyzeCode` up to the request: without code or a question the error is set and
        no request is made; otherwise loading starts, the error clears and the body is
        sent. */
    method BeginAnalysis(code: string, question: Value, language: string) returns (request: Option<AnalyzeBody>)
      modifies this
      ensures analysis == old(analysis)
      ensures request.None? <==> code == [] || !Truthy(question)
      ensures request.None? ==> error == Some(NoCodeError) && loading == old(loading)
      ensures request.Some? ==>
        loading && error.None?
        && request.value == AnalyzeBody(code, Prop(question, "title"), Prop(question, "description"),
                                        Prop(question, "examples"), Prop(question, "constraints"), language)
    {
      if code == [] || !Truthy(question) {
        error := Some(NoCodeError);
        return None;
      }
      loading := true;
      error := None;
      request := Some(AnalyzeBody(code, Prop(question, "title"), Prop(question, "description"),
                                  Prop(question, "examples"), Prop(question, "constraints"), language));
    }

    /** The rest of `analyzeCode`: an accepted reply stores its analysis, a failure its
        message, and loading stops either way. */
    method FinishAnalysis(h: Host, reply: Reply)
      modifies this
      ensures !loading
      ensures ReplyOutcome(h, reply).Ok? ==>
        analysis == ReplyOutcome(h, reply).value && error == old(error)
      ensures ReplyOutcome(h, reply).Err? ==>
        analysis == old(analysis) && error == Some(ReplyOutcome(h, reply).error)
    {
      match ReplyOutcome(h, reply) {
        case Ok(a) => analysis := a;
        case Err(m) => error := Some(m);
      }
      loading := false;
    }

    /** `analyzeCode` as a whole, with `reply` standing for how the request ends. */
    method AnalyzeCode(h: Host, code: string, question: Value, language: string, reply: Reply)
      returns (request: Option<AnalyzeBody>)
      modifies this
      ensures request.None? <==> code == [] || !Truthy(question)
      ensures request.None? ==>
        error == Some(NoCodeError) && analysis == old(analysis) && loading == old(loading)
      ensures request.Some? ==> request.value.code == code && request.value.language == language && !loading
      ensures request.Some? && ReplyOutcome(h, reply).Ok? ==>
        analysis == ReplyOutcome(h, reply).value && error.None?
      ensures request.Some? && ReplyOutcome(h, reply).Ok? && Truthy(ReplyOutcome(h, reply).value) ==>
        ShowsAnalysis() && !AutoAnalyzes(true)
      ensures request.Some? && ReplyOutcome(h, reply).Err? ==>
        analysis == old(analysis) && error == Some(ReplyOutcome(h, reply).error)
    {
      request := BeginAnalysis(code, question, language);
      if request.Some? {
        FinishAnalysis(h, reply);
      }
    }

    /** The results panel shows: an analysis, nothing loading and no error. */
    predicate ShowsAnalysis()
      reads this
    {
      Truthy(analysis) && !loading && error.None?
    }
  }
}
