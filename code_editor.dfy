/** The "Run Code" button of the lesson code editor. Nothing is interpreted:
    the editor text is split into lines, the lines whose trimmed text starts
    with `print` are kept, and each kept line shows either the text between
    its first `print(` and its last `)` with the quote characters deleted,
    or (when the regular expression /print\((.*)\)/ does not match) the line
    itself. Two banner lines come first. */
module CodeEditor {
  import opened JsString
  import Seqs

  datatype Option<T> = None | Some(value: T)

  const SuccessBanner := "-- Code executed successfully!"
  const DisclaimerBanner := "-- Output would appear here when Lua interpreter is integrated"
  const Banners := [SuccessBanner, DisclaimerBanner]

  /** What the output panel shows while no run has happened yet. */
  const Placeholder := "Click \"Run Code\" to see output"

  /** The literal part of the regular expression before the capture group. */
  const Opener := "print("

  /** The prefix a line's trimmed text must start with to be kept. */
  const Keyword := "print"

  // ---------------------------------------------------------------------
  // The regular expression /print\((.*)\)/
  // ---------------------------------------------------------------------

  /** line[k] is a `)` that `.*` can reach from position from: no line
      terminator lies in line[from..k]. */
  predicate ClosesAt(line: string, from: nat, k: nat)
  {
    from <= k < |line| && line[k] == ')' &&
    forall m :: from <= m < k ==> !IsLineTerminator(line[m])
  }

  /** The regular expression matches line[i..k + 1], capturing line[i + 6..k]. */
  predicate MatchesAt(line: string, i: nat, k: nat)
  {
    OccursAt(line, Opener, i) && ClosesAt(line, i + |Opener|, k)
  }

  /** The match JavaScript reports: the leftmost starting position, and at
      that position the longest capture (greedy `.*`). */
  ghost predicate IsRegexMatch(line: string, i: nat, k: nat)
  {
    MatchesAt(line, i, k) &&
    (forall j: nat, m: nat :: MatchesAt(line, j, m) ==> i <= j) &&
    (forall m: nat :: MatchesAt(line, i, m) ==> m <= k)
  }

  /** The last `)` reachable from position from, if any. */
  function LastClose(line: string, from: nat): (r: Option<nat>)
    ensures r.Some? ==> ClosesAt(line, from, r.value)
    ensures forall k: nat :: ClosesAt(line, from, k) ==> r.Some? && k <= r.value
    decreases |line| - from
  {
    if from >= |line| || IsLineTerminator(line[from]) then None
    else
      assert forall k: nat :: from < k && ClosesAt(line, from, k) ==> ClosesAt(line, from + 1, k);
      match LastClose(line, from + 1)
      case Some(k) => Some(k)
      case None => if line[from] == ')' then Some(from) else None
  }

  /** Where a match starts and where its closing `)` stands. */
  datatype Span = Span(open: nat, close: nat)

  /** The leftmost match starting at or after position i, greedy at its start. */
  function FindMatch(line: string, i: nat): (r: Option<Span>)
    ensures r.Some? ==> i <= r.value.open && MatchesAt(line, r.value.open, r.value.close)
    ensures r.Some? ==> forall m: nat :: MatchesAt(line, r.value.open, m) ==> m <= r.value.close
    ensures forall j: nat, m: nat :: i <= j && MatchesAt(line, j, m) ==> r.Some? && r.value.open <= j
    decreases |line| - i
  {
    if |line| < i + |Opener| then None
    else if OccursAt(line, Opener, i) && LastClose(line, i + |Opener|).Some? then
      Some(Span(i, LastClose(line, i + |Opener|).value))
    else
      FindMatch(line, i + 1)
  }

  /** line.match(/print\((.*)\)/): the capture group of JavaScript's match,
      or None when the expression matches nowhere in line. */
  function MatchPrint(line: string): (r: Option<string>)
    ensures r.None? <==> forall i: nat, k: nat :: !MatchesAt(line, i, k)
    ensures r.Some? ==> exists i: nat, k: nat :: IsRegexMatch(line, i, k) && r.value == line[i + |Opener|..k]
  {
    match FindMatch(line, 0)
    case None => None
    case Some(sp) =>
      assert IsRegexMatch(line, sp.open, sp.close);
      Some(line[sp.open + |Opener|..sp.close])
  }

  /** A capture never spans a line terminator. */
  lemma MatchPrintOneLine(line: string)
    requires MatchPrint(line).Some?
    ensures forall m :: 0 <= m < |MatchPrint(line).value| ==> !IsLineTerminator(MatchPrint(line).value[m])
  {
    var i: nat, k: nat :| IsRegexMatch(line, i, k) && MatchPrint(line).value == line[i + |Opener|..k];
    var c := MatchPrint(line).value;
    assert forall m :: 0 <= m < |c| ==> c[m] == line[i + |Opener| + m];
  }

  /** No line terminator occurs in s. */
  predicate OnOneLine(s: string)
  {
    forall m :: 0 <= m < |s| ==> !IsLineTerminator(s[m])
  }

  /** A line made of a prefix, `print(`, a body, `)` and a tail. */
  function CallLine(pre: string, body: string, tail: string): (line: string)
    ensures |line| == |pre| + |Opener| + |body| + 1 + |tail|
  {
    pre + Opener + body + ")" + tail
  }

  /** A prefix that cannot hold the start of a match: it has no `p`, or it
      has no `)` and ends with a line terminator. */
  predicate NoMatchIn(pre: string)
  {
    'p' !in pre || (')' !in pre && pre != [] && IsLineTerminator(pre[|pre| - 1]))
  }

  /** The call after the prefix matches, closing at the `)` after the body. */
  lemma CallLineMatches(pre: string, body: string, tail: string)
    requires OnOneLine(body)
    ensures MatchesAt(CallLine(pre, body, tail), |pre|, |pre| + |Opener| + |body|)
  {
    var line := CallLine(pre, body, tail);
    var i, k := |pre|, |pre| + |Opener| + |body|;
    assert line[i..i + |Opener|] == Opener;
    assert line[k] == ')';
    forall m | i + |Opener| <= m < k
      ensures !IsLineTerminator(line[m])
    {
      assert line[m] == body[m - i - |Opener|];
    }
  }

  /** No match starts inside the prefix. */
  lemma CallLineNoEarlierMatch(pre: string, body: string, tail: string, j: nat, m: nat)
    requires NoMatchIn(pre)
    requires j < |pre|
    ensures !MatchesAt(CallLine(pre, body, tail), j, m)
  {
    var line := CallLine(pre, body, tail);
    var t := |pre| - 1;
    if 'p' !in pre {
      assert line[j] == pre[j] && pre[j] in pre;
      if j + |Opener| <= |line| {
        assert line[j..j + |Opener|][0] == line[j];
      }
    } else if j + |Opener| > t {
      assert line[t] == pre[t];
      if j + |Opener| <= |line| {
        assert line[j..j + |Opener|][t - j] == line[t];
      }
    } else {
      assert line[t] == pre[t];
      if m < |pre| {
        assert line[m] == pre[m] && pre[m] in pre;
      }
    }
  }

  /** No `)` stands after the body's closing one. */
  lemma CallLineLastClose(pre: string, body: string, tail: string, m: nat)
    requires ')' !in tail
    requires |pre| + |Opener| + |body| < m < |CallLine(pre, body, tail)|
    ensures CallLine(pre, body, tail)[m] != ')'
  {
    var line := CallLine(pre, body, tail);
    assert line[m] == tail[m - (|pre| + |Opener| + |body| + 1)];
  }

  /** The text between `print(` and the closing `)` is the body. */
  lemma CallLineBody(pre: string, body: string, tail: string)
    ensures CallLine(pre, body, tail)[|pre| + |Opener|..|pre| + |Opener| + |body|] == body
  {
  }

  /** The only leftmost-greedy match of a call line is the call itself. */
  lemma CallLineRegexMatch(pre: string, body: string, tail: string, j: nat, m: nat)
    requires NoMatchIn(pre)
    requires OnOneLine(body)
    requires ')' !in tail
    requires IsRegexMatch(CallLine(pre, body, tail), j, m)
    ensures j == |pre| && m == |pre| + |Opener| + |body|
  {
    CallLineMatches(pre, body, tail);
    if j < |pre| {
      CallLineNoEarlierMatch(pre, body, tail, j, m);
    }
    if m > |pre| + |Opener| + |body| {
      CallLineLastClose(pre, body, tail, m);
    }
  }

  /** The match of a call line whose prefix cannot start a match, whose body
      lies on one line and whose tail has no `)`: the capture is the body. */
  lemma MatchPrintShape(pre: string, body: string, tail: string)
    requires NoMatchIn(pre)
    requires OnOneLine(body)
    requires ')' !in tail
    ensures MatchPrint(CallLine(pre, body, tail)) == Some(body)
  {
    var line := CallLine(pre, body, tail);
    CallLineMatches(pre, body, tail);
    assert MatchPrint(line).Some?;
    var j: nat, m: nat :| IsRegexMatch(line, j, m) && MatchPrint(line).value == line[j + |Opener|..m];
    CallLineRegexMatch(pre, body, tail, j, m);
    CallLineBody(pre, body, tail);
  }

  /** Without a `)` the expression cannot match. */
  lemma MatchPrintNoClose(line: string)
    requires ')' !in line
    ensures MatchPrint(line) == None
  {
    forall i: nat, k: nat ensures !MatchesAt(line, i, k) {
      if k < |line| {
        assert line[k] in line;
      }
    }
  }

  // ---------------------------------------------------------------------
  // Rendering one kept line
  // ---------------------------------------------------------------------

  /** capture.replace(/"/g, '').replace(/'/g, ''). */
  function StripQuotes(s: string): (r: string)
    ensures '"' !in r && '\'' !in r
    ensures |r| <= |s|
  {
    RemoveAll(RemoveAll(s, '"'), '\'')
  }

  /** Stripping a concatenation strips each part. */
  lemma StripQuotesAppend(a: string, b: string)
    ensures StripQuotes(a + b) == StripQuotes(a) + StripQuotes(b)
  {
    RemoveAllAppend(a, b, '"');
    RemoveAllAppend(RemoveAll(a, '"'), RemoveAll(b, '"'), '\'');
  }

  /** Text without quote characters passes through unchanged. */
  lemma StripQuotesQuoteFree(s: string)
    requires '"' !in s && '\'' !in s
    ensures StripQuotes(s) == s
  {
    RemoveAllAbsent(s, '"');
    RemoveAllAbsent(s, '\'');
  }

  /** The characters StripQuotes deletes are exactly the quote characters. */
  lemma StripQuotesChar(c: char)
    ensures StripQuotes([c]) == if c == '"' || c == '\'' then "" else [c]
  {
  }

  /** The output line for one kept line: the quote-free capture on a match,
      the untouched line otherwise. */
  function RenderLine(line: string): (r: string)
    ensures MatchPrint(line).None? ==> r == line
    ensures MatchPrint(line).Some? ==> r == StripQuotes(MatchPrint(line).value)
    ensures MatchPrint(line).Some? ==> '"' !in r && '\'' !in r && |r| + |Opener| + 1 <= |line|
  {
    match MatchPrint(line)
    case Some(capture) => StripQuotes(capture)
    case None => line
  }

  /** The filter condition: the trimmed line starts with `print`. */
  predicate IsPrintLine(line: string)
  {
    StartsWith(Trim(line), Keyword)
  }

  /** Only leading whitespace matters to the filter. */
  lemma IsPrintLineLeading(line: string)
    ensures IsPrintLine(line) <==> StartsWith(TrimStart(line), Keyword)
  {
    TrimEndPrefix(TrimStart(line), Keyword);
  }

  /** A line indented by spaces whose text then starts with `print` is kept. */
  lemma IsPrintLineIndented(indent: string, rest: string)
    requires forall k :: 0 <= k < |indent| ==> indent[k] == ' '
    requires StartsWith(rest, Keyword)
    ensures IsPrintLine(indent + rest)
  {
    TrimStartSkips(indent, rest);
    IsPrintLineLeading(indent + rest);
  }

  /** A line whose first characters are `print` is kept. */
  lemma IsPrintLineStart(line: string)
    requires StartsWith(line, Keyword)
    ensures IsPrintLine(line)
  {
    IsPrintLineIndented("", line);
    assert "" + line == line;
  }

  // ---------------------------------------------------------------------
  // The whole transform
  // ---------------------------------------------------------------------

  /** The derived output lines of code: one per kept line, in source order. */
  function PrintedLines(code: string): (r: seq<string>)
    ensures |r| == Seqs.Count(SplitLines(code), IsPrintLine)
  {
    Seqs.FilterCount(SplitLines(code), IsPrintLine);
    Seqs.Map(Seqs.Filter(SplitLines(code), IsPrintLine), RenderLine)
  }

  /** The outcome of the guarded block of runCode. */
  datatype Attempt = Completed(lines: seq<string>) | Faulted(description: string)

  /** The body of runCode's try block. Splitting, trimming, matching and
      replacing are total on strings, so it always completes. */
  function Transform(code: string): (a: Attempt)
    ensures a.Completed?
    ensures |a.lines| >= 2 && a.lines[..2] == Banners
  {
    Completed(Banners + PrintedLines(code))
  }

  /** runCode's try/catch: the completed lines, or the single error line. */
  function Guard(a: Attempt): (r: seq<string>)
    ensures a.Faulted? ==> |r| == 1 && StartsWith(r[0], "Error: ") && r[0][|"Error: "|..] == a.description
    ensures a.Completed? ==> r == a.lines
  {
    match a
    case Completed(lines) => lines
    case Faulted(description) => ["Error: " + description]
  }

  /** What runCode puts into the output panel for the editor text code. */
  function Evaluate(code: string): (r: seq<string>)
    ensures |r| == 2 + Seqs.Count(SplitLines(code), IsPrintLine)
    ensures r[0] == SuccessBanner && r[1] == DisclaimerBanner
    ensures r[2..] == PrintedLines(code)
  {
    Guard(Transform(code))
  }

  /** A single line contributes its rendering when it is kept and nothing otherwise. */
  lemma PrintedLinesSingle(line: string)
    requires '\n' !in line
    ensures PrintedLines(line) == if IsPrintLine(line) then [RenderLine(line)] else []
  {
    SplitLinesSingle(line);
  }

  /** Source order: the lines before a newline come out before the lines after it. */
  lemma PrintedLinesAppend(a: string, b: string)
    ensures PrintedLines(a + "\n" + b) == PrintedLines(a) + PrintedLines(b)
  {
    SplitLinesAppend(a, b);
    Seqs.FilterAppend(SplitLines(a), SplitLines(b), IsPrintLine);
    Seqs.MapAppend(Seqs.Filter(SplitLines(a), IsPrintLine), Seqs.Filter(SplitLines(b), IsPrintLine), RenderLine);
  }

  /** The derived lines of each line of a list, concatenated in order. */
  function PrintedEach(lines: seq<string>): seq<string>
  {
    if lines == [] then [] else PrintedLines(lines[0]) + PrintedEach(lines[1..])
  }

  /** The derived lines of text written as newline-free lines are those of
      each line in turn. */
  lemma {:induction false} PrintedLinesJoin(lines: seq<string>)
    requires |lines| >= 1
    requires forall i :: 0 <= i < |lines| ==> '\n' !in lines[i]
    ensures PrintedLines(JoinLines(lines)) == PrintedEach(lines)
  {
    if |lines| > 1 {
      PrintedLinesJoin(lines[1..]);
      PrintedLinesAppend(lines[0], JoinLines(lines[1..]));
    }
  }

  /** Every derived line is the rendering of a kept line of the text. */
  lemma PrintedLinesFromSource(code: string, j: nat)
    requires j < |PrintedLines(code)|
    ensures exists line :: line in SplitLines(code) && IsPrintLine(line) && PrintedLines(code)[j] == RenderLine(line)
  {
    var kept := Seqs.Filter(SplitLines(code), IsPrintLine);
    Seqs.FilterMembers(SplitLines(code), IsPrintLine, kept[j]);
  }

  /** Text with no kept line produces the two banners alone. */
  lemma EvaluateNoPrintLines(code: string)
    requires forall line :: line in SplitLines(code) ==> !IsPrintLine(line)
    ensures Evaluate(code) == Banners
  {
    var kept := Seqs.Filter(SplitLines(code), IsPrintLine);
    if kept != [] {
      Seqs.FilterMembers(SplitLines(code), IsPrintLine, kept[0]);
    }
  }

  /** The empty editor produces the two banners alone. */
  lemma EvaluateEmpty()
    ensures Evaluate("") == Banners
  {
    EvaluateNoPrintLines("");
  }

  // ---------------------------------------------------------------------
  // The editor component's state
  // ---------------------------------------------------------------------

  /** The component's `code` and `output` state. */
  class Editor {
    var code: string
    var output: seq<string>

    /** Mounting with the caller's initial code and an empty output. */
    constructor (initialCode: string)
      ensures code == initialCode && output == []
    {
      code := initialCode;
      output := [];
    }

    /** The editor's onChange: the text is replaced wholesale. */
    method SetCode(value: string)
      modifies this
      ensures code == value && output == old(output)
    {
      code := value;
    }

    /** The "Run Code" button: output is replaced, never appended to, and
      code is left as it was. */
    method Run()
      modifies this
      ensures code == old(code)
      ensures output == Evaluate(code)
      ensures output[..2] == Banners
    {
      output := Evaluate(code);
    }

    /** The lines the output panel shows. */
    function Panel(): (lines: seq<string>)
      reads this
      ensures output == [] ==> lines == [Placeholder]
      ensures output != [] ==> lines == output
    {
      if output == [] then [Placeholder] else output
    }
  }

  /** Running twice in a row shows the same output twice, whatever was shown before. */
  method RunTwice(e: Editor) returns (first: seq<string>, second: seq<string>)
    modifies e
    ensures first == second == Evaluate(old(e.code))
    ensures e.Panel() == second
  {
    e.Run();
    first := e.output;
    e.Run();
    second := e.output;
  }
}
