/** The transform applied to sample lines taken from the lesson pages, to the
    edge cases of the greedy, unbalanced match, and to a whole sample
    program. Each example is taken in small steps: the shape of the line,
    its capture, its rendering.

    The lemmas named `...Shape` (and `...Prefix`, `...Plain`) state no
    property of the editor: each only re-reads a string literal as a
    concatenation of the parts the general lemmas talk about, such as
    `CallLine(pre, body, tail)`. They are kept separate because the verifier
    settles one such literal equality at a time far more cheaply than
    several inside a larger proof. */
module CodeEditorExamples {
  import opened JsString
  import opened CodeEditor

  /** A string literal in double quotes loses both quotes. */
  lemma StripQuotesQuoted(s: string)
    requires '"' !in s && '\'' !in s
    ensures StripQuotes("\"" + s + "\"") == s
  {
    StripQuotesAppend("\"" + s, "\"");
    StripQuotesAppend("\"", s);
    StripQuotesChar('"');
    StripQuotesQuoteFree(s);
  }

  /** Two string literals joined by quote-free text lose their four quotes. */
  lemma StripQuotesTwoQuoted(a: string, mid: string, b: string)
    requires '"' !in a && '\'' !in a
    requires '"' !in mid && '\'' !in mid
    requires '"' !in b && '\'' !in b
    ensures StripQuotes("\"" + a + "\"" + mid + "\"" + b + "\"") == a + mid + b
  {
    var left := "\"" + a + "\"";
    var right := "\"" + b + "\"";
    assert "\"" + a + "\"" + mid + "\"" + b + "\"" == left + (mid + right);
    StripQuotesAppend(left, mid + right);
    StripQuotesAppend(mid, right);
    StripQuotesQuoted(a);
    StripQuotesQuoted(b);
    StripQuotesQuoteFree(mid);
  }

  // src/pages/Introduction.tsx:11 -------------------------------------------

  lemma HelloWorldShape()
    ensures "print(\"Hello, World!\")" == CallLine("", "\"Hello, World!\"", "")
    ensures "\"Hello, World!\"" == "\"" + "Hello, World!" + "\""
  {
  }

  lemma HelloWorldCapture()
    ensures MatchPrint("print(\"Hello, World!\")") == Some("\"Hello, World!\"")
  {
    HelloWorldShape();
    MatchPrintShape("", "\"Hello, World!\"", "");
  }

  /** The line is kept and the quotes around the string literal disappear. */
  lemma HelloWorld()
    ensures IsPrintLine("print(\"Hello, World!\")")
    ensures RenderLine("print(\"Hello, World!\")") == "Hello, World!"
  {
    IsPrintLineStart("print(\"Hello, World!\")");
    HelloWorldCapture();
    HelloWorldShape();
    StripQuotesQuoted("Hello, World!");
  }

  // src/pages/Introduction.tsx:16 -------------------------------------------

  lemma PrintVariableShape()
    ensures "print(message)" == CallLine("", "message", "")
  {
  }

  /** A variable name is shown, not its value. */
  lemma PrintVariable()
    ensures RenderLine("print(message)") == "message"
  {
    PrintVariableShape();
    MatchPrintShape("", "message", "");
    StripQuotesQuoteFree("message");
  }

  // src/pages/LessonVariables.tsx:30 ----------------------------------------

  lemma NestedCallShape()
    ensures "print(type(str))      -- string" == CallLine("", "type(str)", "      -- string")
  {
  }

  lemma NestedCallCapture()
    ensures MatchPrint("print(type(str))      -- string") == Some("type(str)")
  {
    NestedCallShape();
    MatchPrintShape("", "type(str)", "      -- string");
  }

  /** The capture runs to the last `)`, so the inner call is kept whole and
      the trailing comment is dropped. */
  lemma NestedCall()
    ensures RenderLine("print(type(str))      -- string") == "type(str)"
  {
    NestedCallCapture();
    StripQuotesQuoteFree("type(str)");
  }

  // src/pages/LessonFunctions.tsx:11 ----------------------------------------

  lemma IndentedShape()
    ensures "    print(\"Hello, \" .. name .. \"!\")" == CallLine("    ", "\"Hello, \" .. name .. \"!\"", "")
  {
  }

  lemma IndentedPrefix()
    ensures "    print(\"Hello, \" .. name .. \"!\")" == "    " + "print(\"Hello, \" .. name .. \"!\")"
  {
  }

  lemma IndentedKept()
    ensures IsPrintLine("    print(\"Hello, \" .. name .. \"!\")")
  {
    IndentedPrefix();
    IsPrintLineIndented("    ", "print(\"Hello, \" .. name .. \"!\")");
  }

  lemma IndentedCapture()
    ensures MatchPrint("    print(\"Hello, \" .. name .. \"!\")") == Some("\"Hello, \" .. name .. \"!\"")
  {
    IndentedShape();
    MatchPrintShape("    ", "\"Hello, \" .. name .. \"!\"", "");
  }

  lemma ConcatenationShape()
    ensures "\"Hello, \" .. name .. \"!\"" == "\"" + "Hello, " + "\"" + " .. name .. " + "\"" + "!" + "\""
    ensures "Hello,  .. name .. !" == "Hello, " + " .. name .. " + "!"
  {
  }

  lemma ConcatenationUnquoted()
    ensures StripQuotes("\"Hello, \" .. name .. \"!\"") == "Hello,  .. name .. !"
  {
    ConcatenationShape();
    StripQuotesTwoQuoted("Hello, ", " .. name .. ", "!");
  }

  /** Indented lines are kept and matched too, and the concatenation
      operators come out verbatim. */
  lemma IndentedConcatenation()
    ensures IsPrintLine("    print(\"Hello, \" .. name .. \"!\")")
    ensures RenderLine("    print(\"Hello, \" .. name .. \"!\")") == "Hello,  .. name .. !"
  {
    IndentedKept();
    IndentedCapture();
    ConcatenationUnquoted();
  }

  // Edge cases ---------------------------------------------------------------

  lemma GreedyShape()
    ensures "print(\"a\") -- print(\"b\")" == CallLine("", "\"a\") -- print(\"b\"", "")
  {
  }

  lemma GreedyCapture()
    ensures MatchPrint("print(\"a\") -- print(\"b\")") == Some("\"a\") -- print(\"b\"")
  {
    GreedyShape();
    MatchPrintShape("", "\"a\") -- print(\"b\"", "");
  }

  lemma GreedyBodyShape()
    ensures "\"a\") -- print(\"b\"" == "\"" + "a" + "\"" + ") -- print(" + "\"" + "b" + "\""
    ensures "a) -- print(b" == "a" + ") -- print(" + "b"
  {
  }

  lemma GreedyUnquoted()
    ensures StripQuotes("\"a\") -- print(\"b\"") == "a) -- print(b"
  {
    GreedyBodyShape();
    StripQuotesTwoQuoted("a", ") -- print(", "b");
  }

  /** Two calls on one line: the capture spans from the first `(` to the last `)`. */
  lemma GreedyAcrossCalls()
    ensures RenderLine("print(\"a\") -- print(\"b\")") == "a) -- print(b"
  {
    GreedyCapture();
    GreedyUnquoted();
  }

  lemma MixedQuotesShape()
    ensures "print(\"a'b\")" == CallLine("", "\"a'b\"", "")
    ensures "\"a'b\"" == ("\"" + "a") + ("'" + ("b" + "\""))
    ensures "ab" == "a" + "b"
  {
  }

  lemma MixedQuotesUnquoted()
    ensures StripQuotes("\"a'b\"") == "ab"
  {
    MixedQuotesShape();
    StripQuotesAppend("\"" + "a", "'" + ("b" + "\""));
    StripQuotesAppend("'", "b" + "\"");
    StripQuotesAppend("\"", "a");
    StripQuotesAppend("b", "\"");
    StripQuotesChar('"');
    StripQuotesChar('\'');
    StripQuotesChar('a');
    StripQuotesChar('b');
  }

  /** Both kinds of quote are deleted. */
  lemma MixedQuotes()
    ensures RenderLine("print(\"a'b\")") == "ab"
  {
    MixedQuotesShape();
    MatchPrintShape("", "\"a'b\"", "");
    MixedQuotesUnquoted();
  }

  /** No closing parenthesis: the line is kept and shown as written. */
  lemma Unterminated()
    ensures IsPrintLine("print(\"x")
    ensures RenderLine("print(\"x") == "print(\"x"
  {
    IsPrintLineStart("print(\"x");
    MatchPrintNoClose("print(\"x");
  }

  /** `println` passes the filter but has no `print(`: the line is shown as written. */
  lemma PrintlnFallsBack()
    ensures IsPrintLine("println x")
    ensures RenderLine("println x") == "println x"
  {
    IsPrintLineStart("println x");
    MatchPrintNoClose("println x");
  }

  lemma CarriageReturnShape()
    ensures "print(a\rprint(b)" == CallLine("print(a\r", "b", "")
  {
  }

  /** A carriage return stops `.*`, so the first `print(` cannot match and
      the second one does. */
  lemma CarriageReturnStopsMatch()
    ensures RenderLine("print(a\rprint(b)") == "b"
  {
    CarriageReturnShape();
    MatchPrintShape("print(a\r", "b", "");
    StripQuotesQuoteFree("b");
  }

  /** A line whose first character is not `p` cannot start with `print`. */
  lemma NotKeyword(s: string)
    requires s != [] && s[0] != 'p'
    ensures !StartsWith(s, Keyword)
  {
    assert Keyword[0] == 'p';
  }

  // src/pages/Introduction.tsx:10-16: the whole sample -----------------------

  /** A line that starts with neither whitespace nor `p` is dropped. */
  lemma DroppedLine(line: string)
    requires line != [] && line[0] != 'p' && !IsTrimmable(line[0])
    requires '\n' !in line
    ensures PrintedLines(line) == []
  {
    NotKeyword(line);
    TrimStartSkips("", line);
    assert "" + line == line;
    IsPrintLineLeading(line);
    PrintedLinesSingle(line);
  }

  /** The blank line is dropped. */
  lemma BlankLineDropped()
    ensures PrintedLines("") == []
  {
    PrintedLinesSingle("");
  }

  lemma CommentDropped()
    ensures PrintedLines("-- Your first Lua program") == []
  {
    DroppedLine("-- Your first Lua program");
  }

  lemma SecondCommentDropped()
    ensures PrintedLines("-- Variables are easy to create") == []
  {
    DroppedLine("-- Variables are easy to create");
  }

  lemma LocalDropped()
    ensures PrintedLines("local message = \"Lua is awesome!\"") == []
  {
    DroppedLine("local message = \"Lua is awesome!\"");
  }

  /** Printable ASCII without quote characters. */
  predicate Plain(s: string)
  {
    forall i :: 0 <= i < |s| ==> ' ' <= s[i] <= '~' && s[i] != '"' && s[i] != '\''
  }

  lemma PlainFacts(s: string)
    requires Plain(s)
    ensures '"' !in s && '\'' !in s && OnOneLine(s)
  {
  }

  /** `print` followed by a parenthesised argument list. */
  function PrintCall(args: string): (line: string)
    ensures StartsWith(line, Keyword)
  {
    CallLine("", args, "")
  }

  /** The line `print("s")`. */
  function PrintQuoted(s: string): (line: string)
    ensures StartsWith(line, Keyword)
  {
    PrintCall("\"" + s + "\"")
  }

  lemma QuotedOneLine(s: string)
    requires OnOneLine(s)
    ensures OnOneLine("\"" + s + "\"")
  {
  }

  lemma PrintCallOneLine(args: string)
    requires '\n' !in args
    ensures '\n' !in PrintCall(args)
  {
  }

  /** `print(x)` with a plain argument x shows x. */
  lemma BareCallPrinted(s: string)
    requires Plain(s)
    ensures PrintedLines(PrintCall(s)) == [s]
  {
    PlainFacts(s);
    IsPrintLineStart(PrintCall(s));
    PrintCallOneLine(s);
    MatchPrintShape("", s, "");
    StripQuotesQuoteFree(s);
    PrintedLinesSingle(PrintCall(s));
  }

  /** `print("s")` with plain s shows s without the quotes. */
  lemma QuotedCallPrinted(s: string)
    requires Plain(s)
    ensures PrintedLines(PrintQuoted(s)) == [s]
  {
    var args := "\"" + s + "\"";
    PlainFacts(s);
    QuotedOneLine(s);
    IsPrintLineStart(PrintQuoted(s));
    PrintCallOneLine(args);
    MatchPrintShape("", args, "");
    StripQuotesQuoted(s);
    PrintedLinesSingle(PrintQuoted(s));
  }

  lemma HelloWorldPlain()
    ensures Plain("Hello, World!")
  {
  }

  lemma WelcomePlain()
    ensures Plain("Welcome to Lua programming!")
  {
  }

  lemma MessagePlain()
    ensures Plain("message")
  {
  }

  /** The sample program of the introduction page, line by line. */
  const IntroductionLines: seq<string> := [
    "-- Your first Lua program",
    PrintQuoted("Hello, World!"),
    PrintQuoted("Welcome to Lua programming!"),
    "",
    "-- Variables are easy to create",
    "local message = \"Lua is awesome!\"",
    PrintCall("message")
  ]

  lemma IntroductionLinesOneEach()
    ensures forall i :: 0 <= i < |IntroductionLines| ==> '\n' !in IntroductionLines[i]
  {
    HelloWorldPlain();
    WelcomePlain();
    MessagePlain();
    PlainFacts("Hello, World!");
    PlainFacts("Welcome to Lua programming!");
    QuotedOneLine("Hello, World!");
    QuotedOneLine("Welcome to Lua programming!");
    PrintCallOneLine("\"Hello, World!\"");
    PrintCallOneLine("\"Welcome to Lua programming!\"");
    PrintCallOneLine("message");
  }

  /** PrintedEach on seven lines, spelled out. */
  lemma PrintedEachSeven(a: string, b: string, c: string, d: string, e: string, f: string, g: string)
    ensures PrintedEach([a, b, c, d, e, f, g])
         == PrintedLines(a) + (PrintedLines(b) + (PrintedLines(c) + (PrintedLines(d) + (PrintedLines(e) + (PrintedLines(f) + PrintedLines(g))))))
  {
    var l := [a, b, c, d, e, f, g];
    assert PrintedEach(l[6..]) == PrintedLines(g) by {
      assert l[6..] == [g] && l[6..][1..] == [];
    }
    assert PrintedEach(l[5..]) == PrintedLines(f) + PrintedEach(l[6..]) by {
      assert l[5..][1..] == l[6..];
    }
    assert PrintedEach(l[4..]) == PrintedLines(e) + PrintedEach(l[5..]) by {
      assert l[4..][1..] == l[5..];
    }
    assert PrintedEach(l[3..]) == PrintedLines(d) + PrintedEach(l[4..]) by {
      assert l[3..][1..] == l[4..];
    }
    assert PrintedEach(l[2..]) == PrintedLines(c) + PrintedEach(l[3..]) by {
      assert l[2..][1..] == l[3..];
    }
    assert PrintedEach(l[1..]) == PrintedLines(b) + PrintedEach(l[2..]) by {
      assert l[1..][1..] == l[2..];
    }
  }

  lemma IntroductionEach()
    ensures PrintedEach(IntroductionLines)
         == PrintedLines("-- Your first Lua program") + (PrintedLines(PrintQuoted("Hello, World!"))
          + (PrintedLines(PrintQuoted("Welcome to Lua programming!")) + (PrintedLines("")
          + (PrintedLines("-- Variables are easy to create") + (PrintedLines("local message = \"Lua is awesome!\"")
          + PrintedLines(PrintCall("message")))))))
  {
    PrintedEachSeven("-- Your first Lua program", PrintQuoted("Hello, World!"), PrintQuoted("Welcome to Lua programming!"),
      "", "-- Variables are easy to create", "local message = \"Lua is awesome!\"", PrintCall("message"));
  }

  /** Seven outputs of which the second, third and seventh hold one line each. */
  lemma AssembleSeven(pa: seq<string>, pb: seq<string>, pc: seq<string>, pd: seq<string>, pe: seq<string>,
                      pf: seq<string>, pg: seq<string>, x: string, y: string, z: string)
    requires pa == [] && pd == [] && pe == [] && pf == []
    requires pb == [x] && pc == [y] && pg == [z]
    ensures pa + (pb + (pc + (pd + (pe + (pf + pg))))) == [x, y, z]
  {
  }

  lemma IntroductionCalls()
    ensures PrintedLines(PrintQuoted("Hello, World!")) == ["Hello, World!"]
    ensures PrintedLines(PrintQuoted("Welcome to Lua programming!")) == ["Welcome to Lua programming!"]
    ensures PrintedLines(PrintCall("message")) == ["message"]
  {
    HelloWorldPlain();
    WelcomePlain();
    MessagePlain();
    QuotedCallPrinted("Hello, World!");
    QuotedCallPrinted("Welcome to Lua programming!");
    BareCallPrinted("message");
  }

  lemma IntroductionOthers()
    ensures PrintedLines("-- Your first Lua program") == []
    ensures PrintedLines("") == []
    ensures PrintedLines("-- Variables are easy to create") == []
    ensures PrintedLines("local message = \"Lua is awesome!\"") == []
  {
    CommentDropped();
    BlankLineDropped();
    SecondCommentDropped();
    LocalDropped();
  }

  lemma IntroductionEachValue()
    ensures PrintedEach(IntroductionLines) == ["Hello, World!", "Welcome to Lua programming!", "message"]
  {
    IntroductionEach();
    IntroductionCalls();
    IntroductionOthers();
    AssembleSeven(PrintedLines("-- Your first Lua program"), PrintedLines(PrintQuoted("Hello, World!")),
      PrintedLines(PrintQuoted("Welcome to Lua programming!")), PrintedLines(""),
      PrintedLines("-- Variables are easy to create"), PrintedLines("local message = \"Lua is awesome!\""),
      PrintedLines(PrintCall("message")), "Hello, World!", "Welcome to Lua programming!", "message");
  }

  lemma IntroductionPrinted()
    ensures PrintedLines(JoinLines(IntroductionLines)) == ["Hello, World!", "Welcome to Lua programming!", "message"]
  {
    IntroductionLinesOneEach();
    PrintedLinesJoin(IntroductionLines);
    IntroductionEachValue();
  }

  /** A run whose kept lines render to three outputs shows the banners, then those three. */
  lemma EvaluateThree(code: string, x: string, y: string, z: string)
    requires PrintedLines(code) == [x, y, z]
    ensures Evaluate(code) == [SuccessBanner, DisclaimerBanner, x, y, z]
  {
    var r := Evaluate(code);
    assert r == [r[0], r[1]] + r[2..];
  }

  /** Running the introduction sample shows the banners, then the two
      greetings without their quotes, then the variable's name. */
  lemma IntroductionOutput()
    ensures Evaluate(JoinLines(IntroductionLines))
         == [SuccessBanner, DisclaimerBanner, "Hello, World!", "Welcome to Lua programming!", "message"]
  {
    IntroductionPrinted();
    EvaluateThree(JoinLines(IntroductionLines), "Hello, World!", "Welcome to Lua programming!", "message");
  }
}
