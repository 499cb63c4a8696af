# Nexate lesson site: code editor and navigation search

This project models the two components of the Nexate Lua-tutorial site that
contain logic.

**The lesson code editor.** Its "Run Code" button interprets nothing. It
splits the editor text at newlines. It keeps the lines whose trimmed text
starts with `print`. Each kept line becomes one output line:
- when the regular expression `/print\((.*)\)/` matches the line, the output
  is the capture with every `"` and `'` deleted;
- when it does not match, the output is the line itself.

Two fixed banner lines come first. The editor's `code` and `output` state is
a class. The transform is a pure function, `Evaluate`. The regular
expression is specified from its JavaScript semantics:
- the match starts at the leftmost position;
- `.*` is greedy and stops at line terminators;
- the capture therefore ends at the last `)` that can be reached.

`FindMatch` and `MatchPrint` are proved against that specification.

**The navigation bar.** It does a case-insensitive substring search over its
eight fixed pages. It also keeps state: whether the mobile menu is open, the
search text, whether the results dropdown is open, and the router location it
reads and writes. The state is a class whose methods are the event handlers.
The search is a pure filter.

The JavaScript string and array built-ins these components use are modelled
in `JsString` and `Seqs`: `split`, `trim`, `startsWith`, `includes`,
`toLowerCase`, global `replace`, `filter` and `map`.

The line `print("a") -- print("b")` gives `a) -- print(b`: the capture runs
to the last `)` and its quotes are deleted
(`CodeEditorExamples.GreedyAcrossCalls`).

## Model

| member | source | states |
|---|---|---|
| Seqs.Filter | src/components/CodeEditor.tsx:32 | `Array.prototype.filter`: the result is no longer than the input, and every element kept satisfies the predicate |
| Seqs.Map | src/components/CodeEditor.tsx:32-38 | `Array.prototype.map` keeps the length and puts `f(s[i])` at each position `i` |
| Seqs.Count | src/components/CodeEditor.tsx:32 | the number of elements satisfying a predicate is at most the length |
| Seqs.FilterCount | src/components/CodeEditor.tsx:32 | filter keeps exactly as many elements as satisfy the predicate |
| Seqs.FilterIsSubseq | src/components/Navigation.tsx:35-37 | filter only deletes elements and never reorders the ones it keeps |
| Seqs.FilterMembers | src/components/Navigation.tsx:35-37 | a value is kept if and only if it occurs in the input and satisfies the predicate |
| Seqs.FilterMembersAll | src/components/Navigation.tsx:35-37 | the same membership equivalence, for every value at once |
| Seqs.FilterKeepsAll | src/components/Navigation.tsx:35-37 | when every element satisfies the predicate, the filter returns the input unchanged |
| Seqs.FilterKeepsNone | src/components/Navigation.tsx:35-37 | when no element satisfies the predicate, the filter returns the empty list |
| Seqs.FilterAppend | src/components/CodeEditor.tsx:32 | filtering a concatenation filters each part and concatenates the results |
| Seqs.FilterCongruent | src/components/Navigation.tsx:35-37 | two predicates that agree on every element select the same elements |
| Seqs.MapAppend | src/components/CodeEditor.tsx:32-38 | mapping a concatenation maps each part |
| JsString.TrimStart | src/components/CodeEditor.tsx:32 | the result is a suffix of the input; everything dropped is WhiteSpace or LineTerminator; the result does not start with either |
| JsString.TrimEnd | src/components/CodeEditor.tsx:32 | the result is a prefix of the input; everything dropped is trimmable; the result does not end with a trimmable character |
| JsString.Trim | src/components/CodeEditor.tsx:32 | `trim()`: the result is a window of the input with only trimmable characters outside it, and neither of its ends is trimmable |
| JsString.TrimStartSkips | src/components/CodeEditor.tsx:32 | trimming a run of trimmable characters placed before a non-trimmable character leaves exactly the remainder |
| JsString.TrimEndPrefix | src/components/CodeEditor.tsx:32 | trimming the end neither removes nor creates a prefix that ends in a non-trimmable character, such as `print` |
| JsString.Contains | src/components/Navigation.tsx:36 | `includes` is true if and only if the needle occurs at some position of the text |
| JsString.ContainsEmpty | src/components/Navigation.tsx:36 | the empty string is included in every string |
| JsString.ToLowerChar | src/components/Navigation.tsx:36 | an upper-case ASCII letter is moved to its lower-case form (code point plus 32), every other character is kept, and the result is never an upper-case ASCII letter |
| JsString.ToLower | src/components/Navigation.tsx:36 | the result has the same length as the input, holds the lower-cased character of the input at each position, and contains no upper-case ASCII letter |
| JsString.ToLowerIdempotent | src/components/Navigation.tsx:36 | lower-casing twice is the same as lower-casing once |
| JsString.ToLowerEqualIff | src/components/Navigation.tsx:36 | two strings lower-case to the same text exactly when they differ at most in the case of ASCII letters, letter by letter |
| JsString.SplitLines | src/components/CodeEditor.tsx:32 | `split('\n')` returns at least one piece, and no piece contains a newline |
| JsString.SplitLinesAppend | src/components/CodeEditor.tsx:32 | splitting `a + "\n" + b` splits `a` and `b` independently and concatenates the pieces |
| JsString.SplitLinesSingle | src/components/CodeEditor.tsx:32 | text without a newline splits into itself alone |
| JsString.JoinSplit | src/components/CodeEditor.tsx:32 | joining the pieces with newlines restores the text |
| JsString.SplitJoin | src/components/CodeEditor.tsx:32 | splitting the newline-join of newline-free lines gives the lines back |
| JsString.RemoveAll | src/components/CodeEditor.tsx:35 | `replace(/c/g, '')`: the result has no `c`, holds only characters of the input, and is no longer than the input |
| JsString.RemoveAllAppend | src/components/CodeEditor.tsx:35 | deleting from a concatenation deletes from each part |
| JsString.RemoveAllAbsent | src/components/CodeEditor.tsx:35 | text without `c` is unchanged |
| CodeEditor.LastClose | src/components/CodeEditor.tsx:33 | the result is a `)` reachable by `.*` from the given position, and no reachable `)` lies after it; it is None exactly when none is reachable |
| CodeEditor.FindMatch | src/components/CodeEditor.tsx:33 | the result is a match at or after the given position, with the leftmost start among all such matches and the greatest close at that start; None only when no such match exists |
| CodeEditor.MatchPrint | src/components/CodeEditor.tsx:33 | `line.match(/print\((.*)\)/)` is null exactly when no match exists; otherwise group 1 is the capture of the leftmost, greedy match |
| CodeEditor.MatchPrintOneLine | src/components/CodeEditor.tsx:33 | the capture never contains a line terminator |
| CodeEditor.MatchPrintShape | src/components/CodeEditor.tsx:33 | for `pre + "print(" + body + ")" + tail`, where `pre` cannot start a match, `body` is on one line and `tail` has no `)`, the capture is exactly `body` |
| CodeEditor.MatchPrintNoClose | src/components/CodeEditor.tsx:33-37 | a line without `)` never matches |
| CodeEditor.StripQuotes | src/components/CodeEditor.tsx:35 | the result contains neither `"` nor `'` and is no longer than the capture |
| CodeEditor.StripQuotesAppend | src/components/CodeEditor.tsx:35 | quote stripping distributes over concatenation |
| CodeEditor.StripQuotesQuoteFree | src/components/CodeEditor.tsx:35 | text without quotes passes through unchanged |
| CodeEditor.StripQuotesChar | src/components/CodeEditor.tsx:35 | exactly the two quote characters are deleted |
| CodeEditor.RenderLine | src/components/CodeEditor.tsx:33-37 | without a match the line is returned as it is; with a match the result is the capture with its quotes deleted, so it is quote-free and shorter than the line by at least `print(` and `)` |
| CodeEditor.IsPrintLineLeading | src/components/CodeEditor.tsx:32 | the filter predicate `CodeEditor.IsPrintLine` (`trim().startsWith('print')`, with `JsString.StartsWith`) holds exactly when the line, with leading whitespace removed, starts with `print` |
| CodeEditor.IsPrintLineIndented | src/components/CodeEditor.tsx:32 | a line indented with spaces whose text then starts with `print` is kept |
| CodeEditor.IsPrintLineStart | src/components/CodeEditor.tsx:32 | a line starting with `print` is kept |
| CodeEditor.PrintedLines | src/components/CodeEditor.tsx:32-38 | there is one derived line for each kept source line |
| CodeEditor.Transform | src/components/CodeEditor.tsx:20-39 | the try block always completes, and its list starts with the two banners |
| CodeEditor.Guard | src/components/CodeEditor.tsx:20-42 | a fault yields a single line made of `Error: ` followed by the fault's description; a completed block yields its list |
| CodeEditor.Evaluate | src/components/CodeEditor.tsx:29-39 | the output is the success banner, then the disclaimer banner, then the derived lines; its length is 2 plus the number of kept lines |
| CodeEditor.PrintedLinesSingle | src/components/CodeEditor.tsx:32-38 | a single line contributes its rendering when it is kept, and nothing otherwise |
| CodeEditor.PrintedLinesAppend | src/components/CodeEditor.tsx:32-38 | source order is kept: lines before a newline come out before the lines after it |
| CodeEditor.PrintedLinesJoin | src/components/CodeEditor.tsx:32-38 | for text given as newline-free lines, the output is each line's contribution in turn |
| CodeEditor.PrintedLinesFromSource | src/components/CodeEditor.tsx:32-38 | every derived line is the rendering of some kept line of the text |
| CodeEditor.EvaluateNoPrintLines | src/components/CodeEditor.tsx:29-39 | text with no kept line produces the two banners alone |
| CodeEditor.EvaluateEmpty | src/components/CodeEditor.tsx:29-39 | an empty editor produces the two banners alone |
| CodeEditor.Editor.constructor | src/components/CodeEditor.tsx:15-16 | the editor mounts with the initial code and an empty output |
| CodeEditor.Editor.SetCode | src/components/CodeEditor.tsx:83 | the editor's onChange replaces the code and leaves the output alone |
| CodeEditor.Editor.Run | src/components/CodeEditor.tsx:19-43 | the output is replaced (not appended to) by the evaluation of the current code; the code is unchanged; the output starts with the banners |
| CodeEditor.Editor.Panel | src/components/CodeEditor.tsx:110-116 | the panel shows the placeholder while the output is empty, and the output lines otherwise |
| CodeEditor.RunTwice | src/components/CodeEditor.tsx:69 | pressing Run twice gives the same output both times, whatever was shown before |
| CodeEditorExamples.StripQuotesQuoted | src/components/CodeEditor.tsx:35 | a quoted string literal loses both quotes |
| CodeEditorExamples.StripQuotesTwoQuoted | src/components/CodeEditor.tsx:35 | two string literals joined by quote-free text lose their four quotes |
| CodeEditorExamples.HelloWorld | src/pages/Introduction.tsx:11 | `print("Hello, World!")` is kept and renders as `Hello, World!` |
| CodeEditorExamples.PrintVariable | src/pages/Introduction.tsx:16 | `print(message)` renders as the name `message`, not as its value |
| CodeEditorExamples.NestedCall | src/pages/LessonVariables.tsx:30 | `print(type(str))      -- string` renders as `type(str)` |
| CodeEditorExamples.IndentedConcatenation | src/pages/LessonFunctions.tsx:11 | the indented `print("Hello, " .. name .. "!")` is kept and renders as `Hello,  .. name .. !` |
| CodeEditorExamples.GreedyAcrossCalls | src/components/CodeEditor.tsx:33-35 | `print("a") -- print("b")` renders as `a) -- print(b` |
| CodeEditorExamples.MixedQuotes | src/components/CodeEditor.tsx:35 | `print("a'b")` renders as `ab` |
| CodeEditorExamples.Unterminated | src/components/CodeEditor.tsx:33-37 | `print("x` is kept and shown unchanged |
| CodeEditorExamples.PrintlnFallsBack | src/components/CodeEditor.tsx:32-37 | `println x` passes the filter, does not match, and is shown unchanged |
| CodeEditorExamples.CarriageReturnStopsMatch | src/components/CodeEditor.tsx:33 | in `print(a\rprint(b)` the carriage return stops the first call's match, and the line renders as `b` |
| CodeEditorExamples.DroppedLine | src/components/CodeEditor.tsx:32 | a one-line text starting with neither whitespace nor `p` contributes nothing |
| CodeEditorExamples.BareCallPrinted | src/components/CodeEditor.tsx:32-38 | `print(x)` with plain ASCII `x` contributes exactly `x` |
| CodeEditorExamples.QuotedCallPrinted | src/components/CodeEditor.tsx:32-38 | `print("s")` with plain ASCII `s` contributes exactly `s` |
| CodeEditorExamples.IntroductionOutput | src/pages/Introduction.tsx:10-16 | the introduction page's sample program outputs the banners, `Hello, World!`, `Welcome to Lua programming!` and `message` |
| Navigation.FilteredNavItems | src/components/Navigation.tsx:35-37 | the result is a subsequence of the page list in list order, and holds a page exactly when it satisfies `Navigation.Matches`: its lower-cased name contains the lower-cased query |
| Navigation.EmptyQueryKeepsAll | src/components/Navigation.tsx:24-37 | the empty query lists all eight pages in their declared order |
| Navigation.CaseInsensitive | src/components/Navigation.tsx:36 | queries that differ only in ASCII letter case (`JsString.SameUpToAsciiCase`, stated without `toLowerCase`) list the same pages |
| Navigation.LowerCaseQuery | src/components/Navigation.tsx:36 | a query and its lower-cased form list the same pages |
| Navigation.SameLowerSameResults | src/components/Navigation.tsx:36 | queries whose lower-cased forms are equal list the same pages |
| Navigation.FilteredEmpty | src/components/Navigation.tsx:104 | the list is empty exactly when no page matches |
| Navigation.NavItemsDistinct | src/components/Navigation.tsx:24-33 | no two pages share a route or a label (the label is the React key) |
| Navigation.NavigationBar.constructor | src/components/Navigation.tsx:18-21 | the bar mounts with the menu closed, an empty query, the results closed, at the router's location |
| Navigation.NavigationBar.Dropdown | src/components/Navigation.tsx:102-118 | the dropdown is shown only while the results are open and the query is non-empty; when shown it says "No lessons found" exactly when no page matches, and otherwise lists the matching pages |
| Navigation.NavigationBar.MobileLinks | src/components/Navigation.tsx:188-220 | the mobile links are empty while the menu is closed, and while it is open they are the filtered page list itself, in its order |
| Navigation.NavigationBar.SetSearchQuery | src/components/Navigation.tsx:95 | typing replaces the query and changes nothing else |
| Navigation.NavigationBar.SearchFocus | src/components/Navigation.tsx:39-41 | focusing opens the results and changes nothing else; with a non-empty query the dropdown becomes visible |
| Navigation.NavigationBar.SearchBlurElapsed | src/components/Navigation.tsx:43-46 | the callback scheduled on blur closes the results, which hides the dropdown, and changes nothing else |
| Navigation.NavigationBar.SearchItemClick | src/components/Navigation.tsx:48-53 | choosing a result navigates to its route, empties the query, closes the results and the menu, so neither the dropdown nor the mobile links remain |
| Navigation.NavigationBar.ToggleMenu | src/components/Navigation.tsx:178 | the menu button flips the menu and changes nothing else |
| Navigation.NavigationBar.FollowLink | src/components/Navigation.tsx:126-136 | a desktop link navigates to its route, which becomes the highlighted one; a different route mounts that page's own bar, so the menu is closed, the query empty and the results closed; the current route leaves the search and the menu unchanged |
| Navigation.NavigationBar.MobileLinkClick | src/components/Navigation.tsx:209-219 | a mobile link navigates to its route and closes the menu; a different route mounts that page's own bar, so the query is empty and the results closed; the current route leaves the search unchanged |
| Navigation.OneActiveLink | src/components/Navigation.tsx:130-132 | at a page's route, `Navigation.NavigationBar.IsActive` (the location equals the link's route) holds for that page and no other |
| Navigation.ToggleMenuTwice | src/components/Navigation.tsx:178 | pressing the menu button twice restores the whole state |
| NavigationExamples.MissingChar | src/components/Navigation.tsx:36 | a text that lacks one of the query's characters does not include the query |
| NavigationExamples.SearchVar | src/components/Navigation.tsx:35-37 | the query `VAR` lists the Variables lesson alone |
| NavigationExamples.ChooseVariables | src/components/Navigation.tsx:102-113 | typing `VAR`, focusing and choosing the only result lands on `/lesson-variables`, highlights it and hides the dropdown |
| NavigationExamples.SearchZzz | src/components/Navigation.tsx:35-37 | a query that no page name contains lists nothing |
| NavigationExamples.NoLessonsForZzz | src/components/Navigation.tsx:114-118 | with the results open, such a query shows "No lessons found" |

## Left out

- JsString.ToLower: only the ASCII letters `A`–`Z` are lower-cased. JavaScript's `toLowerCase` also maps other Unicode letters. No page name has a non-ASCII letter, so the search results agree for queries in ASCII.
- JsString.Contains: strings are sequences of Unicode scalar values, not UTF-16 code units. The two agree on whether one string occurs in another, but not on positions after an astral character. No contract here depends on those positions.
- CodeEditor.Transform: it always completes. For a string `code`, nothing in the try block can throw. `Guard` models the catch branch, but `Evaluate` never reaches it.
- The unused `mockPrint` and `outputLines` in `runCode` have no effect on the output, so they are not modelled.
- `copyCode`, the clipboard, the `copied` flag and its 2000 ms reset are clipboard I/O and a timer.
- `copyToClipboard`, `toast` and the donation addresses are clipboard I/O and notifications.
- Navigation.NavigationBar.SearchBlurElapsed: only the effect of the delayed callback is modelled. The 200 ms delay is not, nor are the clicks it lets through before the results close.
- Navigation.NavigationBar.FollowLink: routing is modelled only as the location's pathname. Every page renders its own navigation bar (for example src/pages/Introduction.tsx:29), so a change of route is modelled as the reset to the bar's initial state that the fresh mount gives; the unmounting itself, history, route matching and page rendering are left out.
- The regular-expression engine in general is left out. Only `/print\((.*)\)/` is specified, and only its first capture group.
- CodeMirror, the animations, the icons, the styling, and the editor's `title` and `height` props are presentation only.
