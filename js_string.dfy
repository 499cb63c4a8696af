/** The JavaScript string built-ins the site's components call: split on a
    newline, trim, startsWith, includes, toLowerCase and a global
    one-character replace. Strings are sequences of Unicode scalar values;
    the UTF-16 code-unit view of JavaScript makes no difference to any of
    these operations on the characters involved. */
module JsString {

  /** ECMAScript LineTerminator: LF, CR, LINE SEPARATOR, PARAGRAPH SEPARATOR.
      These are also the characters the regular-expression `.` refuses. */
  predicate IsLineTerminator(c: char)
  {
    c == '\n' || c == '\r' || c == '\U{2028}' || c == '\U{2029}'
  }

  /** ECMAScript WhiteSpace: TAB, VT, FF, ZWNBSP and the Unicode
      "space separator" category (which includes SPACE and NBSP). */
  predicate IsWhiteSpace(c: char)
  {
    c == '\t' || c == '\U{B}' || c == '\U{C}' || c == ' ' || c == '\U{A0}' || c == '\U{FEFF}' ||
    c == '\U{1680}' || ('\U{2000}' <= c <= '\U{200A}') || c == '\U{202F}' || c == '\U{205F}' ||
    c == '\U{3000}'
  }

  /** The characters String.prototype.trim removes from both ends. */
  predicate IsTrimmable(c: char)
  {
    IsWhiteSpace(c) || IsLineTerminator(c)
  }

  /** s without its leading trimmable characters. */
  function TrimStart(s: string): (r: string)
    ensures |r| <= |s| && r == s[|s| - |r|..]
    ensures forall k :: 0 <= k < |s| - |r| ==> IsTrimmable(s[k])
    ensures r == [] || !IsTrimmable(r[0])
  {
    if s != [] && IsTrimmable(s[0]) then TrimStart(s[1..]) else s
  }

  /** s without its trailing trimmable characters. */
  function TrimEnd(s: string): (r: string)
    ensures |r| <= |s| && r == s[..|r|]
    ensures forall k :: |r| <= k < |s| ==> IsTrimmable(s[k])
    ensures r == [] || !IsTrimmable(r[|r| - 1])
  {
    if s != [] && IsTrimmable(s[|s| - 1]) then TrimEnd(s[..|s| - 1]) else s
  }

  /** r occupies s[i..i + |r|] and everything of s outside that window is trimmable. */
  predicate IsTrimWindow(s: string, i: nat, r: string)
  {
    i + |r| <= |s| && r == s[i..i + |r|] &&
    (forall k :: 0 <= k < i ==> IsTrimmable(s[k])) &&
    (forall k :: i + |r| <= k < |s| ==> IsTrimmable(s[k]))
  }

  /** String.prototype.trim: the longest slice of s that neither starts nor
      ends with a trimmable character, all of whose surroundings are trimmable. */
  function Trim(s: string): (r: string)
    ensures r == [] || (!IsTrimmable(r[0]) && !IsTrimmable(r[|r| - 1]))
    ensures exists i :: IsTrimWindow(s, i, r)
  {
    var t := TrimStart(s);
    var r := TrimEnd(t);
    assert IsTrimWindow(s, |s| - |t|, r);
    r
  }

  /** Trimming removes exactly a leading run of trimmable characters, up to
      the first character that is not trimmable. */
  lemma TrimStartSkips(ws: string, rest: string)
    requires forall k :: 0 <= k < |ws| ==> IsTrimmable(ws[k])
    requires rest == [] || !IsTrimmable(rest[0])
    ensures TrimStart(ws + rest) == rest
  {
    var s := ws + rest;
    var r := TrimStart(s);
    assert r == s[|ws|..];
  }

  /** String.prototype.startsWith. */
  predicate StartsWith(s: string, prefix: string)
  {
    |prefix| <= |s| && s[..|prefix|] == prefix
  }

  /** Trimming the end keeps a prefix that ends in a non-trimmable character,
      and keeps no prefix the untrimmed text did not have. */
  lemma TrimEndPrefix(t: string, prefix: string)
    requires prefix != [] && !IsTrimmable(prefix[|prefix| - 1])
    ensures StartsWith(TrimEnd(t), prefix) <==> StartsWith(t, prefix)
  {
    var r := TrimEnd(t);
    if StartsWith(t, prefix) {
      assert t[|prefix| - 1] == prefix[|prefix| - 1];
      assert |prefix| <= |r|;
      assert r[..|prefix|] == t[..|prefix|];
    }
    if StartsWith(r, prefix) {
      assert r[..|prefix|] == t[..|prefix|];
    }
  }

  /** needle occurs in hay at position i. */
  predicate OccursAt(hay: string, needle: string, i: nat)
  {
    i + |needle| <= |hay| && hay[i..i + |needle|] == needle
  }

  /** String.prototype.includes: some position of hay holds needle. */
  function Contains(hay: string, needle: string): (b: bool)
    ensures b <==> exists i: nat :: OccursAt(hay, needle, i)
    decreases |hay|
  {
    if StartsWith(hay, needle) then
      assert OccursAt(hay, needle, 0);
      true
    else if hay == [] then
      false
    else
      OccursAfterFirst(hay, needle);
      Contains(hay[1..], needle)
  }

  /** When needle is not at the front of hay, it occurs in hay exactly when
      it occurs in hay's tail. */
  lemma OccursAfterFirst(hay: string, needle: string)
    requires hay != [] && !OccursAt(hay, needle, 0)
    ensures (exists i: nat :: OccursAt(hay, needle, i)) <==> (exists i: nat :: OccursAt(hay[1..], needle, i))
  {
    if i: nat :| OccursAt(hay, needle, i) {
      assert OccursAt(hay[1..], needle, i - 1);
    }
    if i: nat :| OccursAt(hay[1..], needle, i) {
      assert OccursAt(hay, needle, i + 1);
    }
  }

  /** The empty string occurs in every string. */
  lemma ContainsEmpty(hay: string)
    ensures Contains(hay, "")
  {
    assert OccursAt(hay, "", 0);
  }

  /** ASCII letters only: 'A'..'Z' become 'a'..'z', every other character is kept. */
  function ToLowerChar(c: char): (d: char)
    ensures !('A' <= d <= 'Z')
    ensures 'A' <= c <= 'Z' ==> d as int == c as int + 32
    ensures !('A' <= c <= 'Z') ==> d == c
  {
    if 'A' <= c <= 'Z' then (c as int + 32) as char else c
  }

  /** String.prototype.toLowerCase, restricted to ASCII letters. */
  function ToLower(s: string): (r: string)
    ensures |r| == |s|
    ensures forall i :: 0 <= i < |s| ==> r[i] == ToLowerChar(s[i])
    ensures forall i :: 0 <= i < |r| ==> !('A' <= r[i] <= 'Z')
  {
    seq(|s|, i requires 0 <= i < |s| => ToLowerChar(s[i]))
  }

  /** Lower-casing twice is lower-casing once. */
  lemma ToLowerIdempotent(s: string)
    ensures ToLower(ToLower(s)) == ToLower(s)
  {
  }

  /** a and b are the same character, or the upper- and lower-case forms of
      the same ASCII letter. */
  predicate SameLetterUpToCase(a: char, b: char)
  {
    a == b ||
    ('A' <= a <= 'Z' && b as int == a as int + 32) ||
    ('A' <= b <= 'Z' && a as int == b as int + 32)
  }

  /** s and t differ at most in the case of ASCII letters. */
  predicate SameUpToAsciiCase(s: string, t: string)
  {
    |s| == |t| && forall i :: 0 <= i < |s| ==> SameLetterUpToCase(s[i], t[i])
  }

  /** Two strings lower-case to the same text exactly when they differ at
      most in the case of ASCII letters. */
  lemma ToLowerEqualIff(s: string, t: string)
    ensures ToLower(s) == ToLower(t) <==> SameUpToAsciiCase(s, t)
  {
    if ToLower(s) == ToLower(t) {
      forall i | 0 <= i < |s|
        ensures SameLetterUpToCase(s[i], t[i])
      {
        assert ToLowerChar(s[i]) == ToLower(s)[i] == ToLower(t)[i] == ToLowerChar(t[i]);
      }
    }
    if SameUpToAsciiCase(s, t) {
      forall i | 0 <= i < |s|
        ensures ToLower(s)[i] == ToLower(t)[i]
      {
        assert SameLetterUpToCase(s[i], t[i]);
      }
    }
  }

  /** String.prototype.split("\n"): the pieces between newline characters.
      The empty string yields one empty piece. */
  function SplitLines(s: string): (r: seq<string>)
    ensures |r| >= 1
    ensures forall i :: 0 <= i < |r| ==> '\n' !in r[i]
  {
    if s == [] then [""]
    else
      var rest := SplitLines(s[1..]);
      if s[0] == '\n' then [""] + rest
      else [[s[0]] + rest[0]] + rest[1..]
  }

  /** Array.prototype.join("\n"): the inverse of SplitLines. */
  function JoinLines(lines: seq<string>): (s: string)
  {
    if lines == [] then ""
    else if |lines| == 1 then lines[0]
    else lines[0] + "\n" + JoinLines(lines[1..])
  }

  /** Splitting at a newline splits the two sides independently. */
  lemma {:induction false} SplitLinesAppend(a: string, b: string)
    ensures SplitLines(a + "\n" + b) == SplitLines(a) + SplitLines(b)
  {
    if a == [] {
      assert a + "\n" + b == "\n" + b;
      assert ("\n" + b)[1..] == b;
    } else {
      assert (a + "\n" + b)[1..] == a[1..] + "\n" + b;
      SplitLinesAppend(a[1..], b);
    }
  }

  /** A string without newlines is a single line. */
  lemma {:induction false} SplitLinesSingle(s: string)
    requires '\n' !in s
    ensures SplitLines(s) == [s]
  {
    if s != [] {
      SplitLinesSingle(s[1..]);
      assert s == [s[0]] + s[1..];
    }
  }

  /** Joining the pieces back with newlines restores the text. */
  lemma {:induction false} JoinSplit(s: string)
    ensures JoinLines(SplitLines(s)) == s
  {
    if s != [] {
      JoinSplit(s[1..]);
      var rest := SplitLines(s[1..]);
      if s[0] == '\n' {
        assert SplitLines(s)[1..] == rest;
      } else if |rest| == 1 {
        assert s == [s[0]] + s[1..];
      } else {
        assert SplitLines(s)[1..] == rest[1..];
        assert s == [s[0]] + s[1..];
      }
    }
  }

  /** Splitting joined newline-free lines gives the lines back. */
  lemma {:induction false} SplitJoin(lines: seq<string>)
    requires |lines| >= 1
    requires forall i :: 0 <= i < |lines| ==> '\n' !in lines[i]
    ensures SplitLines(JoinLines(lines)) == lines
  {
    SplitLinesSingle(lines[0]);
    if |lines| > 1 {
      SplitJoin(lines[1..]);
      SplitLinesAppend(lines[0], JoinLines(lines[1..]));
      assert lines == [lines[0]] + lines[1..];
    }
  }

  /** str.replace(/c/g, ""): s with every occurrence of c deleted. */
  function RemoveAll(s: string, c: char): (r: string)
    ensures c !in r
    ensures forall d :: d in r ==> d in s
    ensures |r| <= |s|
  {
    if s == [] then [] else (if s[0] == c then [] else [s[0]]) + RemoveAll(s[1..], c)
  }

  /** Deleting from a concatenation deletes from each part. */
  lemma {:induction false} RemoveAllAppend(a: string, b: string, c: char)
    ensures RemoveAll(a + b, c) == RemoveAll(a, c) + RemoveAll(b, c)
  {
    if a == [] {
      assert a + b == b;
    } else {
      assert (a + b)[0] == a[0] && (a + b)[1..] == a[1..] + b;
      RemoveAllAppend(a[1..], b, c);
      var h := if a[0] == c then "" else [a[0]];
      calc {
        RemoveAll(a + b, c);
        h + RemoveAll(a[1..] + b, c);
        h + (RemoveAll(a[1..], c) + RemoveAll(b, c));
        (h + RemoveAll(a[1..], c)) + RemoveAll(b, c);
      }
    }
  }

  /** A string without c is left unchanged. */
  lemma {:induction false} RemoveAllAbsent(s: string, c: char)
    requires c !in s
    ensures RemoveAll(s, c) == s
  {
    if s != [] {
      RemoveAllAbsent(s[1..], c);
      assert s == [s[0]] + s[1..];
    }
  }
}
