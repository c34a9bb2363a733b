/** String helpers with the meaning Python gives them: str.isspace, strip,
    lstrip, rstrip, startswith, splitlines and " ".join. */
module Text {

  /** Python's str.isspace for one character. */
  predicate IsSpace(c: char) {
    || c == ' '
    || ('\t' <= c <= '\r')
    || ('\U{1C}' <= c <= '\U{1F}')
    || c == '\U{85}' || c == '\U{A0}' || c == '\U{1680}'
    || ('\U{2000}' <= c <= '\U{200A}')
    || c == '\U{2028}' || c == '\U{2029}' || c == '\U{202F}' || c == '\U{205F}' || c == '\U{3000}'
  }

  /** The characters at which Python's str.splitlines ends a line. */
  predicate IsLineBreak(c: char) {
    || c == '\n' || c == '\r' || c == '\U{0B}' || c == '\U{0C}'
    || ('\U{1C}' <= c <= '\U{1E}')
    || c == '\U{85}' || c == '\U{2028}' || c == '\U{2029}'
  }

  predicate AllSpace(s: string) {
    forall i :: 0 <= i < |s| ==> IsSpace(s[i])
  }

  predicate StartsWith(s: string, prefix: string) {
    |prefix| <= |s| && s[..|prefix|] == prefix
  }

  /** str.lstrip(): drops the leading whitespace and nothing else. */
  function LStrip(s: string): (r: string)
    ensures |r| <= |s| && r == s[|s| - |r|..]
    ensures AllSpace(s[..|s| - |r|])
    ensures r == [] || !IsSpace(r[0])
  {
    if s == [] || !IsSpace(s[0]) then s else LStrip(s[1..])
  }

  /** str.rstrip(): drops the trailing whitespace and nothing else. */
  function RStrip(s: string): (r: string)
    ensures |r| <= |s| && r == s[..|r|]
    ensures AllSpace(s[|r|..])
    ensures r == [] || !IsSpace(r[|r| - 1])
  {
    if s == [] || !IsSpace(s[|s| - 1]) then s
    else
      var r := RStrip(s[..|s| - 1]);
      assert forall i :: |r| <= i < |s| - 1 ==> s[i] == s[..|s| - 1][|r|..][i - |r|];
      r
  }

  /** str.strip(). */
  function Strip(s: string): string {
    RStrip(LStrip(s))
  }

  /** What str.strip() leaves: nothing when s is all whitespace, and otherwise
      a string that starts and ends with a non-space character. */
  lemma StripEnds(s: string)
    ensures |Strip(s)| <= |s|
    ensures Strip(s) == [] <==> AllSpace(s)
    ensures Strip(s) == [] || (!IsSpace(Strip(s)[0]) && !IsSpace(Strip(s)[|Strip(s)| - 1]))
  {
    LStripAllSpace(s);
    RStripEmpty(LStrip(s));
    RStripStart(LStrip(s));
  }

  lemma LStripAllSpace(s: string)
    ensures AllSpace(s) <==> AllSpace(LStrip(s))
  {
    var t := LStrip(s);
    AllSpaceSplit(s[..|s| - |t|], t);
    assert s[..|s| - |t|] + t == s;
  }

  lemma RStripEmpty(t: string)
    ensures RStrip(t) == [] <==> AllSpace(t)
  {
    var r := RStrip(t);
    if r == [] {
      assert t[|r|..] == t;
    } else {
      assert r[|r| - 1] == t[|r| - 1];
    }
  }

  lemma RStripStart(t: string)
    requires t == [] || !IsSpace(t[0])
    ensures RStrip(t) == [] || !IsSpace(RStrip(t)[0])
  {
    var r := RStrip(t);
    if r != [] {
      assert r[0] == t[0];
    }
  }

  lemma AllSpaceSplit(a: string, b: string)
    requires AllSpace(a)
    ensures AllSpace(a + b) <==> AllSpace(b)
  {
    if AllSpace(b) {
      forall i | 0 <= i < |a + b| ensures IsSpace((a + b)[i]) {
        if i >= |a| { assert (a + b)[i] == b[i - |a|]; }
      }
    }
    if AllSpace(a + b) {
      forall i | 0 <= i < |b| ensures IsSpace(b[i]) { assert b[i] == (a + b)[|a| + i]; }
    }
  }

  /** Stripping a string that starts and ends with a non-space character changes nothing. */
  lemma StripOfStripped(s: string)
    requires s == [] || (!IsSpace(s[0]) && !IsSpace(s[|s| - 1]))
    ensures Strip(s) == s
  {
  }

  /** str.lstrip(c) for a single character c. */
  function LStripChar(s: string, c: char): (r: string)
    ensures |r| <= |s| && r == s[|s| - |r|..]
    ensures forall i :: 0 <= i < |s| - |r| ==> s[i] == c
    ensures r == [] || r[0] != c
  {
    if s == [] || s[0] != c then s else LStripChar(s[1..], c)
  }

  /** Number of leading characters of s before the first line break (|s| if none). */
  function LineEnd(s: string): (n: nat)
    ensures n <= |s|
    ensures forall i :: 0 <= i < n ==> !IsLineBreak(s[i])
    ensures n == |s| || IsLineBreak(s[n])
  {
    if s == [] || IsLineBreak(s[0]) then 0 else 1 + LineEnd(s[1..])
  }

  predicate NoLineBreak(s: string) {
    forall i :: 0 <= i < |s| ==> !IsLineBreak(s[i])
  }

  /** str.splitlines(): a final line break does not start an empty line, and
      "\r\n" ends one line. */
  function SplitLines(s: string): (lines: seq<string>)
    ensures forall k :: 0 <= k < |lines| ==> NoLineBreak(lines[k])
    ensures |lines| <= |s|
    decreases |s|
  {
    if s == [] then []
    else
      var n := LineEnd(s);
      if n == |s| then [s]
      else
        [s[..n]] + SplitLines(Rest(s))
  }

  /** One line break as str.splitlines() counts them: a single line-break
      character, or "\r\n". */
  predicate IsBreak(b: string) {
    || (|b| == 1 && IsLineBreak(b[0]))
    || (|b| == 2 && b[0] == '\r' && b[1] == '\n')
  }

  /** The line break that starts at s[n]: "\r\n" when a '\n' follows the
      '\r', else the one character. */
  function BreakAt(s: string, n: nat): (b: string)
    requires n < |s| && IsLineBreak(s[n])
    ensures n + |b| <= |s|
  {
    if s[n] == '\r' && n + 1 < |s| && s[n + 1] == '\n' then s[n..n + 2] else s[n..n + 1]
  }

  /** What follows the first line and its break. */
  function Rest(s: string): (r: string)
    requires s != [] && LineEnd(s) < |s|
    ensures |r| < |s|
  {
    s[LineEnd(s) + |BreakAt(s, LineEnd(s))|..]
  }

  /** The break at s[n] is one break, "\r\n" when it can be. */
  lemma BreakAtIsBreak(s: string, n: nat)
    requires n < |s| && IsLineBreak(s[n])
    ensures IsBreak(BreakAt(s, n)) && s[n..n + |BreakAt(s, n)|] == BreakAt(s, n)
    ensures BreakAt(s, n) == "\r" ==> !StartsWithNewline(s[n + |BreakAt(s, n)|..])
  {
  }

  /** The break that ends each line SplitLines(s) returns, "" for a last
      line that runs to the end of s. */
  function LineBreaks(s: string): seq<string>
    decreases |s|
  {
    if s == [] then []
    else
      var n := LineEnd(s);
      if n == |s| then [""]
      else
        [BreakAt(s, n)] + LineBreaks(Rest(s))
  }

  /** Each line followed by its break, all concatenated. */
  function Rejoin(lines: seq<string>, breaks: seq<string>): string
    requires |lines| == |breaks|
    decreases |lines|
  {
    if lines == [] then [] else lines[0] + breaks[0] + Rejoin(lines[1..], breaks[1..])
  }

  predicate StartsWithNewline(t: string) {
    t != [] && t[0] == '\n'
  }

  /** There is one break for each line. */
  lemma {:induction false} LineBreaksLength(s: string)
    ensures |LineBreaks(s)| == |SplitLines(s)|
    decreases |s|
  {
    if s != [] && LineEnd(s) < |s| {
      LineBreaksLength(Rest(s));
    }
  }

  /** SplitLines cuts s at its line breaks and loses nothing else: putting
      each line's break back gives s, and there are no lines exactly when s
      is empty. */
  lemma {:induction false} SplitLinesRejoin(s: string)
    ensures |LineBreaks(s)| == |SplitLines(s)|
    ensures Rejoin(SplitLines(s), LineBreaks(s)) == s
    ensures SplitLines(s) == [] <==> s == []
    decreases |s|
  {
    LineBreaksLength(s);
    if s != [] && LineEnd(s) < |s| {
      BreakAtIsBreak(s, LineEnd(s));
      FirstLine(s);
      SplitLinesRejoin(Rest(s));
      CutAt(s, LineEnd(s), BreakAt(s, LineEnd(s)), Rest(s));
    }
  }

  /** Every line but the last ends with one break ("\r\n" counting as one,
      so a lone "\r" is never followed by '\n'); the last ends with a break
      or, non-empty, at the end of the text. */
  predicate BrokenLines(lines: seq<string>, breaks: seq<string>)
    requires |lines| == |breaks|
    decreases |lines|
  {
    if lines == [] then true
    else if |lines| == 1 then IsBreak(breaks[0]) || (breaks[0] == [] && lines[0] != [])
    else
      && IsBreak(breaks[0])
      && (breaks[0] == "\r" ==> !StartsWithNewline(lines[1] + breaks[1]))
      && BrokenLines(lines[1..], breaks[1..])
  }

  /** SplitLines(s) and LineBreaks(s) are such lines and breaks. */
  lemma {:induction false} LineBreaksAreBreaks(s: string)
    ensures |LineBreaks(s)| == |SplitLines(s)|
    ensures BrokenLines(SplitLines(s), LineBreaks(s))
    decreases |s|, 1
  {
    LineBreaksLength(s);
    if s != [] {
      if LineEnd(s) < |s| {
        BrokenStep(s);
      } else {
        assert SplitLines(s) == [s] && LineBreaks(s) == [""];
      }
    }
  }

  /** The step of the induction: the first line and its break in front of
      the well broken lines of the rest. */
  lemma BrokenStep(s: string)
    requires s != [] && LineEnd(s) < |s|
    ensures |LineBreaks(s)| == |SplitLines(s)|
    ensures BrokenLines(SplitLines(s), LineBreaks(s))
    decreases |s|, 0
  {
    LineBreaksAreBreaks(Rest(s));
    BreakAtIsBreak(s, LineEnd(s));
    FirstLine(s);
    SplitLinesRejoin(Rest(s));
    if Rest(s) != [] {
      RejoinStart(SplitLines(Rest(s)), LineBreaks(Rest(s)));
    }
    BrokenCons(SplitLines(s), LineBreaks(s), Rest(s));
  }

  /** The first line and its break, ahead of the lines of the rest. */
  lemma FirstLine(s: string)
    requires s != [] && LineEnd(s) < |s|
    ensures SplitLines(s) != [] && SplitLines(s)[0] == s[..LineEnd(s)]
    ensures SplitLines(s)[1..] == SplitLines(Rest(s))
    ensures LineBreaks(s) != [] && LineBreaks(s)[0] == BreakAt(s, LineEnd(s))
    ensures LineBreaks(s)[1..] == LineBreaks(Rest(s))
  {
    FirstLineCons(s);
    ConsParts(LineBreaks(s), BreakAt(s, LineEnd(s)), LineBreaks(Rest(s)));
    ConsParts(SplitLines(s), s[..LineEnd(s)], SplitLines(Rest(s)));
  }

  lemma FirstLineCons(s: string)
    requires s != [] && LineEnd(s) < |s|
    ensures SplitLines(s) == [s[..LineEnd(s)]] + SplitLines(Rest(s))
    ensures LineBreaks(s) == [BreakAt(s, LineEnd(s))] + LineBreaks(Rest(s))
  {
  }

  lemma ConsParts<T>(x: seq<T>, a: T, r: seq<T>)
    requires x == [a] + r
    ensures x != [] && x[0] == a && x[1..] == r
  {
  }

  /** One more line with its break in front of well broken lines. */
  lemma BrokenCons(lines: seq<string>, breaks: seq<string>, t: string)
    requires |lines| == |breaks| && lines != [] && BrokenLines(lines[1..], breaks[1..])
    requires IsBreak(breaks[0]) && (breaks[0] == "\r" ==> !StartsWithNewline(t))
    requires |lines| > 1 ==> StartsWithNewline(lines[1] + breaks[1]) ==> StartsWithNewline(t)
    ensures BrokenLines(lines, breaks)
  {
  }


  /** A string is its part before n, the piece found at n, and the rest. */
  lemma CutAt(s: string, n: nat, b: string, r: string)
    requires n + |b| <= |s| && s[n..n + |b|] == b && r == s[n + |b|..]
    ensures s == s[..n] + b + r
  {
    assert s == s[..n] + s[n..n + |b|] + s[n + |b|..];
  }

  /** A non-empty text rejoined starts with its first line and break. */
  lemma RejoinStart(lines: seq<string>, breaks: seq<string>)
    requires |lines| == |breaks| && lines != []
    requires Rejoin(lines, breaks) != []
    ensures lines[0] + breaks[0] != [] ==> (lines[0] + breaks[0])[0] == Rejoin(lines, breaks)[0]
  {
  }

  /** sep.join(parts). */
  function Join(sep: string, parts: seq<string>): string
    decreases |parts|
  {
    if parts == [] then []
    else if |parts| == 1 then parts[0]
    else Join(sep, parts[..|parts| - 1]) + sep + parts[|parts| - 1]
  }

  /** "".join(parts). */
  function Concat(parts: seq<string>): string
    decreases |parts|
  {
    if parts == [] then [] else parts[0] + Concat(parts[1..])
  }

  lemma {:induction false} ConcatAppend(a: seq<string>, b: seq<string>)
    ensures Concat(a + b) == Concat(a) + Concat(b)
    decreases |a|
  {
    if a == [] {
      assert a + b == b;
    } else {
      assert (a + b)[1..] == a[1..] + b;
      ConcatAppend(a[1..], b);
    }
  }

  /** A non-empty sequence is its front followed by its last element. */
  lemma FrontLast<T>(s: seq<T>)
    requires s != []
    ensures s[..|s| - 1] + [s[|s| - 1]] == s
  {
  }

  lemma ConcatSingle(s: string)
    ensures Concat([s]) == s
  {
    assert [s][1..] == [];
  }

  lemma AppendAssoc<T>(a: seq<T>, b: seq<T>, c: seq<T>)
    ensures (a + b) + c == a + (b + c)
  {
  }
}
