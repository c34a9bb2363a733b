/** Python's textwrap.wrap(text, width) with its default options, as the
    layout engine uses it to break paragraphs and list items into lines.

    The text is "munged" (every whitespace character becomes a space), cut
    into chunks that are maximal runs of spaces or of other characters, and
    the chunks are filled greedily into lines of at most width columns. A
    chunk longer than a whole line fills what is left of the current line and
    continues on the next. A chunk that `strip()` empties (Python's whole
    whitespace set, U+3000 included) is dropped when it starts a line other
    than the first, and when it ends a line; a line left empty is not
    emitted. Three textwrap refinements are not modelled: splitting a word
    after a hyphen inside it, splitting off a run of two or more hyphens
    between words, and expanding a tab to the next multiple of 8 columns
    (here a tab is one space). */
module TextWrap {
  import opened Text

  /** textwrap's whitespace set: tab, newline, vertical tab, form feed, carriage return and space. */
  predicate IsWrapSpace(c: char) {
    c == '\t' || c == '\n' || c == '\U{0B}' || c == '\U{0C}' || c == '\r' || c == ' '
  }

  /** Every whitespace character replaced by a space. */
  function Munge(s: string): (r: string)
    ensures |r| == |s|
  {
    seq(|s|, i requires 0 <= i < |s| => if IsWrapSpace(s[i]) then ' ' else s[i])
  }

  /** A chunk that `chunk.strip() == ''` accepts: whitespace only, by Python's
      str.isspace, the empty chunk included. */
  predicate IsBlank(chunk: string) {
    forall i :: 0 <= i < |chunk| ==> IsSpace(chunk[i])
  }

  /** Spaces only: what a munged text of textwrap whitespace becomes. */
  predicate AllSpaces(s: string) {
    forall i :: 0 <= i < |s| ==> s[i] == ' '
  }

  /** Only textwrap's own whitespace characters. */
  predicate AllWrapSpace(s: string) {
    forall i :: 0 <= i < |s| ==> IsWrapSpace(s[i])
  }

  /** Length of the leading run of s of spaces (space) or of non-spaces (!space). */
  function KindRun(s: string, space: bool): (n: nat)
    ensures n <= |s|
    decreases |s|
  {
    if s == [] || (s[0] == ' ') != space then 0 else 1 + KindRun(s[1..], space)
  }

  /** The munged text cut into maximal runs of spaces and of non-spaces. */
  function Chunks(s: string): seq<string>
    decreases |s|
  {
    if s == [] then []
    else
      var n := KindRun(s, s[0] == ' ');
      [s[..n]] + Chunks(s[n..])
  }

  predicate NonEmptyChunks(cs: seq<string>) {
    forall i :: 0 <= i < |cs| ==> cs[i] != []
  }

  /** Number of leading chunks that fit one after another into room columns. */
  function FitCount(cs: seq<string>, room: int): (n: nat)
    ensures n <= |cs|
    decreases |cs|
  {
    if cs == [] || |cs[0]| > room then 0 else 1 + FitCount(cs[1..], room - |cs[0]|)
  }

  /** The chunks that go onto one line, and the chunks left over. */
  datatype Fill = Fill(line: seq<string>, rest: seq<string>)

  /** One line's worth of chunks: as many whole chunks as fit; then, if the
      next chunk is longer than a line, as much of it as fits. */
  function FillLine(cs: seq<string>, width: nat): Fill {
    var n := FitCount(cs, width);
    FitCountFits(cs, width);
    var used := |Concat(cs[..n])|;
    if n < |cs| && |cs[n]| > width then
      var cut := width - used;
      Fill(cs[..n] + [cs[n][..cut]], [cs[n][cut..]] + cs[n + 1..])
    else
      Fill(cs[..n], cs[n..])
  }

  /** Drops one whitespace chunk ending the line. */
  function DropTrailingBlank(line: seq<string>): seq<string> {
    if line != [] && IsBlank(line[|line| - 1]) then line[..|line| - 1] else line
  }

  /** The lines made from chunks; started says whether a line was emitted
      before (only then is whitespace starting a line dropped). */
  function WrapChunks(chunks: seq<string>, width: nat, started: bool): seq<string>
    requires width >= 1 && NonEmptyChunks(chunks)
    decreases |Concat(chunks)|
  {
    if chunks == [] then []
    else
      var cs := if started && IsBlank(chunks[0]) then chunks[1..] else chunks;
      DropLeadingSmaller(chunks, cs);
      var fill := FillLine(cs, width);
      FillLineSpec(cs, width);
      var kept := DropTrailingBlank(fill.line);
      (if kept != [] then [Concat(kept)] else []) + WrapChunks(fill.rest, width, started || kept != [])
  }

  /** textwrap.wrap(text, width). */
  function Wrap(text: string, width: nat): seq<string>
    requires width >= 1
  {
    ChunksNonEmpty(Munge(text));
    WrapChunks(Chunks(Munge(text)), width, false)
  }

  // ---------------------------------------------------------------------
  // Chunks.

  lemma {:induction false} ChunksNonEmpty(s: string)
    ensures NonEmptyChunks(Chunks(s))
    decreases |s|
  {
    if s != [] {
      var n := KindRun(s, s[0] == ' ');
      ChunksNonEmpty(s[n..]);
    }
  }

  lemma ConcatSnoc(a: seq<string>, b: string)
    ensures Concat(a + [b]) == Concat(a) + b
  {
    ConcatAppend(a, [b]);
    ConcatSingle(b);
  }

  /** The chunks before n, chunk n, and the chunks after it. */
  lemma ConcatAt(cs: seq<string>, n: nat)
    requires n < |cs|
    ensures Concat(cs) == Concat(cs[..n]) + (cs[n] + Concat(cs[n + 1..]))
  {
    assert cs == cs[..n] + cs[n..];
    ConcatAppend(cs[..n], cs[n..]);
    assert cs[n..][1..] == cs[n + 1..];
  }

  lemma ConcatCons(a: string, b: seq<string>)
    ensures Concat([a] + b) == a + Concat(b)
  {
    assert ([a] + b)[1..] == b;
  }

  /** The chunks put back together are the munged text. */
  lemma {:induction false} ChunksConcat(s: string)
    ensures Concat(Chunks(s)) == s
    decreases |s|
  {
    if s != [] {
      var n := KindRun(s, s[0] == ' ');
      ChunksConcat(s[n..]);
      ConcatCons(s[..n], Chunks(s[n..]));
      assert s[..n] + s[n..] == s;
    }
  }

  lemma {:induction false} KindRunAll(s: string)
    requires s != [] && AllSpaces(s)
    ensures KindRun(s, true) == |s|
    decreases |s|
  {
    if |s| > 1 {
      KindRunAll(s[1..]);
    }
  }

  /** Text that is all spaces is one chunk. */
  lemma BlankChunks(s: string)
    requires s != [] && AllSpaces(s)
    ensures Chunks(s) == [s]
  {
    KindRunAll(s);
    assert s[..|s|] == s;
  }

  // ---------------------------------------------------------------------
  // One line.

  lemma {:induction false} FitCountFits(cs: seq<string>, room: int)
    ensures FitCount(cs, room) == 0 || |Concat(cs[..FitCount(cs, room)])| <= room
    ensures FitCount(cs, room) == |cs| || |Concat(cs[..FitCount(cs, room)])| + |cs[FitCount(cs, room)]| > room
    decreases |cs|
  {
    var n := FitCount(cs, room);
    if n > 0 {
      FitCountFits(cs[1..], room - |cs[0]|);
      assert cs[..n] == [cs[0]] + cs[1..][..n - 1];
      ConcatCons(cs[0], cs[1..][..n - 1]);
      if n < |cs| {
        assert cs[n] == cs[1..][n - 1];
      }
    } else {
      assert cs[..0] == [];
    }
  }

  lemma DropLeadingSmaller(chunks: seq<string>, cs: seq<string>)
    requires chunks != [] && NonEmptyChunks(chunks)
    requires cs == chunks || cs == chunks[1..]
    ensures NonEmptyChunks(cs)
    ensures |Concat(cs)| <= |Concat(chunks)|
    ensures Concat(chunks) == chunks[0] + Concat(chunks[1..])
  {
    ConcatCons(chunks[0], chunks[1..]);
    assert [chunks[0]] + chunks[1..] == chunks;
  }

  /** A line takes at least one character and at most width columns, and
      greedily: the next chunk left over would not fit after it. The line and
      the rest are the chunks again. */
  predicate FillOk(cs: seq<string>, width: nat, fill: Fill) {
    && Concat(fill.line) + Concat(fill.rest) == Concat(cs)
    && |Concat(fill.line)| <= width
    && (cs != [] ==> |Concat(fill.line)| >= 1)
    && (fill.rest == [] || |Concat(fill.line)| + |fill.rest[0]| > width)
    && NonEmptyChunks(fill.rest)
    && NonEmptyChunks(DropTrailingBlank(fill.line))
  }

  lemma FillLineSpec(cs: seq<string>, width: nat)
    requires width >= 1 && NonEmptyChunks(cs)
    ensures FillOk(cs, width, FillLine(cs, width))
  {
    var n := FitCount(cs, width);
    FitCountFits(cs, width);
    if n < |cs| && |cs[n]| > width {
      FillLong(cs, width, n);
      var cut := width - |Concat(cs[..n])|;
      assert FillLine(cs, width) == Fill(cs[..n] + [cs[n][..cut]], [cs[n][cut..]] + cs[n + 1..]);
    } else {
      FillShort(cs, width, n);
      assert FillLine(cs, width) == Fill(cs[..n], cs[n..]);
    }
  }

  /** The case where the next chunk is longer than a line. */
  lemma FillLong(cs: seq<string>, width: nat, n: nat)
    requires width >= 1 && NonEmptyChunks(cs)
    requires n < |cs| && |cs[n]| > width
    requires n == 0 || |Concat(cs[..n])| <= width
    ensures |Concat(cs[..n])| <= width
    ensures var cut := width - |Concat(cs[..n])|;
      FillOk(cs, width, Fill(cs[..n] + [cs[n][..cut]], [cs[n][cut..]] + cs[n + 1..]))
  {
    var front := cs[..n];
    if n == 0 {
      assert front == [];
    }
    var used := |Concat(front)|;
    var cut := width - used;
    var piece, left := cs[n][..cut], cs[n][cut..];
    var line, rest := front + [piece], [left] + cs[n + 1..];
    FillLongParts(cs, n, front, piece, left, line, rest);
    assert NonEmptyChunks(DropTrailingBlank(line)) by {
      assert line[..|line| - 1] == front;
      NonEmptyDrop(line);
    }
    assert NonEmptyChunks(rest) by {
      assert left != [];
    }
  }

  /** The concatenations in the long-chunk case. */
  lemma FillLongParts(cs: seq<string>, n: nat, front: seq<string>, piece: string, left: string,
                      line: seq<string>, rest: seq<string>)
    requires n < |cs| && front == cs[..n] && piece + left == cs[n]
    requires line == front + [piece] && rest == [left] + cs[n + 1..]
    ensures Concat(line) == Concat(front) + piece
    ensures Concat(line) + Concat(rest) == Concat(cs)
  {
    var tail := cs[n + 1..];
    ConcatSnoc(front, piece);
    ConcatCons(left, tail);
    ConcatAt(cs, n);
    calc {
      Concat(line) + Concat(rest);
      (Concat(front) + piece) + (left + Concat(tail));
      { AppendAssoc(Concat(front), piece, left + Concat(tail)); }
      Concat(front) + (piece + (left + Concat(tail)));
      { AppendAssoc(piece, left, Concat(tail)); }
      Concat(front) + ((piece + left) + Concat(tail));
      Concat(cs);
    }
  }

  /** The case where the line ends with whole chunks. */
  lemma FillShort(cs: seq<string>, width: nat, n: nat)
    requires width >= 1 && NonEmptyChunks(cs)
    requires n <= |cs| && (n == |cs| || |cs[n]| <= width)
    requires n == 0 || |Concat(cs[..n])| <= width
    requires n == |cs| || |Concat(cs[..n])| + |cs[n]| > width
    ensures FillOk(cs, width, Fill(cs[..n], cs[n..]))
  {
    var front := cs[..n];
    assert Concat(front) + Concat(cs[n..]) == Concat(cs) by {
      assert cs == front + cs[n..];
      ConcatAppend(front, cs[n..]);
    }
    if n > 0 {
      assert Concat(front) == front[0] + Concat(front[1..]) by {
        assert front == [front[0]] + front[1..];
        ConcatCons(front[0], front[1..]);
      }
    } else {
      assert front == [];
    }
    NonEmptyDrop(front);
  }

  lemma NonEmptyDrop(line: seq<string>)
    requires forall i :: 0 <= i < |line| - 1 ==> line[i] != []
    ensures NonEmptyChunks(DropTrailingBlank(line))
  {
  }

  // ---------------------------------------------------------------------
  // What wrapping promises.

  /** The non-whitespace characters of s (by str.isspace), in order. */
  function NonSpace(s: string): string
    decreases |s|
  {
    if s == [] then [] else (if IsSpace(s[0]) then [] else [s[0]]) + NonSpace(s[1..])
  }

  lemma {:induction false} NonSpaceAppend(a: string, b: string)
    ensures NonSpace(a + b) == NonSpace(a) + NonSpace(b)
    decreases |a|
  {
    if a == [] {
      assert a + b == b;
    } else {
      assert (a + b)[1..] == a[1..] + b;
      NonSpaceAppend(a[1..], b);
    }
  }

  lemma {:induction false} NonSpaceBlank(s: string)
    requires IsBlank(s)
    ensures NonSpace(s) == []
    decreases |s|
  {
    if s != [] {
      NonSpaceBlank(s[1..]);
    }
  }

  lemma {:induction false} NonSpaceMunge(s: string)
    ensures NonSpace(Munge(s)) == NonSpace(s)
    decreases |s|
  {
    if s != [] {
      assert Munge(s)[1..] == Munge(s[1..]);
      NonSpaceMunge(s[1..]);
    }
  }

  /** Text of textwrap whitespace only munges to spaces only. */
  lemma {:induction false} MungeBlank(s: string)
    requires AllWrapSpace(s)
    ensures AllSpaces(Munge(s))
    decreases |s|
  {
    if s != [] {
      MungeBlank(s[1..]);
      assert Munge(s)[1..] == Munge(s[1..]);
    }
  }

  /** Dropping the whitespace chunk that ends a line loses no character that matters. */
  lemma KeptLine(line: seq<string>)
    ensures NonSpace(Concat(DropTrailingBlank(line))) == NonSpace(Concat(line))
    ensures |Concat(DropTrailingBlank(line))| <= |Concat(line)|
  {
    if line != [] && IsBlank(line[|line| - 1]) {
      var front := line[..|line| - 1];
      assert front + [line[|line| - 1]] == line;
      ConcatSnoc(front, line[|line| - 1]);
      NonSpaceAppend(Concat(front), line[|line| - 1]);
      NonSpaceBlank(line[|line| - 1]);
    }
  }

  lemma ConcatNonEmpty(cs: seq<string>)
    requires cs != [] && NonEmptyChunks(cs)
    ensures |Concat(cs)| >= 1
  {
    ConcatCons(cs[0], cs[1..]);
    assert [cs[0]] + cs[1..] == cs;
  }

  /** Every line has between 1 and width characters. */
  lemma {:induction false} WrapChunksBounds(chunks: seq<string>, width: nat, started: bool)
    requires width >= 1 && NonEmptyChunks(chunks)
    ensures forall k :: 0 <= k < |WrapChunks(chunks, width, started)| ==>
      1 <= |WrapChunks(chunks, width, started)[k]| <= width
    decreases |Concat(chunks)|
  {
    if chunks != [] {
      var cs := if started && IsBlank(chunks[0]) then chunks[1..] else chunks;
      DropLeadingSmaller(chunks, cs);
      var fill := FillLine(cs, width);
      FillLineSpec(cs, width);
      var kept := DropTrailingBlank(fill.line);
      var head := if kept != [] then [Concat(kept)] else [];
      HeadWithin(fill.line, width);
      WrapChunksBounds(fill.rest, width, started || kept != []);
      var rest := WrapChunks(fill.rest, width, started || kept != []);
      assert WrapChunks(chunks, width, started) == head + rest;
      LinesWithinAppend(head, rest, width);
    }
  }

  /** The line a fill emits, if any, is within the width. */
  lemma HeadWithin(line: seq<string>, width: nat)
    requires |Concat(line)| <= width && NonEmptyChunks(DropTrailingBlank(line))
    ensures LinesWithin(if DropTrailingBlank(line) != [] then [Concat(DropTrailingBlank(line))] else [], width)
  {
    var kept := DropTrailingBlank(line);
    KeptLine(line);
    if kept != [] {
      ConcatNonEmpty(kept);
    }
  }

  predicate LinesWithin(lines: seq<string>, width: nat) {
    forall k :: 0 <= k < |lines| ==> 1 <= |lines[k]| <= width
  }

  lemma LinesWithinAppend(a: seq<string>, b: seq<string>, width: nat)
    requires LinesWithin(a, width) && LinesWithin(b, width)
    ensures LinesWithin(a + b, width)
  {
    forall k | |a| <= k < |a + b| ensures 1 <= |(a + b)[k]| <= width {
      assert (a + b)[k] == b[k - |a|];
    }
  }

  /** The lines hold the chunks' non-whitespace characters, in order. */
  lemma {:induction false} WrapChunksKeepsText(chunks: seq<string>, width: nat, started: bool)
    requires width >= 1 && NonEmptyChunks(chunks)
    ensures NonSpace(Concat(WrapChunks(chunks, width, started))) == NonSpace(Concat(chunks))
    decreases |Concat(chunks)|
  {
    if chunks != [] {
      var cs := if started && IsBlank(chunks[0]) then chunks[1..] else chunks;
      DropLeadingSmaller(chunks, cs);
      var fill := FillLine(cs, width);
      FillLineSpec(cs, width);
      var kept := DropTrailingBlank(fill.line);
      var head := if kept != [] then [Concat(kept)] else [];
      var rest := WrapChunks(fill.rest, width, started || kept != []);
      WrapChunksKeepsText(fill.rest, width, started || kept != []);
      StepKeepsText(chunks, cs, fill, head);
      assert NonSpace(Concat(head + rest)) == NonSpace(Concat(head)) + NonSpace(Concat(rest)) by {
        ConcatAppend(head, rest);
        NonSpaceAppend(Concat(head), Concat(rest));
      }
    }
  }

  /** One step of WrapChunks: the line emitted and the chunks left hold the
      non-whitespace characters of the chunks it started from. */
  lemma StepKeepsText(chunks: seq<string>, cs: seq<string>, fill: Fill, head: seq<string>)
    requires chunks != [] && (cs == chunks || (cs == chunks[1..] && IsBlank(chunks[0])))
    requires Concat(chunks) == chunks[0] + Concat(chunks[1..])
    requires Concat(fill.line) + Concat(fill.rest) == Concat(cs)
    requires var kept := DropTrailingBlank(fill.line);
      head == if kept != [] then [Concat(kept)] else []
    ensures NonSpace(Concat(chunks)) == NonSpace(Concat(head)) + NonSpace(Concat(fill.rest))
  {
    var kept := DropTrailingBlank(fill.line);
    assert NonSpace(Concat(head)) == NonSpace(Concat(fill.line)) by {
      KeptLine(fill.line);
      if kept != [] {
        ConcatSingle(Concat(kept));
      }
    }
    assert NonSpace(Concat(cs)) == NonSpace(Concat(fill.line)) + NonSpace(Concat(fill.rest)) by {
      NonSpaceAppend(Concat(fill.line), Concat(fill.rest));
    }
    assert NonSpace(Concat(chunks)) == NonSpace(Concat(cs)) by {
      if cs != chunks {
        NonSpaceAppend(chunks[0], Concat(cs));
        NonSpaceBlank(chunks[0]);
      }
    }
  }

  /** A single chunk of spaces makes no line while no line was emitted. */
  lemma {:induction false} BlankChunkNoLines(c: string, width: nat)
    requires width >= 1 && c != [] && IsBlank(c)
    ensures WrapChunks([c], width, false) == []
    decreases |c|
  {
    var fill := FillLine([c], width);
    FillLineSpec([c], width);
    assert [c][1..] == [];
    if |c| > width {
      assert FitCount([c], width) == 0;
      assert [c][..0] == [];
      assert fill.line == [c[..width]] && fill.rest == [c[width..]];
      ConcatSingle(c[width..]);
      BlankChunkNoLines(c[width..], width);
    } else {
      assert FitCount([c], width) == 1;
      assert fill.line == [c] && fill.rest == [];
    }
  }

  /** Every line has between 1 and width characters. */
  lemma WrapBounds(text: string, width: nat)
    requires width >= 1
    ensures forall k :: 0 <= k < |Wrap(text, width)| ==> 1 <= |Wrap(text, width)[k]| <= width
  {
    ChunksNonEmpty(Munge(text));
    WrapChunksBounds(Chunks(Munge(text)), width, false);
  }

  /** Wrapping loses, adds and reorders no non-whitespace character. */
  lemma WrapKeepsText(text: string, width: nat)
    requires width >= 1
    ensures NonSpace(Concat(Wrap(text, width))) == NonSpace(text)
  {
    ChunksNonEmpty(Munge(text));
    WrapChunksKeepsText(Chunks(Munge(text)), width, false);
    ChunksConcat(Munge(text));
    NonSpaceMunge(text);
  }

  /** Wrapping gives no line only when the text is all whitespace, and always
      gives none when the text is made of textwrap's whitespace characters. */
  lemma WrapEmpty(text: string, width: nat)
    requires width >= 1
    ensures Wrap(text, width) == [] ==> NonSpace(text) == []
    ensures AllWrapSpace(text) ==> Wrap(text, width) == []
  {
    WrapKeepsText(text, width);
    if AllWrapSpace(text) {
      MungeBlank(text);
      var m := Munge(text);
      ChunksNonEmpty(m);
      if m != [] {
        BlankChunks(m);
        SpacesBlank(m);
        BlankChunkNoLines(m, width);
      }
    }
  }

  lemma SpacesBlank(s: string)
    requires AllSpaces(s)
    ensures IsBlank(s)
  {
  }
}
