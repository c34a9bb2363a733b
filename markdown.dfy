/** The Quadra-Markdown block parser: headings (`#`), paragraphs separated by
    blank lines, and lists of `- ` items.

    The parser itself (ParseQuadraMarkdown) is the source's line-driven state
    machine with a pending paragraph and an optional pending list. Its
    reference definition is Group: every line is classified on its own
    (Classify), and the blocks are the maximal runs of item lines and of text
    lines, one block per heading line, blank lines separating. */
module Markdown {
  import opened Text
  import opened Options

  datatype Block =
    | Heading(level: int, text: string)
    | Paragraph(text: string)
    | List(items: seq<string>)

  /** What one input line contributes, decided from the line alone. */
  datatype LineKind =
    | Blank
    | HeadingLine(level: nat, text: string)
    | ItemLine(text: string)
    | TextLine(text: string)

  /** The line as the parser sees it: `raw_line.rstrip().strip()`. */
  function Stripped(raw: string): string {
    Strip(RStrip(raw))
  }

  /** Number of leading `#` characters of s. */
  function HashCount(s: string): (n: nat)
    ensures n <= |s|
    ensures forall i :: 0 <= i < n ==> s[i] == '#'
    ensures n == |s| || s[n] != '#'
  {
    |s| - |LStripChar(s, '#')|
  }

  /** `stripped.startswith("- ")`. */
  predicate IsItem(stripped: string) {
    |stripped| >= 2 && stripped[0] == '-' && stripped[1] == ' '
  }

  function Classify(raw: string): LineKind {
    var stripped := Stripped(raw);
    if stripped == [] then Blank
    else if stripped[0] == '#' then
      var level := HashCount(stripped);
      HeadingLine(level, Strip(stripped[level..]))
    else if IsItem(stripped) then ItemLine(Strip(stripped[2..]))
    else TextLine(stripped)
  }

  /** Every line classified, in order. */
  function ClassifyAll(lines: seq<string>): (ks: seq<LineKind>)
    ensures |ks| == |lines|
    decreases |lines|
  {
    if lines == [] then []
    else ClassifyAll(lines[..|lines| - 1]) + [Classify(lines[|lines| - 1])]
  }

  lemma ClassifyAllSnoc(lines: seq<string>, i: nat)
    requires i < |lines|
    ensures ClassifyAll(lines[..i + 1]) == ClassifyAll(lines[..i]) + [Classify(lines[i])]
  {
    var p := lines[..i + 1];
    assert p[..|p| - 1] == lines[..i];
    assert p[|p| - 1] == lines[i];
  }

  /** A heading line starts with `#` once stripped; its level is the number of
      leading `#` (at least one) and its text is the rest, stripped. */
  lemma HeadingLevelIsHashCount(raw: string)
    requires Stripped(raw) != [] && Stripped(raw)[0] == '#'
    ensures Classify(raw).HeadingLine?
    ensures var level := Classify(raw).level; var st := Stripped(raw);
      && 1 <= level <= |st|
      && (forall i :: 0 <= i < level ==> st[i] == '#')
      && (level == |st| || st[level] != '#')
      && Classify(raw).text == Strip(st[level..])
  {
  }

  /** Item and text lines never carry empty text, and a text line's text is
      already stripped. */
  predicate WellFormed(k: LineKind) {
    && (k.TextLine? ==> IsStripped(k.text))
    && (k.ItemLine? ==> k.text != [])
  }

  /** A non-empty string that starts and ends with a non-space character,
      which is what str.strip() leaves of a line that is not blank. */
  predicate IsStripped(s: string) {
    s != [] && !IsSpace(s[0]) && !IsSpace(s[|s| - 1])
  }

  lemma ClassifyWellFormed(raw: string)
    ensures WellFormed(Classify(raw))
  {
    var stripped := Stripped(raw);
    if stripped != [] && stripped[0] != '#' {
      // a stripped line ends in a non-space character
      StripEnds(RStrip(raw));
      assert !IsSpace(stripped[|stripped| - 1]);
      if IsItem(stripped) {
        assert |stripped| > 2;
        ItemTextNonEmpty(stripped[2..]);
      }
    }
  }

  lemma {:induction false} AllWellFormed(lines: seq<string>)
    ensures forall k :: 0 <= k < |lines| ==> WellFormed(ClassifyAll(lines)[k])
    decreases |lines|
  {
    if lines != [] {
      var init := lines[..|lines| - 1];
      AllWellFormed(init);
      ClassifyWellFormed(lines[|lines| - 1]);
      var ks := ClassifyAll(lines);
      assert ks == ClassifyAll(init) + [Classify(lines[|lines| - 1])];
      forall k | 0 <= k < |lines| ensures WellFormed(ks[k]) {
        if k < |init| {
          assert ks[k] == ClassifyAll(init)[k];
        }
      }
    }
  }

  lemma ItemTextNonEmpty(rest: string)
    requires rest != [] && !IsSpace(rest[|rest| - 1])
    ensures Strip(rest) != []
  {
    StripEnds(rest);
    assert !AllSpace(rest);
  }

  // ---------------------------------------------------------------------
  // The reference definition: maximal runs.

  /** Whether k continues a run of item lines (item) or of text lines (!item). */
  predicate InRun(k: LineKind, item: bool) {
    if item then k.ItemLine? else k.TextLine?
  }

  predicate AllInRun(ks: seq<LineKind>, item: bool) {
    forall i :: 0 <= i < |ks| ==> InRun(ks[i], item)
  }

  /** Two adjacent lines that belong to one block. */
  predicate SameRun(a: LineKind, b: LineKind) {
    (a.ItemLine? && b.ItemLine?) || (a.TextLine? && b.TextLine?)
  }

  /** Length of the run that ks starts with. */
  function RunLength(ks: seq<LineKind>, item: bool): (n: nat)
    ensures n <= |ks|
    decreases |ks|
  {
    if ks == [] || !InRun(ks[0], item) then 0 else 1 + RunLength(ks[1..], item)
  }

  lemma {:induction false} RunLengthSpec(ks: seq<LineKind>, item: bool)
    ensures AllInRun(ks[..RunLength(ks, item)], item)
    ensures RunLength(ks, item) == |ks| || !InRun(ks[RunLength(ks, item)], item)
    decreases |ks|
  {
    if ks != [] && InRun(ks[0], item) {
      RunLengthSpec(ks[1..], item);
      var m := RunLength(ks[1..], item);
      assert ks[..1 + m] == [ks[0]] + ks[1..][..m];
    }
  }

  lemma {:induction false} RunLengthUnique(ks: seq<LineKind>, item: bool, n: nat)
    requires n <= |ks| && AllInRun(ks[..n], item) && (n == |ks| || !InRun(ks[n], item))
    ensures RunLength(ks, item) == n
    decreases |ks|
  {
    if n > 0 {
      assert ks[..n][0] == ks[0];
      assert ks[1..][..n - 1] == ks[..n][1..];
      RunLengthUnique(ks[1..], item, n - 1);
    }
  }

  /** The texts of a run of item or text lines. */
  function Texts(ks: seq<LineKind>): (ts: seq<string>)
    ensures |ts| == |ks|
  {
    seq(|ks|, i requires 0 <= i < |ks| => TextOf(ks[i]))
  }

  /** The text a line carries (none for a blank line). */
  function TextOf(k: LineKind): string {
    if k.Blank? then [] else k.text
  }

  /** The block that a run of item lines (item) or of text lines (!item) makes. */
  function RunBlock(run: seq<LineKind>, item: bool): Block {
    if item then List(Texts(run)) else Paragraph(Join(" ", Texts(run)))
  }

  function Group(ks: seq<LineKind>): seq<Block>
    decreases |ks|
  {
    if ks == [] then []
    else if ks[0].Blank? then Group(ks[1..])
    else if ks[0].HeadingLine? then [Heading(ks[0].level, ks[0].text)] + Group(ks[1..])
    else
      var item := ks[0].ItemLine?;
      var n := RunLength(ks, item);
      [RunBlock(ks[..n], item)] + Group(ks[n..])
  }

  /** The blocks of a document. */
  function Blocks(text: string): seq<Block> {
    Group(ClassifyAll(SplitLines(text)))
  }

  /** A blank line, a heading line, or a switch between item and text lines
      ends a block: grouping splits there. */
  lemma {:induction false} GroupSplitsAtBoundary(a: seq<LineKind>, b: seq<LineKind>)
    requires a == [] || b == [] || !SameRun(a[|a| - 1], b[0])
    ensures Group(a + b) == Group(a) + Group(b)
    decreases |a|, 1
  {
    if a == [] {
      assert a + b == b;
    } else {
      var ab := a + b;
      assert ab[0] == a[0];
      if a[0].Blank? || a[0].HeadingLine? {
        assert ab[1..] == a[1..] + b;
        GroupSplitsAtBoundary(a[1..], b);
      } else {
        GroupSplitsAfterRun(a, b, a[0].ItemLine?);
      }
    }
  }

  /** The case of GroupSplitsAtBoundary where a starts with a run. */
  lemma {:induction false} GroupSplitsAfterRun(a: seq<LineKind>, b: seq<LineKind>, item: bool)
    requires a != [] && InRun(a[0], item)
    requires b == [] || !SameRun(a[|a| - 1], b[0])
    ensures Group(a + b) == Group(a) + Group(b)
    decreases |a|, 0
  {
    RunPrefixOfAppend(a, b, item);
    var m := RunLength(a, item);
    GroupOfRunAppend(a, b, item, m);
    RestBoundary(a, b, m);
    GroupSplitsAtBoundary(a[m..], b);
    GroupOfRunStart(a, item);
    AppendAssoc([RunBlock(a[..m], item)], Group(a[m..]), Group(b));
  }

  /** Group of a + b, unfolded at the run that a starts with when the run
      ends within a. */
  lemma GroupOfRunAppend(a: seq<LineKind>, b: seq<LineKind>, item: bool, m: nat)
    requires a != [] && InRun(a[0], item)
    requires m == RunLength(a, item) == RunLength(a + b, item) && m <= |a|
    ensures Group(a + b) == [RunBlock(a[..m], item)] + Group(a[m..] + b)
  {
    var ab := a + b;
    GroupOfRunStart(ab, item);
    assert ab[..m] == a[..m];
    assert ab[m..] == a[m..] + b;
  }

  lemma RestBoundary(a: seq<LineKind>, b: seq<LineKind>, m: nat)
    requires a != [] && m <= |a|
    requires b == [] || !SameRun(a[|a| - 1], b[0])
    ensures a[m..] == [] || b == [] || !SameRun(a[m..][|a[m..]| - 1], b[0])
  {
    if m < |a| {
      assert a[m..][|a[m..]| - 1] == a[|a| - 1];
    }
  }

  /** Group, unfolded once at a run. */
  lemma GroupOfRunStart(ks: seq<LineKind>, item: bool)
    requires ks != [] && InRun(ks[0], item)
    ensures Group(ks) == [RunBlock(ks[..RunLength(ks, item)], item)] + Group(ks[RunLength(ks, item)..])
  {
    assert item == ks[0].ItemLine?;
  }

  lemma RunPrefixOfAppend(a: seq<LineKind>, b: seq<LineKind>, item: bool)
    requires a != [] && InRun(a[0], item)
    requires b == [] || !SameRun(a[|a| - 1], b[0])
    ensures RunLength(a + b, item) == RunLength(a, item) >= 1
  {
    var m := RunLength(a, item);
    RunLengthSpec(a, item);
    var ab := a + b;
    assert ab[..m] == a[..m];
    if m < |a| {
      assert ab[m] == a[m];
    } else if b != [] {
      assert InRun(a[..m][|a| - 1], item);
      assert ab[m] == b[0];
    }
    RunLengthUnique(ab, item, m);
  }

  /** Consecutive item lines make one list whose items are their texts, in
      order; consecutive text lines make one paragraph, joined by single spaces. */
  lemma RunIsOneBlock(ks: seq<LineKind>, item: bool)
    requires ks != [] && AllInRun(ks, item)
    ensures Group(ks) == [RunBlock(ks, item)]
  {
    assert ks[..|ks|] == ks;
    RunLengthUnique(ks, item, |ks|);
    assert ks[|ks|..] == [];
  }

  lemma JoinNonEmpty(sep: string, parts: seq<string>)
    requires parts != [] && parts[|parts| - 1] != []
    ensures Join(sep, parts) != []
  {
  }

  /** No paragraph is empty, no list is empty and no list item is empty. */
  predicate NonEmptyBlock(b: Block) {
    && (b.Paragraph? ==> b.text != [])
    && (b.List? ==> b.items != [] && forall j :: 0 <= j < |b.items| ==> b.items[j] != [])
  }

  lemma {:induction false} GroupHasNoEmptyBlocks(ks: seq<LineKind>)
    requires forall i :: 0 <= i < |ks| ==> WellFormed(ks[i])
    ensures forall k :: 0 <= k < |Group(ks)| ==> NonEmptyBlock(Group(ks)[k])
    decreases |ks|
  {
    if ks != [] {
      if ks[0].Blank? || ks[0].HeadingLine? {
        GroupHasNoEmptyBlocks(ks[1..]);
      } else {
        var item := ks[0].ItemLine?;
        var n := RunLength(ks, item);
        GroupOfRunStart(ks, item);
        GroupHasNoEmptyBlocks(ks[n..]);
        RunBlockNonEmpty(ks, n, item);
      }
    }
  }

  /** The block of the run that ks starts with is non-empty. */
  lemma RunBlockNonEmpty(ks: seq<LineKind>, n: nat, item: bool)
    requires ks != [] && InRun(ks[0], item) && n == RunLength(ks, item)
    requires forall i :: 0 <= i < |ks| ==> WellFormed(ks[i])
    ensures NonEmptyBlock(RunBlock(ks[..n], item))
  {
    RunLengthSpec(ks, item);
    var ts := Texts(ks[..n]);
    if item {
      forall j | 0 <= j < |ts| ensures ts[j] != [] {
        assert ks[..n][j] == ks[j];
      }
    } else {
      assert ts[n - 1] == ks[n - 1].text;
      JoinNonEmpty(" ", ts);
    }
  }

  /** Every block the parser emits is non-empty. */
  lemma BlocksAreNonEmpty(text: string)
    ensures forall k :: 0 <= k < |Blocks(text)| ==> NonEmptyBlock(Blocks(text)[k])
  {
    AllWellFormed(SplitLines(text));
    GroupHasNoEmptyBlocks(ClassifyAll(SplitLines(text)));
  }

  // ---------------------------------------------------------------------
  // Nothing is lost or reordered: headings and list items.

  function HeadingsOf(blocks: seq<Block>): seq<(int, string)>
    decreases |blocks|
  {
    if blocks == [] then []
    else
      var head := if blocks[0].Heading? then [(blocks[0].level, blocks[0].text)] else [];
      head + HeadingsOf(blocks[1..])
  }

  function HeadingLinesOf(ks: seq<LineKind>): seq<(int, string)>
    decreases |ks|
  {
    if ks == [] then []
    else
      var head := if ks[0].HeadingLine? then [(ks[0].level as int, ks[0].text)] else [];
      head + HeadingLinesOf(ks[1..])
  }

  function ItemsOf(blocks: seq<Block>): seq<string>
    decreases |blocks|
  {
    if blocks == [] then []
    else (if blocks[0].List? then blocks[0].items else []) + ItemsOf(blocks[1..])
  }

  function ItemLinesOf(ks: seq<LineKind>): seq<string>
    decreases |ks|
  {
    if ks == [] then []
    else (if ks[0].ItemLine? then [ks[0].text] else []) + ItemLinesOf(ks[1..])
  }

  lemma {:induction false} HeadingLinesOfAppend(a: seq<LineKind>, b: seq<LineKind>)
    ensures HeadingLinesOf(a + b) == HeadingLinesOf(a) + HeadingLinesOf(b)
    decreases |a|
  {
    if a == [] {
      assert a + b == b;
    } else {
      assert (a + b)[1..] == a[1..] + b;
      HeadingLinesOfAppend(a[1..], b);
    }
  }

  lemma {:induction false} ItemLinesOfAppend(a: seq<LineKind>, b: seq<LineKind>)
    ensures ItemLinesOf(a + b) == ItemLinesOf(a) + ItemLinesOf(b)
    decreases |a|
  {
    if a == [] {
      assert a + b == b;
    } else {
      assert (a + b)[1..] == a[1..] + b;
      ItemLinesOfAppend(a[1..], b);
    }
  }

  lemma {:induction false} RunHasNoHeadings(ks: seq<LineKind>, item: bool)
    requires AllInRun(ks, item)
    ensures HeadingLinesOf(ks) == []
    ensures item ==> ItemLinesOf(ks) == Texts(ks)
    ensures !item ==> ItemLinesOf(ks) == []
    decreases |ks|
  {
    if ks != [] {
      RunHasNoHeadings(ks[1..], item);
      if item {
        assert Texts(ks) == [ks[0].text] + Texts(ks[1..]);
      }
    }
  }

  /** The headings come out one per heading line, in line order. */
  lemma {:induction false} GroupKeepsHeadings(ks: seq<LineKind>)
    ensures HeadingsOf(Group(ks)) == HeadingLinesOf(ks)
    decreases |ks|
  {
    if ks != [] {
      if ks[0].Blank? {
        GroupKeepsHeadings(ks[1..]);
      } else if ks[0].HeadingLine? {
        GroupKeepsHeadings(ks[1..]);
        assert ([Heading(ks[0].level, ks[0].text)] + Group(ks[1..]))[1..] == Group(ks[1..]);
      } else {
        var item := ks[0].ItemLine?;
        var n := RunLength(ks, item);
        GroupKeepsHeadings(ks[n..]);
        RunBlockSplit(ks, item);
        RunLinesSplit(ks, item);
      }
    }
  }

  /** The run that ks starts with makes one block, which is no heading, and
      is a list of the run's texts when it is a run of item lines. */
  lemma RunBlockSplit(ks: seq<LineKind>, item: bool)
    requires ks != [] && InRun(ks[0], item)
    ensures var n := RunLength(ks, item);
      && HeadingsOf(Group(ks)) == HeadingsOf(Group(ks[n..]))
      && ItemsOf(Group(ks)) == (if item then Texts(ks[..n]) else []) + ItemsOf(Group(ks[n..]))
  {
    var n := RunLength(ks, item);
    GroupOfRunStart(ks, item);
    assert ([RunBlock(ks[..n], item)] + Group(ks[n..]))[1..] == Group(ks[n..]);
  }

  /** The lines of the run that ks starts with hold no heading, and their
      texts are items when it is a run of item lines. */
  lemma RunLinesSplit(ks: seq<LineKind>, item: bool)
    requires ks != [] && InRun(ks[0], item)
    ensures var n := RunLength(ks, item);
      && HeadingLinesOf(ks) == HeadingLinesOf(ks[n..])
      && ItemLinesOf(ks) == (if item then Texts(ks[..n]) else []) + ItemLinesOf(ks[n..])
  {
    var n := RunLength(ks, item);
    var run, rest := ks[..n], ks[n..];
    RunLengthSpec(ks, item);
    RunHasNoHeadings(run, item);
    assert ks == run + rest;
    HeadingLinesOfAppend(run, rest);
    ItemLinesOfAppend(run, rest);
  }

  /** The list items, read across all lists, are the item lines' texts in order. */
  lemma {:induction false} GroupKeepsItems(ks: seq<LineKind>)
    ensures ItemsOf(Group(ks)) == ItemLinesOf(ks)
    decreases |ks|
  {
    if ks != [] {
      if ks[0].Blank? {
        GroupKeepsItems(ks[1..]);
      } else if ks[0].HeadingLine? {
        GroupKeepsItems(ks[1..]);
        assert ([Heading(ks[0].level, ks[0].text)] + Group(ks[1..]))[1..] == Group(ks[1..]);
      } else {
        var item := ks[0].ItemLine?;
        var n := RunLength(ks, item);
        GroupKeepsItems(ks[n..]);
        RunBlockSplit(ks, item);
        RunLinesSplit(ks, item);
      }
    }
  }

  // ---------------------------------------------------------------------
  // The parser as the source writes it.

  /** `[line.strip() for line in paragraph if line.strip()]`. */
  function NonEmptyStripped(paragraph: seq<string>): seq<string>
    decreases |paragraph|
  {
    if paragraph == [] then []
    else
      var rest := NonEmptyStripped(paragraph[..|paragraph| - 1]);
      var last := Strip(paragraph[|paragraph| - 1]);
      if last == [] then rest else rest + [last]
  }

  lemma {:induction false} NonEmptyStrippedOfStripped(paragraph: seq<string>)
    requires forall i :: 0 <= i < |paragraph| ==> IsStripped(paragraph[i])
    ensures NonEmptyStripped(paragraph) == paragraph
    decreases |paragraph|
  {
    if paragraph != [] {
      var init := paragraph[..|paragraph| - 1];
      NonEmptyStrippedOfStripped(init);
      StripOfStripped(paragraph[|paragraph| - 1]);
      FrontLast(paragraph);
    }
  }

  /** flush_paragraph, on the blocks emitted so far. */
  function FlushParagraph(blocks: seq<Block>, paragraph: seq<string>): seq<Block> {
    if paragraph != [] then
      var joined := Join(" ", NonEmptyStripped(paragraph));
      if joined != [] then blocks + [Paragraph(joined)] else blocks
    else blocks
  }

  /** flush_list, on the blocks emitted so far. */
  function FlushList(blocks: seq<Block>, currentList: Option<seq<string>>): seq<Block> {
    if currentList.Some? && currentList.value != [] then blocks + [List(currentList.value)]
    else blocks
  }

  /** Pending paragraph lines, as the source's flush turns them into a block. */
  lemma FlushPendingRun(ks: seq<LineKind>, item: bool)
    requires ks != [] && AllInRun(ks, item)
    requires forall i :: 0 <= i < |ks| ==> WellFormed(ks[i])
    ensures !item ==> FlushParagraph([], Texts(ks)) == Group(ks)
    ensures item ==> FlushList([], Some(Texts(ks))) == Group(ks)
  {
    RunIsOneBlock(ks, item);
    if !item {
      FlushParagraphRun(ks);
    }
  }

  lemma FlushParagraphRun(ks: seq<LineKind>)
    requires ks != [] && AllInRun(ks, false)
    requires forall i :: 0 <= i < |ks| ==> WellFormed(ks[i])
    ensures FlushParagraph([], Texts(ks)) == [RunBlock(ks, false)]
  {
    var ts := Texts(ks);
    assert forall i :: 0 <= i < |ts| ==> IsStripped(ts[i]) by {
      forall i | 0 <= i < |ts| ensures IsStripped(ts[i]) {
        assert WellFormed(ks[i]);
      }
    }
    NonEmptyStrippedOfStripped(ts);
    JoinNonEmpty(" ", ts);
  }

  /** The pending paragraph or list holds the texts of the pending run. */
  predicate Pending(run: seq<LineKind>, paragraph: seq<string>, currentList: Option<seq<string>>) {
    && (forall k :: 0 <= k < |run| ==> WellFormed(run[k]))
    && (paragraph == [] || currentList.None?)
    && ((paragraph == [] && currentList.None?) <==> run == [])
    && (paragraph != [] ==> AllInRun(run, false) && paragraph == Texts(run))
    && (currentList.Some? ==> AllInRun(run, true) && currentList.value == Texts(run))
  }

  /** The parser's state: the blocks of the lines done are emitted, and the
      lines of run are pending; a pending run starts a new block. */
  predicate ParserState(done: seq<LineKind>, run: seq<LineKind>, blocks: seq<Block>,
                        paragraph: seq<string>, currentList: Option<seq<string>>)
  {
    && blocks == Group(done)
    && Pending(run, paragraph, currentList)
    && (done != [] && run != [] ==> !SameRun(done[|done| - 1], run[0]))
    && (done != [] && run == [] ==> done[|done| - 1].Blank? || done[|done| - 1].HeadingLine?)
  }

  /** At most one of the pending paragraph and the pending list is open. */
  lemma PendingIsOne(done: seq<LineKind>, run: seq<LineKind>, blocks: seq<Block>,
                     paragraph: seq<string>, currentList: Option<seq<string>>)
    requires ParserState(done, run, blocks, paragraph, currentList)
    ensures paragraph == [] || currentList.None?
  {
  }

  /** Flushing adds the pending run's block to what was emitted. */
  lemma FlushPending(blocks: seq<Block>, run: seq<LineKind>, paragraph: seq<string>, currentList: Option<seq<string>>)
    requires Pending(run, paragraph, currentList)
    ensures FlushList(FlushParagraph(blocks, paragraph), currentList) == blocks + Group(run)
    ensures paragraph == [] ==> FlushList(blocks, currentList) == blocks + Group(run)
    ensures currentList.None? ==> FlushParagraph(blocks, paragraph) == blocks + Group(run)
  {
    if paragraph != [] {
      FlushPendingRun(run, false);
    } else if currentList.Some? {
      FlushPendingRun(run, true);
    }
  }

  /** A blank line flushes the pending block. */
  lemma BlankStep(done: seq<LineKind>, run: seq<LineKind>, blocks: seq<Block>,
                  paragraph: seq<string>, currentList: Option<seq<string>>, blocks': seq<Block>)
    requires ParserState(done, run, blocks, paragraph, currentList)
    requires blocks' == FlushList(FlushParagraph(blocks, paragraph), currentList)
    ensures ParserState(done + run + [Blank], [], blocks', [], None)
  {
    FlushPending(blocks, run, paragraph, currentList);
    ClosePending(done, run, Blank);
    assert Group([Blank]) == [] by {
      assert [Blank][1..] == [];
    }
  }

  /** A heading line flushes the pending block and adds the heading. */
  lemma HeadingStep(done: seq<LineKind>, run: seq<LineKind>, level: nat, text: string, blocks: seq<Block>,
                    paragraph: seq<string>, currentList: Option<seq<string>>, blocks': seq<Block>)
    requires ParserState(done, run, blocks, paragraph, currentList)
    requires blocks' == FlushList(FlushParagraph(blocks, paragraph), currentList) + [Heading(level, text)]
    ensures ParserState(done + run + [HeadingLine(level, text)], [], blocks', [], None)
  {
    FlushPending(blocks, run, paragraph, currentList);
    ClosePending(done, run, HeadingLine(level, text));
    var k := [HeadingLine(level, text)];
    assert Group(k) == [Heading(level, text)] by {
      assert k[1..] == [];
    }
  }

  /** Group splits before and after a blank or heading line. */
  lemma ClosePending(done: seq<LineKind>, run: seq<LineKind>, k: LineKind)
    requires k.Blank? || k.HeadingLine?
    requires done != [] && run != [] ==> !SameRun(done[|done| - 1], run[0])
    ensures Group(done + run + [k]) == Group(done) + Group(run) + Group([k])
  {
    var tail := run + [k];
    assert Group(done + tail) == Group(done) + Group(tail) by {
      assert tail[0] == if run != [] then run[0] else k;
      GroupSplitsAtBoundary(done, tail);
    }
    assert Group(tail) == Group(run) + Group([k]) by {
      GroupSplitsAtBoundary(run, [k]);
    }
    AppendAssoc(done, run, [k]);
    AppendAssoc(Group(done), Group(run), Group([k]));
  }

  /** A line that cannot continue the non-empty pending run closes it and
      starts a new one: an item line after a paragraph, a text line after a list. */
  lemma NewRun(done: seq<LineKind>, run: seq<LineKind>, k: LineKind, item: bool, blocks: seq<Block>,
               paragraph: seq<string>, currentList: Option<seq<string>>, blocks': seq<Block>)
    requires ParserState(done, run, blocks, paragraph, currentList)
    requires run != [] && AllInRun(run, !item)
    requires InRun(k, item) && WellFormed(k)
    requires blocks' == blocks + Group(run)
    ensures ParserState(done + run, [k], blocks', if item then [] else [k.text], if item then Some([k.text]) else None)
  {
    assert blocks' == Group(done + run) by {
      OpenRun(done, run);
    }
    assert !SameRun((done + run)[|done + run| - 1], k) by {
      assert (done + run)[|done + run| - 1] == run[|run| - 1];
    }
    PendingOne(k, item);
  }

  /** A run of one line, pending in the paragraph or in the list. */
  lemma PendingOne(k: LineKind, item: bool)
    requires InRun(k, item) && WellFormed(k)
    ensures Pending([k], if item then [] else [k.text], if item then Some([k.text]) else None)
  {
    assert Texts([k]) == [k.text];
  }

  /** A line that continues the pending run (or opens one after a blank or a
      heading) joins it. */
  lemma JoinRun(done: seq<LineKind>, run: seq<LineKind>, k: LineKind, item: bool, blocks: seq<Block>,
                paragraph: seq<string>, currentList: Option<seq<string>>)
    requires ParserState(done, run, blocks, paragraph, currentList)
    requires if item then paragraph == [] else currentList.None?
    requires InRun(k, item) && WellFormed(k)
    ensures item ==> ParserState(done, run + [k], blocks, [],
                                 Some((if currentList.None? then [] else currentList.value) + [k.text]))
    ensures !item ==> ParserState(done, run + [k], blocks, paragraph + [k.text], None)
  {
    AppendToRun(done, run, k, item);
  }

  /** A line of the other kind closes the pending run: Group splits after it. */
  lemma OpenRun(done: seq<LineKind>, run: seq<LineKind>)
    requires done != [] && run != [] ==> !SameRun(done[|done| - 1], run[0])
    ensures Group(done + run) == Group(done) + Group(run)
  {
    GroupSplitsAtBoundary(done, run);
  }

  /** k joins the pending run (empty or of the same kind). */
  lemma AppendToRun(done: seq<LineKind>, run: seq<LineKind>, k: LineKind, item: bool)
    requires InRun(k, item) && AllInRun(run, item) && WellFormed(k)
    requires forall i :: 0 <= i < |run| ==> WellFormed(run[i])
    ensures AllInRun(run + [k], item)
    ensures forall i :: 0 <= i < |run + [k]| ==> WellFormed((run + [k])[i])
    ensures Texts(run + [k]) == Texts(run) + [k.text]
    ensures (run + [k])[0] == if run == [] then k else run[0]
  {
  }

  /** After the last line, the final flush completes Group. */
  lemma FinishStep(done: seq<LineKind>, run: seq<LineKind>, blocks: seq<Block>,
                   paragraph: seq<string>, currentList: Option<seq<string>>)
    requires ParserState(done, run, blocks, paragraph, currentList)
    ensures FlushList(FlushParagraph(blocks, paragraph), currentList) == Group(done + run)
  {
    FlushPending(blocks, run, paragraph, currentList);
    OpenRun(done, run);
  }
}
