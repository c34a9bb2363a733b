/** parse_quadra_markdown as the source writes it: one pass over the lines
    with a pending paragraph and an optional pending list, proved to produce
    the blocks that Markdown.Blocks defines. */
module Parser {
  import opened Text
  import opened Options
  import opened Markdown

  /** parse_quadra_markdown: one pass over the lines, with a pending paragraph
      and an optional pending list that a blank line, a heading or a switch
      between items and text flushes. */
  method ParseQuadraMarkdown(text: string) returns (blocks: seq<Block>)
    ensures blocks == Blocks(text)
  {
    var lines := SplitLines(text);
    var paragraph, currentList;
    ghost var done, run;
    blocks, paragraph, currentList, done, run := ParseLines(lines);
    blocks := Finish(blocks, paragraph, currentList, done, run);
  }

  /** The loop over the lines: afterwards the blocks of all lines but the
      pending run are emitted. */
  method ParseLines(lines: seq<string>)
    returns (blocks: seq<Block>, paragraph: seq<string>, currentList: Option<seq<string>>,
             ghost done: seq<LineKind>, ghost run: seq<LineKind>)
    ensures done + run == ClassifyAll(lines)
    ensures ParserState(done, run, blocks, paragraph, currentList)
  {
    blocks := [];
    paragraph := [];
    currentList := None;
    // the lines whose blocks are emitted, and the lines of the pending block
    done := [];
    run := [];
    for i := 0 to |lines|
      invariant done + run == ClassifyAll(lines[..i])
      invariant ParserState(done, run, blocks, paragraph, currentList)
    {
      ClassifyAllSnoc(lines, i);
      blocks, paragraph, currentList, done, run := ParseLine(lines[i], blocks, paragraph, currentList, done, run);
    }
    assert lines[..|lines|] == lines;
  }

  /** After the last line: the pending paragraph, then the pending list, is flushed. */
  method Finish(blocks: seq<Block>, paragraph: seq<string>, currentList: Option<seq<string>>,
                ghost done: seq<LineKind>, ghost run: seq<LineKind>)
    returns (blocks': seq<Block>)
    requires ParserState(done, run, blocks, paragraph, currentList)
    ensures blocks' == Group(done + run)
  {
    FinishStep(done, run, blocks, paragraph, currentList);
    blocks' := FlushParagraph(blocks, paragraph);
    blocks' := FlushList(blocks', currentList);
  }

  /** One turn of the parser's loop, on one raw line. The source ends each of
      the first three cases with `continue`. */
  method ParseLine(raw: string, blocks: seq<Block>, paragraph: seq<string>, currentList: Option<seq<string>>,
                   ghost done: seq<LineKind>, ghost run: seq<LineKind>)
    returns (blocks': seq<Block>, paragraph': seq<string>, currentList': Option<seq<string>>,
             ghost done': seq<LineKind>, ghost run': seq<LineKind>)
    requires ParserState(done, run, blocks, paragraph, currentList)
    ensures done' + run' == done + run + [Classify(raw)]
    ensures ParserState(done', run', blocks', paragraph', currentList')
  {
    var line := RStrip(raw);
    var stripped := Strip(line);
    ghost var k := Classify(raw);
    ClassifyWellFormed(raw);

    if stripped == [] {
      assert k == Blank;
      blocks', paragraph', currentList', done', run' := OnBlank(blocks, paragraph, currentList, done, run);
    } else if stripped[0] == '#' {
      var level := |stripped| - |LStripChar(stripped, '#')|;
      var headingText := Strip(stripped[level..]);
      assert k == HeadingLine(level, headingText);
      blocks', paragraph', currentList', done', run' := OnHeading(level, headingText, blocks, paragraph, currentList, done, run);
    } else if IsItem(stripped) {
      var item := Strip(stripped[2..]);
      assert k == ItemLine(item);
      blocks', paragraph', currentList', done', run' := OnItem(item, blocks, paragraph, currentList, done, run);
    } else {
      assert k == TextLine(stripped);
      blocks', paragraph', currentList', done', run' := OnText(stripped, blocks, paragraph, currentList, done, run);
    }
  }

  /** A blank line flushes the pending paragraph, then the pending list. */
  method OnBlank(blocks: seq<Block>, paragraph: seq<string>, currentList: Option<seq<string>>,
                 ghost done: seq<LineKind>, ghost run: seq<LineKind>)
    returns (blocks': seq<Block>, paragraph': seq<string>, currentList': Option<seq<string>>,
             ghost done': seq<LineKind>, ghost run': seq<LineKind>)
    requires ParserState(done, run, blocks, paragraph, currentList)
    ensures done' + run' == done + run + [Blank]
    ensures ParserState(done', run', blocks', paragraph', currentList')
  {
    blocks' := FlushParagraph(blocks, paragraph);
    paragraph' := [];
    blocks' := FlushList(blocks', currentList);
    currentList' := None;
    done', run' := done + run + [Blank], [];
    BlankStep(done, run, blocks, paragraph, currentList, blocks');
  }

  /** A heading line flushes both pending blocks and emits the heading. */
  method OnHeading(level: nat, headingText: string, blocks: seq<Block>, paragraph: seq<string>,
                   currentList: Option<seq<string>>, ghost done: seq<LineKind>, ghost run: seq<LineKind>)
    returns (blocks': seq<Block>, paragraph': seq<string>, currentList': Option<seq<string>>,
             ghost done': seq<LineKind>, ghost run': seq<LineKind>)
    requires ParserState(done, run, blocks, paragraph, currentList)
    ensures done' + run' == done + run + [HeadingLine(level, headingText)]
    ensures ParserState(done', run', blocks', paragraph', currentList')
  {
    blocks' := FlushParagraph(blocks, paragraph);
    paragraph' := [];
    blocks' := FlushList(blocks', currentList);
    currentList' := None;
    blocks' := blocks' + [Heading(level, headingText)];
    done', run' := done + run + [HeadingLine(level, headingText)], [];
    HeadingStep(done, run, level, headingText, blocks, paragraph, currentList, blocks');
  }

  /** An item line flushes the pending paragraph and appends its text to the
      pending list, opening one if there is none. */
  method OnItem(item: string, blocks: seq<Block>, paragraph: seq<string>, currentList: Option<seq<string>>,
                ghost done: seq<LineKind>, ghost run: seq<LineKind>)
    returns (blocks': seq<Block>, paragraph': seq<string>, currentList': Option<seq<string>>,
             ghost done': seq<LineKind>, ghost run': seq<LineKind>)
    requires ParserState(done, run, blocks, paragraph, currentList)
    requires WellFormed(ItemLine(item))
    ensures done' + run' == done + run + [ItemLine(item)]
    ensures ParserState(done', run', blocks', paragraph', currentList')
  {
    ghost var k := ItemLine(item);
    blocks' := FlushParagraph(blocks, paragraph);
    paragraph' := [];
    var items := if currentList.None? then [] else currentList.value;
    currentList' := Some(items + [item]);
    if paragraph != [] {
      FlushPending(blocks, run, paragraph, currentList);
      assert items == [] by {
        PendingIsOne(done, run, blocks, paragraph, currentList);
      }
      NewRun(done, run, k, true, blocks, paragraph, currentList, blocks');
      done', run' := done + run, [k];
    } else {
      JoinRun(done, run, k, true, blocks, paragraph, currentList);
      done', run' := done, run + [k];
    }
  }

  /** A text line flushes the pending list and joins the pending paragraph. */
  method OnText(stripped: string, blocks: seq<Block>, paragraph: seq<string>, currentList: Option<seq<string>>,
                ghost done: seq<LineKind>, ghost run: seq<LineKind>)
    returns (blocks': seq<Block>, paragraph': seq<string>, currentList': Option<seq<string>>,
             ghost done': seq<LineKind>, ghost run': seq<LineKind>)
    requires ParserState(done, run, blocks, paragraph, currentList)
    requires WellFormed(TextLine(stripped))
    ensures done' + run' == done + run + [TextLine(stripped)]
    ensures ParserState(done', run', blocks', paragraph', currentList')
  {
    ghost var k := TextLine(stripped);
    blocks' := FlushList(blocks, currentList);
    currentList' := None;
    paragraph' := paragraph + [stripped];
    if currentList.Some? {
      FlushPending(blocks, run, paragraph, currentList);
      assert paragraph' == [stripped];
      NewRun(done, run, k, false, blocks, paragraph, currentList, blocks');
      done', run' := done + run, [k];
    } else {
      JoinRun(done, run, k, false, blocks, paragraph, currentList);
      done', run' := done, run + [k];
    }
  }
}
