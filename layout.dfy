/** The line layout and pagination engine (PDFBuilder).

    Text runs (font size, x, y, text) are appended to the last of a growing
    list of pages; a single cursor moves down the page and a new page is
    opened only when the next line would cross the bottom margin. The
    functions Place* say what each operation does to the (pages, cursor)
    state; the class PdfBuilder holds that state in fields and its methods
    are proved to do exactly what the Place* functions say. Sizes and
    positions are exact reals. */
module Layout {
  import opened Text
  import opened Numbers
  import opened TextWrap
  import opened Markdown

  /** One positioned piece of text: (font_size, x, y, text). */
  datatype Run = Run(fontSize: real, x: real, y: real, text: string)

  /** Page size and margin, in points. */
  datatype Box = Box(width: real, height: real, margin: real)

  /** The builder's state: the pages so far and the cursor on the last page. */
  datatype State = State(pages: seq<seq<Run>>, cursorY: real)

  /** US Letter with one-inch margins, the builder's default. */
  const Letter := Box(612.0, 792.0, 72.0)

  /** The text as it is recorded: only its ASCII characters are kept. */
  function Sanitize(text: string): (r: string)
    ensures IsAscii(r) && |r| <= |text|
    decreases |text|
  {
    if text == [] then []
    else (if text[0] < 128 as char then [text[0]] else []) + Sanitize(text[1..])
  }

  lemma {:induction false} SanitizeAscii(text: string)
    requires IsAscii(text)
    ensures Sanitize(text) == text
    decreases |text|
  {
    if text != [] {
      SanitizeAscii(text[1..]);
    }
  }

  /** The state right after construction: one empty page, cursor at the top margin. */
  function Initial(b: Box): State {
    State([[]], b.height - b.margin)
  }

  /** _new_page: an empty page is added and the cursor goes to its top margin. */
  function OpenPage(b: Box, st: State): State {
    State(st.pages + [[]], b.height - b.margin)
  }

  /** _ensure_space: a new page when a line of this height would cross the bottom margin. */
  function MakeRoom(b: Box, st: State, lineHeight: real): State {
    if st.cursorY - lineHeight < b.margin then OpenPage(b, st) else st
  }

  function LineHeight(fontSize: real): real {
    fontSize * 1.2
  }

  /** The pages with run appended to the last one. */
  function AppendToLast(pages: seq<seq<Run>>, run: Run): seq<seq<Run>>
    requires pages != []
  {
    pages[..|pages| - 1] + [pages[|pages| - 1] + [run]]
  }

  /** _add_line. */
  function PlaceLine(b: Box, st: State, text: string, fontSize: real, indent: real): State
    requires st.pages != []
  {
    var lh := LineHeight(fontSize);
    var room := MakeRoom(b, st, lh);
    var run := Run(fontSize, b.margin + indent, room.cursorY, Sanitize(text));
    State(AppendToLast(room.pages, run), room.cursorY - lh)
  }

  /** The cursor moved down by d. */
  function Lower(st: State, d: real): State {
    State(st.pages, st.cursorY - d)
  }

  /** The font size of a heading of the given level. */
  function HeadingSize(level: int): real {
    if level == 1 then 24.0 else if level == 2 then 18.0 else if level == 3 then 16.0 else 14.0
  }

  /** add_heading: 0.3 of the size of space above and below one line. */
  function PlaceHeading(b: Box, st: State, level: int, text: string): State
    requires st.pages != []
  {
    var size := HeadingSize(level);
    Lower(PlaceLine(b, Lower(st, size * 0.3), text, size, 0.0), size * 0.3)
  }

  /** int(x): truncation toward zero. */
  function Trunc(x: real): int {
    if x >= 0.0 then x.Floor else -((-x).Floor)
  }

  /** max(int(maxWidth / (fontSize * 0.55)), 20). */
  function CharsPerLine(maxWidth: real, fontSize: real): (n: int)
    requires fontSize > 0.0
    ensures n >= 20
  {
    var fit := Trunc(maxWidth / (fontSize * 0.55));
    if fit > 20 then fit else 20
  }

  /** A paragraph's lines: the wrapped text, or one empty line when there is none. */
  function ParagraphLines(text: string, width: nat): seq<string>
    requires width >= 1
  {
    var wrapped := Wrap(text, width);
    if wrapped == [] then [""] else wrapped
  }

  /** _add_line for each line in turn. */
  function PlaceLines(b: Box, st: State, lines: seq<string>, fontSize: real, indent: real): (r: State)
    requires st.pages != []
    ensures r.pages != []
    decreases |lines|
  {
    if lines == [] then st
    else PlaceLine(b, PlaceLines(b, st, lines[..|lines| - 1], fontSize, indent), lines[|lines| - 1], fontSize, indent)
  }

  /** add_paragraph with the given indent and font size. */
  function PlaceParagraph(b: Box, st: State, text: string, indent: real, fontSize: real): State
    requires st.pages != [] && fontSize > 0.0
  {
    var width := ParagraphWidth(b, indent, fontSize);
    Lower(PlaceLines(b, st, ParagraphLines(text, width), fontSize, indent), fontSize * 0.4)
  }

  /** The number of characters per paragraph line. */
  function ParagraphWidth(b: Box, indent: real, fontSize: real): int
    requires fontSize > 0.0
  {
    CharsPerLine(b.width - 2.0 * b.margin - indent, fontSize)
  }

  /** A list item's lines: "- " before the first wrapped line, "  " before the others. */
  function ItemLines(item: string, width: nat): seq<string>
    requires width >= 1
  {
    var wrapped := Wrap(item, width);
    seq(|wrapped|, i requires 0 <= i < |wrapped| => (if i == 0 then "- " else "  ") + wrapped[i])
  }

  /** The list indent, and the number of characters per list line. */
  const ListIndent: real := 18.0
  const ListFontSize: real := 12.0

  function ListWidth(b: Box): int {
    CharsPerLine(b.width - 2.0 * b.margin - ListIndent, ListFontSize)
  }

  /** One item of add_list, followed by 0.4 of the font size of space. */
  function PlaceItem(b: Box, st: State, item: string): State
    requires st.pages != []
  {
    Lower(PlaceLines(b, st, ItemLines(item, ListWidth(b)), ListFontSize, ListIndent), ListFontSize * 0.4)
  }

  /** add_list. */
  function PlaceList(b: Box, st: State, items: seq<string>): (r: State)
    requires st.pages != []
    ensures r.pages != []
    decreases |items|
  {
    if items == [] then st
    else PlaceItem(b, PlaceList(b, st, items[..|items| - 1]), items[|items| - 1])
  }

  /** One block of build. */
  function PlaceBlock(b: Box, st: State, block: Block): (r: State)
    requires st.pages != []
    ensures r.pages != []
  {
    match block
    case Heading(level, text) => PlaceHeading(b, st, level, text)
    case Paragraph(text) => PlaceParagraph(b, st, text, 0.0, 12.0)
    case List(items) => PlaceList(b, st, items)
  }

  /** build. */
  function PlaceBlocks(b: Box, st: State, blocks: seq<Block>): (r: State)
    requires st.pages != []
    ensures r.pages != []
    decreases |blocks|
  {
    if blocks == [] then st
    else PlaceBlock(b, PlaceBlocks(b, st, blocks[..|blocks| - 1]), blocks[|blocks| - 1])
  }

  // ---------------------------------------------------------------------
  // Append-only: earlier pages never change, the last page only grows.

  /** All runs, page after page. */
  function Flatten(pages: seq<seq<Run>>): seq<Run>
    decreases |pages|
  {
    if pages == [] then [] else Flatten(pages[..|pages| - 1]) + pages[|pages| - 1]
  }

  /** st2 is st with runs added: the pages before st's last are as they were,
      st's last page is a prefix of the page at its place, and pages may follow. */
  predicate Extends(st: State, st2: State) {
    && st.pages != []
    && |st.pages| <= |st2.pages|
    && st2.pages[..|st.pages| - 1] == st.pages[..|st.pages| - 1]
    && st.pages[|st.pages| - 1] <= st2.pages[|st.pages| - 1]
  }

  lemma ExtendsTrans(st1: State, st2: State, st3: State)
    requires Extends(st1, st2) && Extends(st2, st3)
    ensures Extends(st1, st3)
  {
    var n1, n2 := |st1.pages|, |st2.pages|;
    if n1 < n2 {
      assert st3.pages[..n1 - 1] == st2.pages[..n1 - 1] by {
        assert st3.pages[..n2 - 1][..n1 - 1] == st3.pages[..n1 - 1];
        assert st2.pages[..n2 - 1][..n1 - 1] == st2.pages[..n1 - 1];
      }
      assert st3.pages[n1 - 1] == st2.pages[n1 - 1] by {
        assert st3.pages[..n2 - 1][n1 - 1] == st3.pages[n1 - 1];
        assert st2.pages[..n2 - 1][n1 - 1] == st2.pages[n1 - 1];
      }
    }
  }

  lemma ExtendsRefl(st: State)
    requires st.pages != []
    ensures Extends(st, st)
  {
  }

  /** _add_line changes only the last page, or adds one page after it. */
  lemma PlaceLineExtends(b: Box, st: State, text: string, fontSize: real, indent: real)
    requires st.pages != []
    ensures Extends(st, PlaceLine(b, st, text, fontSize, indent))
  {
    var room := MakeRoom(b, st, LineHeight(fontSize));
    var n := |st.pages|;
    var pages := PlaceLine(b, st, text, fontSize, indent).pages;
    if room != st {
      assert pages[..n] == st.pages;
    }
  }

  /** _add_line records exactly one run, at the end, at the cursor that
      _ensure_space left. */
  lemma PlaceLineAppends(b: Box, st: State, text: string, fontSize: real, indent: real)
    requires st.pages != []
    ensures Flatten(PlaceLine(b, st, text, fontSize, indent).pages)
      == Flatten(st.pages) + [Run(fontSize, b.margin + indent, MakeRoom(b, st, LineHeight(fontSize)).cursorY, Sanitize(text))]
  {
    var room := MakeRoom(b, st, LineHeight(fontSize));
    FlattenAppendToLast(room.pages, Run(fontSize, b.margin + indent, room.cursorY, Sanitize(text)));
    if room != st {
      assert room.pages[..|room.pages| - 1] == st.pages;
    }
  }

  /** The cursor goes one line height below where the line is drawn; a page
      is opened exactly when the line would cross the bottom margin, and the
      line then starts at the new page's top margin. */
  lemma PlaceLineCursor(b: Box, st: State, text: string, fontSize: real, indent: real)
    requires st.pages != []
    ensures PlaceLine(b, st, text, fontSize, indent).cursorY == MakeRoom(b, st, LineHeight(fontSize)).cursorY - fontSize * 1.2
    ensures st.cursorY - fontSize * 1.2 < b.margin ==>
      |PlaceLine(b, st, text, fontSize, indent).pages| == |st.pages| + 1
      && MakeRoom(b, st, LineHeight(fontSize)).cursorY == b.height - b.margin
    ensures st.cursorY - fontSize * 1.2 >= b.margin ==>
      |PlaceLine(b, st, text, fontSize, indent).pages| == |st.pages|
      && MakeRoom(b, st, LineHeight(fontSize)).cursorY == st.cursorY
  {
  }

  /** The run _add_line records, as the last of all runs. */
  lemma PlaceLineFlatten(b: Box, st: State, text: string, fontSize: real, indent: real) returns (run: Run)
    requires st.pages != []
    ensures run.text == Sanitize(text) && run.fontSize == fontSize && run.x == b.margin + indent
    ensures Flatten(PlaceLine(b, st, text, fontSize, indent).pages) == Flatten(st.pages) + [run]
  {
    PlaceLineAppends(b, st, text, fontSize, indent);
    run := Run(fontSize, b.margin + indent, MakeRoom(b, st, LineHeight(fontSize)).cursorY, Sanitize(text));
  }

  lemma FlattenAppendToLast(pages: seq<seq<Run>>, run: Run)
    requires pages != []
    ensures Flatten(AppendToLast(pages, run)) == Flatten(pages) + [run]
  {
    var pages2 := AppendToLast(pages, run);
    assert pages2[..|pages2| - 1] == pages[..|pages| - 1];
  }

  /** The runs of lines, one per line, in order, with the font size, x and text they call for. */
  predicate LinesRuns(runs: seq<Run>, lines: seq<string>, fontSize: real, x: real) {
    && |runs| == |lines|
    && forall i :: 0 <= i < |lines| ==>
         runs[i].text == Sanitize(lines[i]) && runs[i].fontSize == fontSize && runs[i].x == x
  }

  /** all is before followed by one run per line. */
  predicate AppendsLines(before: seq<Run>, all: seq<Run>, lines: seq<string>, fontSize: real, x: real) {
    |before| <= |all| && all[..|before|] == before && LinesRuns(all[|before|..], lines, fontSize, x)
  }

  /** One run per line, appended in order. */
  lemma {:induction false} PlaceLinesAppends(b: Box, st: State, lines: seq<string>, fontSize: real, indent: real)
    requires st.pages != []
    ensures AppendsLines(Flatten(st.pages), Flatten(PlaceLines(b, st, lines, fontSize, indent).pages), lines, fontSize, b.margin + indent)
    decreases |lines|
  {
    var before := Flatten(st.pages);
    if lines == [] {
      assert before[|before|..] == [];
    } else {
      var init, line := lines[..|lines| - 1], lines[|lines| - 1];
      var mid := PlaceLines(b, st, init, fontSize, indent);
      PlaceLinesAppends(b, st, init, fontSize, indent);
      PlaceLinesStep(b, st, mid, PlaceLines(b, st, lines, fontSize, indent), lines, fontSize, indent);
    }
  }

  lemma PlaceLinesStep(b: Box, st: State, mid: State, st2: State, lines: seq<string>, fontSize: real, indent: real)
    requires mid.pages != [] && lines != []
    requires AppendsLines(Flatten(st.pages), Flatten(mid.pages), lines[..|lines| - 1], fontSize, b.margin + indent)
    requires st2 == PlaceLine(b, mid, lines[|lines| - 1], fontSize, indent)
    ensures AppendsLines(Flatten(st.pages), Flatten(st2.pages), lines, fontSize, b.margin + indent)
  {
    var run := PlaceLineFlatten(b, mid, lines[|lines| - 1], fontSize, indent);
    AppendsStep(Flatten(st.pages), Flatten(mid.pages), run, lines[..|lines| - 1], lines[|lines| - 1], fontSize, b.margin + indent,
                Flatten(st2.pages), lines);
  }

  /** One more line, one more run: the runs before stay a prefix. */
  lemma AppendsStep(before: seq<Run>, m: seq<Run>, run: Run, lines: seq<string>, line: string, fontSize: real, x: real,
                    all: seq<Run>, lines2: seq<string>)
    requires AppendsLines(before, m, lines, fontSize, x)
    requires run.text == Sanitize(line) && run.fontSize == fontSize && run.x == x
    requires all == m + [run] && lines2 != [] && lines2[..|lines2| - 1] == lines && lines2[|lines2| - 1] == line
    ensures AppendsLines(before, all, lines2, fontSize, x)
  {
    assert lines2 == lines + [line];
    assert (m + [run])[..|before|] == m[..|before|];
    assert (m + [run])[|before|..] == m[|before|..] + [run];
  }

  lemma {:induction false} PlaceLinesExtends(b: Box, st: State, lines: seq<string>, fontSize: real, indent: real)
    requires st.pages != []
    ensures Extends(st, PlaceLines(b, st, lines, fontSize, indent))
    decreases |lines|
  {
    if lines == [] {
      ExtendsRefl(st);
    } else {
      var mid := PlaceLines(b, st, lines[..|lines| - 1], fontSize, indent);
      PlaceLinesExtends(b, st, lines[..|lines| - 1], fontSize, indent);
      PlaceLineExtends(b, mid, lines[|lines| - 1], fontSize, indent);
      ExtendsTrans(st, mid, PlaceLines(b, st, lines, fontSize, indent));
    }
  }

  lemma PlaceHeadingExtends(b: Box, st: State, level: int, text: string)
    requires st.pages != []
    ensures Extends(st, PlaceHeading(b, st, level, text))
  {
    var size := HeadingSize(level);
    PlaceLineExtends(b, Lower(st, size * 0.3), text, size, 0.0);
  }

  lemma PlaceItemExtends(b: Box, st: State, item: string)
    requires st.pages != []
    ensures Extends(st, PlaceItem(b, st, item))
  {
    PlaceLinesExtends(b, st, ItemLines(item, ListWidth(b)), ListFontSize, ListIndent);
  }

  lemma {:induction false} PlaceListExtends(b: Box, st: State, items: seq<string>)
    requires st.pages != []
    ensures Extends(st, PlaceList(b, st, items))
    decreases |items|
  {
    if items == [] {
      ExtendsRefl(st);
    } else {
      var mid := PlaceList(b, st, items[..|items| - 1]);
      PlaceListExtends(b, st, items[..|items| - 1]);
      PlaceItemExtends(b, mid, items[|items| - 1]);
      ExtendsTrans(st, mid, PlaceList(b, st, items));
    }
  }

  lemma PlaceBlockExtends(b: Box, st: State, block: Block)
    requires st.pages != []
    ensures Extends(st, PlaceBlock(b, st, block))
  {
    match block
    case Heading(level, text) => PlaceHeadingExtends(b, st, level, text);
    case Paragraph(text) =>
      PlaceLinesExtends(b, st, ParagraphLines(text, ParagraphWidth(b, 0.0, 12.0)), 12.0, 0.0);
    case List(items) => PlaceListExtends(b, st, items);
  }

  /** build only ever appends: what was on the pages before stays as it was. */
  lemma {:induction false} PlaceBlocksExtends(b: Box, st: State, blocks: seq<Block>)
    requires st.pages != []
    ensures Extends(st, PlaceBlocks(b, st, blocks))
    decreases |blocks|
  {
    if blocks == [] {
      ExtendsRefl(st);
    } else {
      var mid := PlaceBlocks(b, st, blocks[..|blocks| - 1]);
      PlaceBlocksExtends(b, st, blocks[..|blocks| - 1]);
      PlaceBlockExtends(b, mid, blocks[|blocks| - 1]);
      ExtendsTrans(st, mid, PlaceBlocks(b, st, blocks));
    }
  }

  // ---------------------------------------------------------------------
  // Bounds: every run lies between the margins, y falls within a page, and
  // every page but the first holds a run.

  /** A page at least two margins high. */
  predicate Sane(b: Box) {
    b.height >= 2.0 * b.margin
  }

  /** Every run of the page lies between the margins, each below the one before. */
  predicate PageOk(b: Box, page: seq<Run>) {
    && (forall i :: 0 <= i < |page| ==> b.margin <= page[i].y <= b.height - b.margin)
    && (forall i :: 0 < i < |page| ==> page[i].y < page[i - 1].y)
  }

  predicate WellPlaced(b: Box, st: State) {
    && st.pages != []
    && st.cursorY <= b.height - b.margin
    && (forall p :: 0 <= p < |st.pages| ==> PageOk(b, st.pages[p]))
    && (forall p :: 1 <= p < |st.pages| ==> st.pages[p] != [])
    && (var last := st.pages[|st.pages| - 1]; last != [] ==> st.cursorY < last[|last| - 1].y)
  }

  lemma InitialWellPlaced(b: Box)
    ensures WellPlaced(b, Initial(b))
  {
  }

  lemma LowerWellPlaced(b: Box, st: State, d: real)
    requires WellPlaced(b, st) && d >= 0.0
    ensures WellPlaced(b, Lower(st, d))
  {
  }

  /** A run below the last one, inside the margins, keeps the page in order. */
  lemma PageOkAppend(b: Box, page: seq<Run>, run: Run)
    requires PageOk(b, page)
    requires b.margin <= run.y <= b.height - b.margin
    requires page != [] ==> run.y < page[|page| - 1].y
    ensures PageOk(b, page + [run])
  {
  }

  lemma PlaceLineWellPlaced(b: Box, st: State, text: string, fontSize: real, indent: real)
    requires Sane(b) && WellPlaced(b, st) && fontSize > 0.0
    ensures WellPlaced(b, PlaceLine(b, st, text, fontSize, indent))
  {
    var lh := LineHeight(fontSize);
    var run := Run(fontSize, b.margin + indent, MakeRoom(b, st, lh).cursorY, Sanitize(text));
    PlaceLineCases(b, st, text, fontSize, indent);
    if st.cursorY - lh < b.margin {
      NewPageWellPlaced(b, st, run, lh, PlaceLine(b, st, text, fontSize, indent));
    } else {
      SamePageWellPlaced(b, st, run, lh, PlaceLine(b, st, text, fontSize, indent));
    }
  }

  /** _add_line either starts a new page with the run or adds it to the last page. */
  lemma PlaceLineCases(b: Box, st: State, text: string, fontSize: real, indent: real)
    requires st.pages != []
    ensures var lh := LineHeight(fontSize);
      var run := Run(fontSize, b.margin + indent, MakeRoom(b, st, lh).cursorY, Sanitize(text));
      var st2 := PlaceLine(b, st, text, fontSize, indent);
      && (st.cursorY - lh < b.margin ==> st2 == State(st.pages + [[run]], run.y - lh) && run.y == b.height - b.margin)
      && (st.cursorY - lh >= b.margin ==> st2 == State(AppendToLast(st.pages, run), run.y - lh) && run.y == st.cursorY)
  {
    var lh := LineHeight(fontSize);
    var run := Run(fontSize, b.margin + indent, MakeRoom(b, st, lh).cursorY, Sanitize(text));
    if st.cursorY - lh < b.margin {
      AppendToOpened(st.pages, run);
    }
  }

  lemma AppendToOpened(pages: seq<seq<Run>>, run: Run)
    ensures AppendToLast(pages + [[]], run) == pages + [[run]]
  {
    var grown := pages + [[]];
    assert grown[..|pages|] == pages;
    assert grown[|pages|] + [run] == [run];
  }

  /** A run at the top of a fresh page after the last one. */
  lemma NewPageWellPlaced(b: Box, st: State, run: Run, lh: real, st2: State)
    requires Sane(b) && WellPlaced(b, st) && lh > 0.0
    requires run.y == b.height - b.margin && st2 == State(st.pages + [[run]], run.y - lh)
    ensures WellPlaced(b, st2)
  {
    PageOkAppend(b, [], run);
    var pages := st.pages + [[run]];
    assert forall p :: 0 <= p < |st.pages| ==> pages[p] == st.pages[p];
  }

  /** A run at the cursor, on the last page, when the line fits above the bottom margin. */
  lemma SamePageWellPlaced(b: Box, st: State, run: Run, lh: real, st2: State)
    requires WellPlaced(b, st) && lh > 0.0
    requires run.y == st.cursorY && st.cursorY - lh >= b.margin
    requires st2 == State(AppendToLast(st.pages, run), run.y - lh)
    ensures WellPlaced(b, st2)
  {
    var last := st.pages[|st.pages| - 1];
    PageOkAppend(b, last, run);
    var pages := AppendToLast(st.pages, run);
    assert forall p :: 0 <= p < |st.pages| - 1 ==> pages[p] == st.pages[p];
  }

  lemma {:induction false} PlaceLinesWellPlaced(b: Box, st: State, lines: seq<string>, fontSize: real, indent: real)
    requires Sane(b) && WellPlaced(b, st) && fontSize > 0.0
    ensures WellPlaced(b, PlaceLines(b, st, lines, fontSize, indent))
    decreases |lines|
  {
    if lines != [] {
      PlaceLinesWellPlaced(b, st, lines[..|lines| - 1], fontSize, indent);
      PlaceLineWellPlaced(b, PlaceLines(b, st, lines[..|lines| - 1], fontSize, indent), lines[|lines| - 1], fontSize, indent);
    }
  }

  lemma PlaceHeadingWellPlaced(b: Box, st: State, level: int, text: string)
    requires Sane(b) && WellPlaced(b, st)
    ensures WellPlaced(b, PlaceHeading(b, st, level, text))
  {
    var size := HeadingSize(level);
    LowerWellPlaced(b, st, size * 0.3);
    PlaceLineWellPlaced(b, Lower(st, size * 0.3), text, size, 0.0);
    LowerWellPlaced(b, PlaceLine(b, Lower(st, size * 0.3), text, size, 0.0), size * 0.3);
  }

  lemma PlaceParagraphWellPlaced(b: Box, st: State, text: string, indent: real, fontSize: real)
    requires Sane(b) && WellPlaced(b, st) && fontSize > 0.0
    ensures WellPlaced(b, PlaceParagraph(b, st, text, indent, fontSize))
  {
    var lines := ParagraphLines(text, ParagraphWidth(b, indent, fontSize));
    var placed := PlaceLines(b, st, lines, fontSize, indent);
    PlaceLinesWellPlaced(b, st, lines, fontSize, indent);
    LowerWellPlaced(b, placed, fontSize * 0.4);
    assert PlaceParagraph(b, st, text, indent, fontSize) == Lower(placed, fontSize * 0.4);
  }

  lemma PlaceItemWellPlaced(b: Box, st: State, item: string)
    requires Sane(b) && WellPlaced(b, st)
    ensures WellPlaced(b, PlaceItem(b, st, item))
  {
    var lines := ItemLines(item, ListWidth(b));
    PlaceLinesWellPlaced(b, st, lines, ListFontSize, ListIndent);
    LowerWellPlaced(b, PlaceLines(b, st, lines, ListFontSize, ListIndent), ListFontSize * 0.4);
  }

  lemma {:induction false} PlaceListWellPlaced(b: Box, st: State, items: seq<string>)
    requires Sane(b) && WellPlaced(b, st)
    ensures WellPlaced(b, PlaceList(b, st, items))
    decreases |items|
  {
    if items != [] {
      PlaceListWellPlaced(b, st, items[..|items| - 1]);
      PlaceItemWellPlaced(b, PlaceList(b, st, items[..|items| - 1]), items[|items| - 1]);
    }
  }

  lemma PlaceBlockWellPlaced(b: Box, st: State, block: Block)
    requires Sane(b) && WellPlaced(b, st)
    ensures WellPlaced(b, PlaceBlock(b, st, block))
  {
    match block
    case Heading(level, text) => PlaceHeadingWellPlaced(b, st, level, text);
    case Paragraph(text) => PlaceParagraphWellPlaced(b, st, text, 0.0, 12.0);
    case List(items) => PlaceListWellPlaced(b, st, items);
  }

  /** On a page at least two margins high, build keeps every run between the
      margins, in falling y order within each page, with no empty page after
      the first. */
  lemma {:induction false} PlaceBlocksWellPlaced(b: Box, st: State, blocks: seq<Block>)
    requires Sane(b) && WellPlaced(b, st)
    ensures WellPlaced(b, PlaceBlocks(b, st, blocks))
    decreases |blocks|
  {
    if blocks != [] {
      PlaceBlocksWellPlaced(b, st, blocks[..|blocks| - 1]);
      PlaceBlockWellPlaced(b, PlaceBlocks(b, st, blocks[..|blocks| - 1]), blocks[|blocks| - 1]);
    }
  }

  // ---------------------------------------------------------------------
  // Recorded text is ASCII.

  /** Every run's text holds only ASCII characters. */
  predicate TextsAscii(st: State) {
    forall p, j :: 0 <= p < |st.pages| && 0 <= j < |st.pages[p]| ==> IsAscii(st.pages[p][j].text)
  }

  lemma InitialAscii(b: Box)
    ensures TextsAscii(Initial(b))
  {
  }

  lemma PlaceLineAscii(b: Box, st: State, text: string, fontSize: real, indent: real)
    requires st.pages != [] && TextsAscii(st)
    ensures TextsAscii(PlaceLine(b, st, text, fontSize, indent))
  {
    var room := MakeRoom(b, st, LineHeight(fontSize));
    var run := Run(fontSize, b.margin + indent, room.cursorY, Sanitize(text));
    assert TextsAscii(room) by {
      if room != st {
        assert forall p :: 0 <= p < |st.pages| ==> room.pages[p] == st.pages[p];
      }
    }
    AppendAscii(room, run, PlaceLine(b, st, text, fontSize, indent));
  }

  lemma AppendAscii(st: State, run: Run, st2: State)
    requires st.pages != [] && TextsAscii(st) && IsAscii(run.text)
    requires st2.pages == AppendToLast(st.pages, run)
    ensures TextsAscii(st2)
  {
    var n := |st.pages|;
    assert forall p :: 0 <= p < n - 1 ==> st2.pages[p] == st.pages[p];
    assert st2.pages[n - 1] == st.pages[n - 1] + [run];
  }

  lemma {:induction false} PlaceLinesAscii(b: Box, st: State, lines: seq<string>, fontSize: real, indent: real)
    requires st.pages != [] && TextsAscii(st)
    ensures TextsAscii(PlaceLines(b, st, lines, fontSize, indent))
    decreases |lines|
  {
    if lines != [] {
      PlaceLinesAscii(b, st, lines[..|lines| - 1], fontSize, indent);
      PlaceLineAscii(b, PlaceLines(b, st, lines[..|lines| - 1], fontSize, indent), lines[|lines| - 1], fontSize, indent);
    }
  }

  lemma PlaceHeadingAscii(b: Box, st: State, level: int, text: string)
    requires st.pages != [] && TextsAscii(st)
    ensures TextsAscii(PlaceHeading(b, st, level, text))
  {
    var size := HeadingSize(level);
    PlaceLineAscii(b, Lower(st, size * 0.3), text, size, 0.0);
  }

  lemma PlaceItemAscii(b: Box, st: State, item: string)
    requires st.pages != [] && TextsAscii(st)
    ensures TextsAscii(PlaceItem(b, st, item))
  {
    PlaceLinesAscii(b, st, ItemLines(item, ListWidth(b)), ListFontSize, ListIndent);
  }

  lemma {:induction false} PlaceListAscii(b: Box, st: State, items: seq<string>)
    requires st.pages != [] && TextsAscii(st)
    ensures TextsAscii(PlaceList(b, st, items))
    decreases |items|
  {
    if items != [] {
      PlaceListAscii(b, st, items[..|items| - 1]);
      PlaceItemAscii(b, PlaceList(b, st, items[..|items| - 1]), items[|items| - 1]);
    }
  }

  lemma PlaceBlockAscii(b: Box, st: State, block: Block)
    requires st.pages != [] && TextsAscii(st)
    ensures TextsAscii(PlaceBlock(b, st, block))
  {
    match block
    case Heading(level, text) => PlaceHeadingAscii(b, st, level, text);
    case Paragraph(text) =>
      PlaceLinesAscii(b, st, ParagraphLines(text, ParagraphWidth(b, 0.0, 12.0)), 12.0, 0.0);
    case List(items) => PlaceListAscii(b, st, items);
  }

  /** build records only ASCII text: what sanitizing each line keeps. */
  lemma {:induction false} PlaceBlocksAscii(b: Box, st: State, blocks: seq<Block>)
    requires st.pages != [] && TextsAscii(st)
    ensures TextsAscii(PlaceBlocks(b, st, blocks))
    decreases |blocks|
  {
    if blocks != [] {
      PlaceBlocksAscii(b, st, blocks[..|blocks| - 1]);
      PlaceBlockAscii(b, PlaceBlocks(b, st, blocks[..|blocks| - 1]), blocks[|blocks| - 1]);
    }
  }

  // ---------------------------------------------------------------------
  // Block rules.

  /** A paragraph's lines are at most width characters, there is at least one,
      and together they hold the paragraph's words; the one empty line comes
      only from whitespace, and always from textwrap's whitespace. */
  lemma ParagraphLinesSpec(text: string, width: nat)
    requires width >= 1
    ensures var lines := ParagraphLines(text, width);
      && lines != []
      && (forall k :: 0 <= k < |lines| ==> |lines[k]| <= width)
      && NonSpace(Concat(lines)) == NonSpace(text)
      && (lines == [""] ==> NonSpace(text) == [])
      && (AllWrapSpace(text) ==> lines == [""])
  {
    WrapBounds(text, width);
    WrapKeepsText(text, width);
    WrapEmpty(text, width);
    ConcatSingle("");
  }

  /** A list item's lines: "- " starts the first, "  " the others, each is at
      most width + 2 characters, and without those prefixes they hold the
      item's words; an item has no line only when it is whitespace, and always
      when it is textwrap's whitespace. */
  lemma ItemLinesSpec(item: string, width: nat)
    requires width >= 1
    ensures var lines := ItemLines(item, width);
      var wrapped := Wrap(item, width);
      && |lines| == |wrapped|
      && (forall k :: 0 <= k < |lines| ==> |lines[k]| <= width + 2 && lines[k][2..] == wrapped[k])
      && (lines != [] ==> lines[0][..2] == "- ")
      && (forall k :: 1 <= k < |lines| ==> lines[k][..2] == "  ")
      && NonSpace(Concat(wrapped)) == NonSpace(item)
      && (lines == [] ==> NonSpace(item) == [])
      && (AllWrapSpace(item) ==> lines == [])
  {
    WrapBounds(item, width);
    WrapKeepsText(item, width);
    WrapEmpty(item, width);
  }

  /** An item that wraps to no line records no run but still takes 0.4 of the
      list font size of space. */
  lemma BlankItem(b: Box, st: State, item: string)
    requires st.pages != [] && Wrap(item, ListWidth(b)) == []
    ensures PlaceItem(b, st, item) == Lower(st, 4.8)
  {
    ItemLinesSpec(item, ListWidth(b));
  }

  /** A paragraph that wraps to no line still records one empty run. */
  lemma BlankParagraph(b: Box, st: State, text: string, indent: real, fontSize: real)
    requires st.pages != [] && fontSize > 0.0 && Wrap(text, ParagraphWidth(b, indent, fontSize)) == []
    ensures var all := Flatten(PlaceParagraph(b, st, text, indent, fontSize).pages);
      var before := Flatten(st.pages);
      && |all| == |before| + 1 && all[..|before|] == before
      && all[|before|].text == [] && all[|before|].x == b.margin + indent
  {
    var width := ParagraphWidth(b, indent, fontSize);
    ParagraphLinesSpec(text, width);
    PlaceLinesAppends(b, st, [""], fontSize, indent);
    var all := Flatten(PlaceLines(b, st, [""], fontSize, indent).pages);
    assert all[|Flatten(st.pages)|..][0] == all[|Flatten(st.pages)|];
  }

  /** A heading records one run at the left margin in its level's size:
      24, 18 and 16 points for levels 1 to 3, 14 for any other level. */
  lemma PlaceHeadingAppends(b: Box, st: State, level: int, text: string)
    requires st.pages != []
    ensures var size := HeadingSize(level);
      var all := Flatten(PlaceHeading(b, st, level, text).pages);
      var before := Flatten(st.pages);
      && |all| == |before| + 1 && all[..|before|] == before
      && all[|before|].fontSize == size && all[|before|].x == b.margin
      && all[|before|].text == Sanitize(text)
      && (level == 1 ==> size == 24.0) && (level == 2 ==> size == 18.0) && (level == 3 ==> size == 16.0)
      && (level !in {1, 2, 3} ==> size == 14.0)
  {
    var size := HeadingSize(level);
    PlaceLineAppends(b, Lower(st, size * 0.3), text, size, 0.0);
  }

  /** A heading whose line with the space above it does not fit below the
      top margin goes onto a new page, even when it is the first thing on an
      empty page: the first page then stays empty. */
  lemma OversizedHeadingOpensPage(b: Box, level: int, text: string)
    requires HeadingSize(level) * 1.5 > b.height - 2.0 * b.margin
    ensures var st := PlaceHeading(b, Initial(b), level, text);
      && |st.pages| == 2 && st.pages[0] == [] && |st.pages[1]| == 1
  {
  }

  /** The run placed last: the last run of the last page. */
  function LastRun(st: State): Run
    requires st.pages != [] && st.pages[|st.pages| - 1] != []
  {
    st.pages[|st.pages| - 1][|st.pages[|st.pages| - 1]| - 1]
  }

  /** After a line the last page ends with its run, and the cursor is one line
      height below that run. */
  lemma PlaceLineLast(b: Box, st: State, text: string, fontSize: real, indent: real)
    requires st.pages != []
    ensures PlaceLine(b, st, text, fontSize, indent).pages[|PlaceLine(b, st, text, fontSize, indent).pages| - 1] != []
    ensures PlaceLine(b, st, text, fontSize, indent).cursorY
      == LastRun(PlaceLine(b, st, text, fontSize, indent)).y - 1.2 * fontSize
  {
  }

  /** A heading has 0.3 of its size of space above and below its line. When
      the line fits, its run is 0.3 * size below the cursor on the same page
      and the cursor ends 1.8 * size lower; otherwise the run opens a new page
      at the top margin and the cursor ends 1.5 * size below that margin. */
  lemma PlaceHeadingSpacing(b: Box, st: State, level: int, text: string)
    requires st.pages != []
    ensures st.cursorY - 1.5 * HeadingSize(level) >= b.margin ==>
      PlaceHeading(b, st, level, text)
      == State(AppendToLast(st.pages, Run(HeadingSize(level), b.margin, st.cursorY - 0.3 * HeadingSize(level), Sanitize(text))),
               st.cursorY - 1.8 * HeadingSize(level))
    ensures st.cursorY - 1.5 * HeadingSize(level) < b.margin ==>
      PlaceHeading(b, st, level, text)
      == State(st.pages + [[Run(HeadingSize(level), b.margin, b.height - b.margin, Sanitize(text))]],
               b.height - b.margin - 1.5 * HeadingSize(level))
  {
    var size := HeadingSize(level);
    var above := Lower(st, size * 0.3);
    PlaceLineCases(b, above, text, size, 0.0);
    AppendToOpened(st.pages, Run(size, b.margin, b.height - b.margin, Sanitize(text)));
  }

  /** A paragraph ends 0.4 of its font size below its last line: the cursor is
      1.6 * size below the last run, the line height and the spacing. */
  lemma PlaceParagraphSpacing(b: Box, st: State, text: string, indent: real, fontSize: real)
    requires st.pages != [] && fontSize > 0.0
    ensures PlaceParagraph(b, st, text, indent, fontSize).pages[|PlaceParagraph(b, st, text, indent, fontSize).pages| - 1] != []
    ensures PlaceParagraph(b, st, text, indent, fontSize).cursorY
      == LastRun(PlaceParagraph(b, st, text, indent, fontSize)).y - 1.6 * fontSize
  {
    var lines := ParagraphLines(text, ParagraphWidth(b, indent, fontSize));
    assert lines != [];
    var mid := PlaceLines(b, st, lines[..|lines| - 1], fontSize, indent);
    PlaceLineLast(b, mid, lines[|lines| - 1], fontSize, indent);
  }

  /** A list item that has lines ends 4.8 below its last line: the cursor is
      19.2 below the last run, the 14.4 line height and the spacing. */
  lemma PlaceItemSpacing(b: Box, st: State, item: string)
    requires st.pages != [] && Wrap(item, ListWidth(b)) != []
    ensures PlaceItem(b, st, item).pages[|PlaceItem(b, st, item).pages| - 1] != []
    ensures PlaceItem(b, st, item).cursorY == LastRun(PlaceItem(b, st, item)).y - 19.2
  {
    var lines := ItemLines(item, ListWidth(b));
    ItemLinesLength(item, ListWidth(b));
    var mid := PlaceLines(b, st, lines[..|lines| - 1], ListFontSize, ListIndent);
    PlaceLineLast(b, mid, lines[|lines| - 1], ListFontSize, ListIndent);
  }

  lemma PlaceLinesSnoc(b: Box, st: State, lines: seq<string>, i: nat, fontSize: real, indent: real)
    requires st.pages != [] && i < |lines|
    ensures PlaceLines(b, st, lines[..i + 1], fontSize, indent)
      == PlaceLine(b, PlaceLines(b, st, lines[..i], fontSize, indent), lines[i], fontSize, indent)
  {
    assert lines[..i + 1][..i] == lines[..i];
  }

  lemma ItemLinesLength(item: string, width: nat)
    requires width >= 1
    ensures |ItemLines(item, width)| == |Wrap(item, width)|
  {
  }

  lemma ItemLineAt(item: string, width: nat, idx: nat)
    requires width >= 1 && idx < |Wrap(item, width)|
    ensures ItemLines(item, width)[idx] == (if idx == 0 then "- " else "  ") + Wrap(item, width)[idx]
  {
  }

  // ---------------------------------------------------------------------
  // The builder itself.

  class PdfBuilder {
    const width: real
    const height: real
    const margin: real
    var pages: seq<seq<Run>>
    var cursorY: real

    function PageBox(): Box {
      Box(width, height, margin)
    }

    function Snapshot(): State
      reads this
    {
      State(pages, cursorY)
    }

    /** There is always a last page to write to. */
    predicate Valid()
      reads this
    {
      pages != []
    }

    /** __init__, which opens the first page. */
    constructor(width: real, height: real, margin: real)
      ensures this.width == width && this.height == height && this.margin == margin
      ensures Snapshot() == Initial(PageBox()) && Valid()
    {
      this.width := width;
      this.height := height;
      this.margin := margin;
      pages := [[]];
      cursorY := height - margin;
    }

    /** _new_page. */
    method NewPage()
      modifies this
      ensures Snapshot() == OpenPage(PageBox(), old(Snapshot())) && Valid()
    {
      pages := pages + [[]];
      cursorY := height - margin;
    }

    /** _ensure_space. */
    method EnsureSpace(lineHeight: real)
      requires Valid()
      modifies this
      ensures Snapshot() == MakeRoom(PageBox(), old(Snapshot()), lineHeight) && Valid()
    {
      if cursorY - lineHeight < margin {
        NewPage();
      }
    }

    /** _add_line: the run goes onto the last page at the cursor. */
    method AddLine(text: string, fontSize: real, indent: real)
      requires Valid()
      modifies this
      ensures Snapshot() == PlaceLine(PageBox(), old(Snapshot()), text, fontSize, indent) && Valid()
    {
      var lineHeight := fontSize * 1.2;
      EnsureSpace(lineHeight);
      var xPosition := margin + indent;
      var normalized := Sanitize(text);
      pages := pages[..|pages| - 1] + [pages[|pages| - 1] + [Run(fontSize, xPosition, cursorY, normalized)]];
      cursorY := cursorY - lineHeight;
    }

    /** add_heading. */
    method AddHeading(level: int, text: string)
      requires Valid()
      modifies this
      ensures Snapshot() == PlaceHeading(PageBox(), old(Snapshot()), level, text) && Valid()
    {
      ghost var start := Snapshot();
      var fontSize := HeadingSize(level);
      cursorY := cursorY - fontSize * 0.3;
      assert Snapshot() == Lower(start, fontSize * 0.3);
      AddLine(text, fontSize, 0.0);
      ghost var placed := Snapshot();
      cursorY := cursorY - fontSize * 0.3;
      assert Snapshot() == Lower(placed, fontSize * 0.3);
    }

    /** add_paragraph. */
    method AddParagraph(text: string, indent: real, fontSize: real)
      requires Valid() && fontSize > 0.0
      modifies this
      ensures Snapshot() == PlaceParagraph(PageBox(), old(Snapshot()), text, indent, fontSize) && Valid()
    {
      var maxWidth := width - 2.0 * margin - indent;
      var charsPerLine := CharsPerLine(maxWidth, fontSize);
      assert charsPerLine == ParagraphWidth(PageBox(), indent, fontSize);
      var wrapped := Wrap(text, charsPerLine);
      if wrapped == [] {
        wrapped := [""];
      }
      assert wrapped == ParagraphLines(text, charsPerLine);
      ghost var start := Snapshot();
      for i := 0 to |wrapped|
        invariant Valid()
        invariant Snapshot() == PlaceLines(PageBox(), start, wrapped[..i], fontSize, indent)
      {
        PlaceLinesSnoc(PageBox(), start, wrapped, i, fontSize, indent);
        AddLine(wrapped[i], fontSize, indent);
      }
      assert wrapped[..|wrapped|] == wrapped;
      ghost var placed := PlaceLines(PageBox(), start, wrapped, fontSize, indent);
      assert Snapshot() == placed;
      cursorY := cursorY - fontSize * 0.4;
      assert Snapshot() == Lower(placed, fontSize * 0.4);
    }

    /** add_list. */
    method AddList(items: seq<string>)
      requires Valid()
      modifies this
      ensures Snapshot() == PlaceList(PageBox(), old(Snapshot()), items) && Valid()
    {
      ghost var start := Snapshot();
      for k := 0 to |items|
        invariant Valid()
        invariant Snapshot() == PlaceList(PageBox(), start, items[..k])
      {
        assert items[..k + 1][..k] == items[..k];
        AddItem(items[k]);
      }
      assert items[..|items|] == items;
    }

    /** One turn of add_list's loop. */
    method AddItem(item: string)
      requires Valid()
      modifies this
      ensures Snapshot() == PlaceItem(PageBox(), old(Snapshot()), item) && Valid()
    {
      var bulletPrefix := "- ";
      var maxWidth := width - 2.0 * margin - 18.0;
      var charsPerLine := CharsPerLine(maxWidth, 12.0);
      assert charsPerLine == ListWidth(PageBox());
      var wrapped := Wrap(item, charsPerLine);
      ghost var lines := ItemLines(item, charsPerLine);
      ghost var start := Snapshot();
      ItemLinesLength(item, charsPerLine);
      for idx := 0 to |wrapped|
        invariant Valid()
        invariant Snapshot() == PlaceLines(PageBox(), start, lines[..idx], 12.0, 18.0)
      {
        var textLine := if idx == 0 then bulletPrefix + wrapped[idx] else "  " + wrapped[idx];
        ItemLineAt(item, charsPerLine, idx);
        PlaceLinesSnoc(PageBox(), start, lines, idx, 12.0, 18.0);
        AddLine(textLine, 12.0, 18.0);
      }
      assert lines[..|wrapped|] == lines;
      ghost var placed := Snapshot();
      assert placed == PlaceLines(PageBox(), start, lines, ListFontSize, ListIndent);
      cursorY := cursorY - 12.0 * 0.4;
      assert Snapshot() == Lower(placed, ListFontSize * 0.4);
    }

    /** build. */
    method Build(blocks: seq<Block>)
      requires Valid()
      modifies this
      ensures Snapshot() == PlaceBlocks(PageBox(), old(Snapshot()), blocks) && Valid()
    {
      ghost var start := Snapshot();
      for i := 0 to |blocks|
        invariant Valid()
        invariant Snapshot() == PlaceBlocks(PageBox(), start, blocks[..i])
      {
        assert blocks[..i + 1][..i] == blocks[..i];
        match blocks[i]
        case Heading(level, text) => AddHeading(level, text);
        case Paragraph(text) => AddParagraph(text, 0.0, 12.0);
        case List(items) => AddList(items);
      }
      assert blocks[..|blocks|] == blocks;
    }
  }
}
