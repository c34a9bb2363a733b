# Quadra Markdown to PDF, modelled in Dafny

This project models the core of `quadra_to_pdf.py`, a converter from Quadra
Markdown to PDF with no dependencies. The core has three stages, and the model
follows their structure:

- **Block parser** (`parse_quadra_markdown`, module `Parser`). The source
  loops over the lines of the text, keeping a pending paragraph and an
  optional pending list, and emits heading, paragraph and list blocks.
  - The model keeps that loop as a method, with one helper method per branch.
  - It is proved equal to a declarative definition, `Markdown.Blocks`:
    classify every line, then group maximal runs of paragraph lines and of
    item lines.
  - Properties of `Blocks` are proved as lemmas: heading levels, one list per
    run of items, no empty blocks, and headings and items kept in order.
- **Layout engine** (`PDFBuilder`, module `Layout`). A class whose methods
  append text runs `(font size, x, y, text)` to the last page and move one
  cursor down the page. It opens a new page when a line would cross the
  bottom margin.
  - Each method is proved to produce the state that a pure `Place*` function
    gives.
  - Lemmas about those functions cover:
    - append-only growth;
    - exact positions and sizes;
    - bounds: every run lies between the margins, y decreases within a page,
      and no page after the first is empty;
    - ASCII-only text.
- **Serializer** (`PDFWriter`, module `Writer`). The source grows a buffer
  and a list of cross-reference offsets step by step.
  - The model does the same with `string` and `seq<nat>` locals, and proves
    the result equal to `Document`, a function of the pages.
  - `Document` lays out these objects:
    - 1: the catalog;
    - 2: the page tree;
    - 3..2+N: the pages;
    - 3+N..2+2N: the content streams;
    - 3+2N: the font.
  - Lemmas about `Document` prove the cross-reference table. Each recorded
    offset is where `k 0 obj` begins. Each entry is 20 bytes. The free entry,
    `/Size` and `startxref` are as section 7.5.4 and section 7.5.5 of
    ISO 32000-1 require.
  - They also prove that text escaping has an inverse, and that each stream's
    `/Length` is its length.

Supporting modules:

- `Text`: Python's `isspace`, `strip`, `lstrip`, `rstrip`, `splitlines` and
  `" ".join`.
- `TextWrap`: the parts of `textwrap.wrap` (default options) that the layout
  relies on: whitespace munging, chunking, greedy filling, and dropping
  whitespace chunks at line edges.
- `Numbers`: `str(n)`, `f"{n:010}"`, and `f"{x:.2f}"` / `f"{x:.0f}"`.
- `Pipeline`: `convert_quadra_markdown`, which proves that a parsed document
  is always written, because layout keeps only ASCII text.

Modelling choices:

- The PDF bytes are a `string` in which every character is below 256.
- Encoding to latin-1 is a check that returns `None` when a character is 256
  or above. In the source, that encoding raises an exception.
- Coordinates are exact `real`s.

## Model

| member | source | states |
|---|---|---|
| Parser.ParseQuadraMarkdown | quadra/quadra_to_pdf.py:34-84 | the blocks returned are exactly `Blocks(text)`, the grouping of the classified lines |
| Parser.ParseLines | quadra/quadra_to_pdf.py:55-80 | after the loop, the lines already grouped plus the pending run are the classification of every line, and the buffers hold exactly the pending run's texts (ParserState) |
| Parser.ParseLine | quadra/quadra_to_pdf.py:56-80 | one line extends the classified history by `Classify(raw)` and keeps the parser invariant |
| Parser.OnBlank | quadra/quadra_to_pdf.py:59-62 | a blank line flushes the paragraph and the list, and leaves nothing pending |
| Parser.OnHeading | quadra/quadra_to_pdf.py:64-70 | a heading line flushes both buffers and then appends `Heading(level, text)` |
| Parser.OnItem | quadra/quadra_to_pdf.py:72-77 | an item flushes a pending paragraph, opens a list if there is none, and appends the item text |
| Parser.OnText | quadra/quadra_to_pdf.py:79-80 | a text line flushes a pending list and appends the stripped line to the paragraph |
| Parser.Finish | quadra/quadra_to_pdf.py:82-84 | the final flushes emit the pending run's block, so the result is the grouping of all lines |
| Markdown.HashCount | quadra/quadra_to_pdf.py:67 | the count is the length of the longest prefix of `#` characters |
| Markdown.HeadingLevelIsHashCount | quadra/quadra_to_pdf.py:64-69 | a stripped line starting with `#` is a heading whose level (at least 1) is the number of leading `#` and whose text is the rest, stripped |
| Markdown.ClassifyWellFormed | quadra/quadra_to_pdf.py:56-80 | a classified text line is stripped and non-empty, and a classified item has non-empty text |
| Markdown.ItemTextNonEmpty | quadra/quadra_to_pdf.py:72-76 | what follows `- ` on a stripped line is never empty once stripped |
| Markdown.ClassifyAllSnoc | quadra/quadra_to_pdf.py:55 | classifying one more line extends the classification by that line's kind |
| Markdown.RunLengthSpec | quadra/quadra_to_pdf.py:72-80 | the pending run is the longest prefix of paragraph (or item) lines |
| Markdown.GroupSplitsAtBoundary | quadra/quadra_to_pdf.py:59-62 | where a run ends (a blank, a heading, or a switch between list and paragraph), the blocks of the whole are the blocks of the two parts |
| Markdown.GroupSplitsAfterRun | quadra/quadra_to_pdf.py:72-80 | a run followed by lines of another kind groups as the run's block followed by the blocks of the rest |
| Markdown.RunIsOneBlock | quadra/quadra_to_pdf.py:72-77 | consecutive item lines (or paragraph lines) form exactly one block |
| Markdown.GroupHasNoEmptyBlocks | quadra/quadra_to_pdf.py:41-53 | no paragraph with empty text and no list with no items or with an empty item is emitted |
| Markdown.BlocksAreNonEmpty | quadra/quadra_to_pdf.py:41-53 | the blocks of any text are all non-empty |
| Markdown.GroupKeepsHeadings | quadra/quadra_to_pdf.py:64-70 | the headings of the blocks are the heading lines, in the same order |
| Markdown.GroupKeepsItems | quadra/quadra_to_pdf.py:72-77 | the list items of the blocks, concatenated, are the item lines, in the same order |
| Markdown.RunHasNoHeadings | quadra/quadra_to_pdf.py:72-80 | a run holds no headings, and its items are its texts exactly when it is a list run |
| Markdown.FlushPendingRun | quadra/quadra_to_pdf.py:41-53 | flushing a buffered run emits that run's block: the paragraph joined with single spaces, or the list |
| Markdown.FlushPending | quadra/quadra_to_pdf.py:41-53 | flush_paragraph then flush_list appends the pending run's blocks, and each alone does so when the other buffer is empty |
| Markdown.PendingIsOne | quadra/quadra_to_pdf.py:38-39 | a paragraph and a list are never pending at the same time |
| Markdown.BlankStep | quadra/quadra_to_pdf.py:59-62 | the blank-line branch keeps the parser invariant, with nothing pending |
| Markdown.HeadingStep | quadra/quadra_to_pdf.py:64-70 | the heading branch keeps the parser invariant |
| Markdown.NewRun | quadra/quadra_to_pdf.py:72-80 | a line that switches between list and paragraph emits the old run and starts a new one holding only that line |
| Markdown.JoinRun | quadra/quadra_to_pdf.py:74-80 | a line of the same kind is appended to the pending paragraph or list |
| Markdown.FinishStep | quadra/quadra_to_pdf.py:82-84 | the closing flushes turn the parser state into the grouping of all the lines |
| Markdown.NonEmptyStrippedOfStripped | quadra/quadra_to_pdf.py:44 | stripping buffered lines, which are already stripped and non-empty, keeps them all |
| Text.LStrip | quadra/quadra_to_pdf.py:57 | removes exactly the leading whitespace: the result is a suffix, the removed part is all whitespace, and the result starts with a non-space |
| Text.RStrip | quadra/quadra_to_pdf.py:56 | removes exactly the trailing whitespace: the result is a prefix, the removed part is all whitespace, and the result ends with a non-space |
| Text.StripEnds | quadra/quadra_to_pdf.py:57-59 | strip gives an empty string exactly when the line is all whitespace, and otherwise neither end is whitespace |
| Text.StripOfStripped | quadra/quadra_to_pdf.py:44 | stripping a stripped string changes nothing |
| Text.LStripChar | quadra/quadra_to_pdf.py:67 | `lstrip("#")` removes exactly the leading `#` characters |
| Text.SplitLines | quadra/quadra_to_pdf.py:55 | no line contains a line break, and there are no more lines than characters |
| Text.SplitLinesRejoin | quadra/quadra_to_pdf.py:55 | putting each line's line break back after it gives the text exactly, and there are no lines exactly when the text is empty |
| Text.LineBreaksAreBreaks | quadra/quadra_to_pdf.py:55 | every line but the last ends with one line break, `\r\n` counting as one (so a lone `\r` is never followed by `\n`); the last line ends with a break or, non-empty, at the end of the text |
| TextWrap.ChunksConcat | quadra/quadra_to_pdf.py:124 | the chunks wrap splits the text into, concatenated, are the text |
| TextWrap.FillLineSpec | quadra/quadra_to_pdf.py:124 | one line takes between 1 and width columns of the chunks, and greedily: the next chunk would not fit; line and rest together are the chunks, losing nothing |
| TextWrap.WrapChunksBounds | quadra/quadra_to_pdf.py:124 | every wrapped line has between 1 and width characters |
| TextWrap.WrapChunksKeepsText | quadra/quadra_to_pdf.py:124 | wrapping keeps every character that is not whitespace by `str.isspace`, in order |
| TextWrap.WrapBounds | quadra/quadra_to_pdf.py:124 | every line of `wrap(text, width)` has between 1 and width characters |
| TextWrap.WrapKeepsText | quadra/quadra_to_pdf.py:124 | the lines of `wrap(text, width)` hold the characters of the text that are not whitespace by `str.isspace`, in order |
| TextWrap.WrapEmpty | quadra/quadra_to_pdf.py:124-126 | wrap returns no lines only when the text has no non-whitespace character, and always when the text holds only textwrap's own whitespace (tab, newline, vertical tab, form feed, carriage return, space) |
| Numbers.Decimal | quadra/quadra_to_pdf.py:214 | `str(n)` is a non-empty digit string with no leading zero |
| Numbers.DecimalRoundTrip | quadra/quadra_to_pdf.py:214 | reading back `str(n)` gives n |
| Numbers.DecimalLength | quadra/quadra_to_pdf.py:245 | `str(n)` has at most k digits exactly when n is below 10^k |
| Numbers.Padded10Spec | quadra/quadra_to_pdf.py:245 | `f"{n:010}"` is all digits, reads back as n, and has exactly 10 digits when n is below 10^10 |
| Numbers.PaddedDecimal | quadra/quadra_to_pdf.py:245 | any zero-padding of `str(n)` reads back as n |
| Numbers.RoundHalfEven | quadra/quadra_to_pdf.py:178-179 | the rounded value is within 1/2 of x, and a tie goes to the even neighbour |
| Numbers.FormatFixedShape | quadra/quadra_to_pdf.py:178-179 | `f"{x:.Nf}"` is ASCII: an optional minus sign, then the digits of the rounded value with a point N places from the end |
| Layout.Sanitize | quadra/quadra_to_pdf.py:110 | the recorded text is ASCII and no longer than the input |
| Layout.SanitizeAscii | quadra/quadra_to_pdf.py:110 | ASCII text is recorded unchanged |
| Layout.CharsPerLine | quadra/quadra_to_pdf.py:123 | the characters per line are never fewer than 20 |
| Layout.PlaceLineAppends | quadra/quadra_to_pdf.py:106-112 | `_add_line` appends exactly one run, with its size, `x = margin + indent`, the cursor after making room, and the sanitized text |
| Layout.PlaceLineCursor | quadra/quadra_to_pdf.py:102-112 | a page is opened exactly when `cursor_y - 1.2*size < margin`, the run then sits at `height - margin`, and the cursor drops by `1.2*size` |
| Layout.PlaceLineCases | quadra/quadra_to_pdf.py:102-112 | the new state, in both cases: a new page holding only the run, or the run appended to the last page at the old cursor |
| Layout.PlaceLineLast | quadra/quadra_to_pdf.py:106-112 | after a line the last page ends with that line's run, and the cursor is `1.2*size` below it |
| Layout.PlaceLineExtends | quadra/quadra_to_pdf.py:97-112 | earlier pages are never changed, and the last page only grows |
| Layout.PlaceLinesAppends | quadra/quadra_to_pdf.py:127-129 | the lines are appended as runs in order, one each, with the given size and x |
| Layout.PlaceBlocksExtends | quadra/quadra_to_pdf.py:146-154 | build never changes earlier pages, and only grows the last one |
| Layout.PlaceHeadingAppends | quadra/quadra_to_pdf.py:114-119 | a heading adds one run whose size is 24, 18 or 16 for levels 1 to 3 and 14 otherwise, at the left margin |
| Layout.OversizedHeadingOpensPage | quadra/quadra_to_pdf.py:102-104 | a heading taller than the page area, on a fresh document, opens a second page and leaves the first empty |
| Layout.PlaceHeadingSpacing | quadra/quadra_to_pdf.py:114-119 | a heading gets `0.3*size` of space above and below: when its line fits, its run is `0.3*size` below the cursor on the same page and the cursor ends `1.8*size` lower; otherwise the run opens a new page at `height - margin` and the cursor ends `1.5*size` below it |
| Layout.PlaceParagraphSpacing | quadra/quadra_to_pdf.py:121-130 | after a paragraph the cursor is `1.6*size` below its last run: one line height and `0.4*size` of space |
| Layout.PlaceItemSpacing | quadra/quadra_to_pdf.py:132-144 | after an item that has lines the cursor is 19.2 below its last run: the 14.4 line height and 4.8 of space |
| Layout.ParagraphLinesSpec | quadra/quadra_to_pdf.py:122-126 | a paragraph has at least one line, none longer than the width, together holding the text's non-whitespace characters; it is the one empty line only when the text has no non-whitespace character, and always when the text is textwrap's whitespace only |
| Layout.ItemLinesSpec | quadra/quadra_to_pdf.py:134-143 | an item's lines are its wrapped lines with `- ` before the first and two spaces before the others; there are none only when the item has no non-whitespace character, and always when it is textwrap's whitespace only |
| Layout.BlankParagraph | quadra/quadra_to_pdf.py:124-130 | a paragraph that wraps to no line still emits one empty run, at `x = margin + indent`, after the runs already placed |
| Layout.BlankItem | quadra/quadra_to_pdf.py:137-144 | an item that wraps to no line emits no run but lowers the cursor by 4.8 |
| Layout.InitialWellPlaced | quadra/quadra_to_pdf.py:90-100 | the first state (one empty page, cursor at `height - margin`) satisfies the layout invariant |
| Layout.PlaceLineWellPlaced | quadra/quadra_to_pdf.py:102-112 | on a page at least two margins high, a line keeps every run between the margins, y decreasing within a page, and no page after the first empty |
| Layout.PlaceHeadingWellPlaced | quadra/quadra_to_pdf.py:114-119 | a heading keeps that invariant |
| Layout.PlaceParagraphWellPlaced | quadra/quadra_to_pdf.py:121-130 | a paragraph keeps that invariant |
| Layout.PlaceListWellPlaced | quadra/quadra_to_pdf.py:132-144 | a list keeps that invariant |
| Layout.PlaceBlocksWellPlaced | quadra/quadra_to_pdf.py:146-154 | build keeps that invariant for any blocks |
| Layout.PlaceBlocksAscii | quadra/quadra_to_pdf.py:110 | every run that build places has ASCII text |
| Layout.PdfBuilder.constructor | quadra/quadra_to_pdf.py:90-95 | the builder starts with one empty page and the cursor at `height - margin` |
| Layout.PdfBuilder.NewPage | quadra/quadra_to_pdf.py:97-100 | appends an empty page and resets the cursor to `height - margin` |
| Layout.PdfBuilder.EnsureSpace | quadra/quadra_to_pdf.py:102-104 | opens a page exactly when `cursor_y - line_height < margin`, and otherwise changes nothing |
| Layout.PdfBuilder.AddLine | quadra/quadra_to_pdf.py:106-112 | the new pages and cursor are `PlaceLine` of the old ones |
| Layout.PdfBuilder.AddHeading | quadra/quadra_to_pdf.py:114-119 | the new state is `PlaceHeading` of the old one |
| Layout.PdfBuilder.AddParagraph | quadra/quadra_to_pdf.py:121-130 | the new state is `PlaceParagraph` of the old one |
| Layout.PdfBuilder.AddList | quadra/quadra_to_pdf.py:132-144 | the new state is `PlaceList` of the old one |
| Layout.PdfBuilder.AddItem | quadra/quadra_to_pdf.py:133-144 | one iteration of add_list: the new state is `PlaceItem` of the old one |
| Layout.PdfBuilder.Build | quadra/quadra_to_pdf.py:146-154 | the new state is `PlaceBlocks` of the old one |
| Writer.EscapeTextIsEach | quadra/quadra_to_pdf.py:170-171 | the chained replaces equal escaping each `\`, `(` and `)` with a backslash, position by position |
| Writer.EscapeRoundTrip | quadra/quadra_to_pdf.py:170-171 | unescaping the escaped text gives the text back, and the escaped text is well formed |
| Writer.EscapeLatin1 | quadra/quadra_to_pdf.py:170-171 | the escaped text is latin-1 exactly when the text is |
| Writer.CommandsShape | quadra/quadra_to_pdf.py:176-181 | a page gives five commands per run, in run order |
| Writer.PageStreamShape | quadra/quadra_to_pdf.py:173-183 | the stream is the commands each followed by a newline: empty exactly for an empty page, and otherwise ending in a newline |
| Writer.RunCommandsLatin1 | quadra/quadra_to_pdf.py:176-181 | one run's commands encode as latin-1 exactly when its text does |
| Writer.PageStreamLatin1 | quadra/quadra_to_pdf.py:183 | the stream encodes as latin-1 exactly when every run's text does |
| Writer.ObjectLayout | quadra/quadra_to_pdf.py:186-214 | there are 3+2N objects: the catalog first, the page tree second, and the font last |
| Writer.PageObjectsAt | quadra/quadra_to_pdf.py:216-226 | page i is object 3+i, within 3 to 2+N, and that object is page i's dictionary |
| Writer.KidsListed | quadra/quadra_to_pdf.py:211-214 | the page tree opens with `<< /Type /Pages /Kids [ `; the reference `3+i 0 R` to page i, followed by a space, is found at its computed position, and 3+i reads back from it; then `] /Count N >>` closes the list, N reading back |
| Writer.PageBodyRefs | quadra/quadra_to_pdf.py:219-225 | a page object names the page tree, object 2, as its parent, then its `/MediaBox`, then the font, object 3+2N, as `/F1`, and last its contents, object 3+N+i; both ids read back |
| Writer.ContentObjectsAt | quadra/quadra_to_pdf.py:228-235 | page i's content stream is object 3+N+i, within 3+N to 2+2N, and that object holds the `/Length` dictionary and the stream of page i |
| Writer.ContentLength | quadra/quadra_to_pdf.py:233-235 | the `/Length` of a content object is the length of the stream it contains |
| Writer.ObjectAtOffset | quadra/quadra_to_pdf.py:199-203 | the offset recorded for object k is where `k 0 obj` begins in the buffer |
| Writer.XrefEntryShape | quadra/quadra_to_pdf.py:245 | an offset below 10^10 gives a 20-byte entry whose first ten digits read back as the offset |
| Writer.EntriesAt | quadra/quadra_to_pdf.py:244-245 | the table holds one 20-byte entry per object, in id order |
| Writer.SerializeOffsets | quadra/quadra_to_pdf.py:199-242 | the file starts with `%PDF-1.4`, each object starts at its recorded offset, and `xref` and `0 total+1` follow the objects |
| Writer.SerializeTable | quadra/quadra_to_pdf.py:242-245 | the free entry `0000000000 65535 f` follows the count, then one entry per object offset |
| Writer.SerializeTrailer | quadra/quadra_to_pdf.py:246-249 | the file ends with `startxref`, a line holding the offset of the `xref` keyword (which reads back as that offset), and `%%EOF` |
| Writer.SerializeSize | quadra/quadra_to_pdf.py:246-248 | right after the last table entry comes `trailer << /Size total+1 /Root 1 0 R >>`, and total+1 reads back |
| Writer.FileXref | quadra/quadra_to_pdf.py:205-250 | for any object bodies: the header, each object head at its recorded offset, `xref` with the count, the free entry, the entries, the trailer with `/Size`, and startxref naming where `xref` starts |
| Writer.DocumentXref | quadra/quadra_to_pdf.py:185-250 | the written document has 3+2N objects and starts with the header; each recorded offset is where its object begins; `xref` with count 3+2N+1 begins where startxref says, followed by the free entry, the 20-byte entries and the trailer with `/Size 3+2N+1` |
| Writer.DocumentWritten | quadra/quadra_to_pdf.py:183 | a document is produced exactly when every page's text is latin-1, and it is then the serialized objects |
| Writer.PdfWriter.constructor | quadra/quadra_to_pdf.py:165-168 | the writer holds the page size and the pages given |
| Writer.PdfWriter.EncodePageStream | quadra/quadra_to_pdf.py:173-183 | the loop over runs yields the page stream, or nothing exactly when some text is not latin-1 |
| Writer.PdfWriter.Write | quadra/quadra_to_pdf.py:185-250 | the buffer written is `Document` of the pages |
| Writer.PdfWriter.WriteObjects | quadra/quadra_to_pdf.py:205-239 | writes every object with its head, and records each object's starting offset |
| Writer.PdfWriter.WriteCatalogAndTree | quadra/quadra_to_pdf.py:205-214 | the header, the catalog and the page tree, with two offsets recorded |
| Writer.PdfWriter.WritePageObjects | quadra/quadra_to_pdf.py:216-226 | the N page objects, in order, with offsets recorded |
| Writer.PdfWriter.WriteContentObjects | quadra/quadra_to_pdf.py:228-235 | the N content objects, with offsets recorded; fails exactly when a stream is not latin-1 |
| Writer.PdfWriter.WriteContentObject | quadra/quadra_to_pdf.py:231-235 | one content object: its offset, head, `/Length`, stream and `endstream` |
| Writer.PdfWriter.WriteFont | quadra/quadra_to_pdf.py:237-239 | the font object, last |
| Writer.PdfWriter.WriteTable | quadra/quadra_to_pdf.py:241-250 | the xref table and trailer after the objects complete the serialized file |
| Writer.PdfWriter.WriteEntries | quadra/quadra_to_pdf.py:244-245 | one entry per recorded offset, in order |
| Pipeline.PagesLatin1 | quadra/quadra_to_pdf.py:110 | pages with only ASCII text are latin-1 page by page |
| Pipeline.PlacedWellPlaced | quadra/quadra_to_pdf.py:255-259 | for any input, the layout the conversion builds keeps every run between the margins, y decreasing within a page, no page after the first empty, and the cursor below the last run |
| Pipeline.EmptyInputOnePage | quadra/quadra_to_pdf.py:255-259 | an empty input lays out as one empty page, with the cursor at the top margin |
| Pipeline.ConversionSucceeds | quadra/quadra_to_pdf.py:255-259 | for any input text, a document is produced from the laid-out pages |
| Pipeline.ConvertQuadraMarkdown | quadra/quadra_to_pdf.py:255-259 | parse, build on US Letter with 72-point margins, and write: the result is the serialized document |

## Left out

- The command line (`main`, argparse), reading the input file, `mkdir`, and writing the bytes to disk. Input text is a parameter and the PDF bytes are the result.
- Layout.Sanitize: keeps only the ASCII characters of the text. The source first applies NFKD normalisation, which would keep the base letter of an accented character. The Unicode table this needs is not modelled. Both versions produce ASCII only. The bound "no longer than the input" holds of the model only: NFKD can lengthen text (a ligature such as U+FB01 becomes `fi`).
- TextWrap.Wrap: does not model textwrap breaking after a hyphen inside a word, splitting a run of two or more hyphens between words (`a--b`) into chunks of its own, or tabs expanding to the next multiple of 8 columns. A tab counts as one space.
- WrapEmpty: does not state exactly which texts of other Unicode whitespace (such as U+3000) wrap to no lines. textwrap keeps such a chunk inside a line, so `"\u3000 \u3000"` gives one line although it has no non-whitespace character; the model follows the same rules but the lemma states only the two directions above.
- Writer.FileXref: the table facts are proved for files under 10^10 bytes. Beyond that `f"{pos:010}"` prints more than ten digits and entries are longer than 20 bytes; the model writes them as the source does, but proves nothing about them. The same holds for Writer.DocumentXref.
- Numbers.FormatFixed: rounds the exact real value half to even. Python rounds the binary float nearest the value, which can differ on ties.
- Coordinates and sizes are exact reals. Python's float rounding of 1.2, 0.3, 0.4 and 0.55 is not reproduced.
- Block types other than heading, paragraph and list cannot occur in the model. `Block` has only those three variants, so the branch of `build` that ignores other types has nothing to model.
- Layout.PdfBuilder.AddParagraph: requires a positive font size. The source divides by it and is only ever called with 12.
- Layout.PdfBuilder: the source appends to `current_page`, which is the same list object as `pages[-1]`. The model appends to the last page directly, which behaves the same.
- Writer.DocumentWritten: proves that every content stream is latin-1. Every other byte written is ASCII by construction, but that fact is not a lemma here.
- Layout.OversizedHeadingOpensPage: the documented behaviour for one line taller than the page area is a single page holding that line. The code opens a new page even when the current one is empty, so the first page stays empty. The model follows the code.
