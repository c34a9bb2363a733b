/** convert_quadra_markdown: parse the Quadra Markdown text, lay it out on US
    Letter pages with the default 72-point margin, and serialize the PDF. The
    file system is not modelled: the text read is a parameter and the bytes
    written are the result. */
module Pipeline {
  import opened Options
  import opened Numbers
  import opened Markdown
  import opened Parser
  import opened Layout
  import opened Writer

  /** The text runs build places for the blocks of a document. */
  function Placed(text: string): State {
    PlaceBlocks(Letter, Initial(Letter), Blocks(text))
  }

  /** The PDF the conversion writes: the serialized objects of the laid-out pages. */
  function Converted(text: string): string {
    Serialize(Bodies(Letter.width, Letter.height, Placed(text).pages))
  }

  /** The whole layout is well placed: every run lies between the margins,
      each below the one before on its page, no page after the first is
      empty, and the cursor is below the last run. */
  lemma PlacedWellPlaced(text: string)
    ensures WellPlaced(Letter, Placed(text))
  {
    InitialWellPlaced(Letter);
    PlaceBlocksWellPlaced(Letter, Initial(Letter), Blocks(text));
  }

  /** An empty input still gives one, empty, page. */
  lemma EmptyInputOnePage()
    ensures Placed("") == Initial(Letter)
    ensures |Placed("").pages| == 1 && Placed("").pages[0] == []
  {
    assert Blocks("") == [];
  }

  /** Every run on every page is ASCII, so each content stream encodes. */
  lemma PagesLatin1(st: State)
    requires TextsAscii(st)
    ensures forall i :: 0 <= i < |st.pages| ==> TextsLatin1(st.pages[i])
  {
    forall i, j | 0 <= i < |st.pages| && 0 <= j < |st.pages[i]|
      ensures IsLatin1(st.pages[i][j].text)
    {
      AsciiLatin1(st.pages[i][j].text);
    }
  }

  /** The writer never rejects a page built from Quadra Markdown: build keeps
      only ASCII text, so the latin-1 encoding of every stream succeeds. */
  lemma ConversionSucceeds(text: string)
    ensures Document(Letter.width, Letter.height, Placed(text).pages) == Some(Converted(text))
  {
    InitialAscii(Letter);
    PlaceBlocksAscii(Letter, Initial(Letter), Blocks(text));
    PagesLatin1(Placed(text));
    DocumentWritten(Letter.width, Letter.height, Placed(text).pages);
  }

  method ConvertQuadraMarkdown(text: string) returns (data: string)
    ensures data == Converted(text)
  {
    var blocks := ParseQuadraMarkdown(text);
    var builder := new PdfBuilder(612.0, 792.0, 72.0);
    builder.Build(blocks);
    var writer := new PdfWriter(builder.width, builder.height, builder.pages);
    var written := writer.Write();
    ConversionSucceeds(text);
    data := written.value;
  }
}
