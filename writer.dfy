/** PDFWriter: the text runs of each page become a content stream, and the
    pages, their streams, a catalog, a page tree and one font become a PDF 1.4
    file with a cross-reference table (ISO 32000-1, sections 7.5.2 to 7.5.5).

    The buffer is a string of latin-1 characters, one byte each: the writer
    encodes every piece as latin-1, so a buffer position is a byte offset.
    Encoding fails (and nothing is written) when a run's text holds a
    character above U+00FF; `Write` then returns `None`. */
module Writer {
  import opened Options
  import opened Text
  import opened Numbers
  import opened Layout

  /** Encodable as latin-1: every character is below 256. */
  predicate IsLatin1(s: string) {
    forall i :: 0 <= i < |s| ==> s[i] < 256 as char
  }

  lemma Latin1Append(a: string, b: string)
    ensures IsLatin1(a + b) <==> IsLatin1(a) && IsLatin1(b)
  {
    if IsLatin1(a + b) {
      assert forall i :: 0 <= i < |a| ==> a[i] == (a + b)[i];
      assert forall i :: 0 <= i < |b| ==> b[i] == (a + b)[|a| + i];
    }
  }

  lemma AsciiLatin1(s: string)
    requires IsAscii(s)
    ensures IsLatin1(s)
  {
  }

  // ---------------------------------------------------------------------
  // _escape_text: literal strings (section 7.3.4.2 of ISO 32000-1).

  /** s.replace(c, r) for a one-character pattern c. */
  function Replace(s: string, c: char, r: string): string
    decreases |s|
  {
    if s == [] then [] else (if s[0] == c then r else [s[0]]) + Replace(s[1..], c, r)
  }

  /** Backslashes first, then "(" and ")". */
  function EscapeText(s: string): string {
    Replace(Replace(Replace(s, '\\', "\\\\"), '(', "\\("), ')', "\\)")
  }

  predicate IsSpecial(c: char) {
    c == '\\' || c == '(' || c == ')'
  }

  /** A reference escape: a backslash before each special character. */
  function EscapeChar(c: char): string {
    if IsSpecial(c) then ['\\', c] else [c]
  }

  function EscapeEach(s: string): string
    decreases |s|
  {
    if s == [] then [] else EscapeChar(s[0]) + EscapeEach(s[1..])
  }

  /** Reading a literal string back: a backslash takes the next character as it is. */
  function Unescape(t: string): string
    decreases |t|
  {
    if t == [] then []
    else if t[0] == '\\' && |t| >= 2 then [t[1]] + Unescape(t[2..])
    else [t[0]] + Unescape(t[1..])
  }

  /** Safe between "(" and ")": no special character appears unless after a backslash. */
  predicate Escaped(t: string)
    decreases |t|
  {
    if t == [] then true
    else if t[0] == '\\' then |t| >= 2 && Escaped(t[2..])
    else !IsSpecial(t[0]) && Escaped(t[1..])
  }

  lemma {:induction false} ReplaceAppend(a: string, b: string, c: char, r: string)
    ensures Replace(a + b, c, r) == Replace(a, c, r) + Replace(b, c, r)
    decreases |a|
  {
    if a == [] {
      assert a + b == b;
    } else {
      assert (a + b)[1..] == a[1..] + b;
      ReplaceAppend(a[1..], b, c, r);
    }
  }

  /** The three chained replacements escape each character on its own: a
      backslash the first one inserts is not touched by the other two. */
  lemma {:induction false} EscapeTextIsEach(s: string)
    ensures EscapeText(s) == EscapeEach(s)
    decreases |s|
  {
    if s != [] {
      var c, rest := s[0], s[1..];
      assert s == [c] + rest;
      var r1 := Replace([c], '\\', "\\\\");
      var r2 := Replace(r1, '(', "\\(");
      ReplaceAppend([c], rest, '\\', "\\\\");
      ReplaceAppend(r1, Replace(rest, '\\', "\\\\"), '(', "\\(");
      ReplaceAppend(r2, Replace(Replace(rest, '\\', "\\\\"), '(', "\\("), ')', "\\)");
      assert Replace(r2, ')', "\\)") == EscapeChar(c);
      EscapeTextIsEach(rest);
    }
  }

  lemma {:induction false} UnescapeEach(s: string)
    ensures Unescape(EscapeEach(s)) == s
    ensures Escaped(EscapeEach(s))
    decreases |s|
  {
    if s != [] {
      UnescapeEach(s[1..]);
      var t := EscapeEach(s);
      if IsSpecial(s[0]) {
        assert t[2..] == EscapeEach(s[1..]);
      } else {
        assert t[1..] == EscapeEach(s[1..]);
      }
    }
  }

  /** Unescaping the escaped text gives the text back, and the escaped text
      can stand inside a literal string. */
  lemma EscapeRoundTrip(s: string)
    ensures Unescape(EscapeText(s)) == s
    ensures Escaped(EscapeText(s))
  {
    EscapeTextIsEach(s);
    UnescapeEach(s);
  }

  lemma {:induction false} EscapeEachLatin1(s: string)
    ensures IsLatin1(EscapeEach(s)) <==> IsLatin1(s)
    decreases |s|
  {
    if s != [] {
      EscapeEachLatin1(s[1..]);
      Latin1Append(EscapeChar(s[0]), EscapeEach(s[1..]));
      Latin1Append([s[0]], s[1..]);
      assert s == [s[0]] + s[1..];
      assert EscapeChar(s[0])[|EscapeChar(s[0])| - 1] == s[0];
    }
  }

  /** Escaping adds only backslashes: the escaped text is latin-1 exactly when the text is. */
  lemma EscapeLatin1(s: string)
    ensures IsLatin1(EscapeText(s)) <==> IsLatin1(s)
  {
    EscapeTextIsEach(s);
    EscapeEachLatin1(s);
  }

  // ---------------------------------------------------------------------
  // _page_stream.

  /** The five operators that draw one run (section 9.4 of ISO 32000-1). */
  function RunCommands(r: Run): seq<string> {
    [ "BT",
      "/F1 " + FormatFixed(r.fontSize, 2) + " Tf",
      "1 0 0 1 " + FormatFixed(r.x, 2) + " " + FormatFixed(r.y, 2) + " Tm",
      "(" + EscapeText(r.text) + ") Tj",
      "ET" ]
  }

  /** The commands of a page, run after run. */
  function Commands(page: seq<Run>): seq<string>
    decreases |page|
  {
    if page == [] then [] else Commands(page[..|page| - 1]) + RunCommands(page[|page| - 1])
  }

  /** "\n".join(commands + [""]), before encoding. */
  function PageStream(page: seq<Run>): string {
    Join("\n", Commands(page) + [""])
  }

  /** Each command followed by a newline. */
  function Terminated(cs: seq<string>): string
    decreases |cs|
  {
    if cs == [] then [] else Terminated(cs[..|cs| - 1]) + cs[|cs| - 1] + "\n"
  }

  /** Five commands per run, in run order. */
  lemma {:induction false} CommandsShape(page: seq<Run>)
    ensures |Commands(page)| == 5 * |page|
    ensures forall i :: 0 <= i < |page| ==> Commands(page)[5 * i..5 * i + 5] == RunCommands(page[i])
    decreases |page|
  {
    if page != [] {
      var init, last := page[..|page| - 1], page[|page| - 1];
      CommandsShape(init);
      var a, b := Commands(init), RunCommands(last);
      forall i | 0 <= i < |page|
        ensures (a + b)[5 * i..5 * i + 5] == RunCommands(page[i])
      {
        BlockSnoc(a, b, |init|, i);
        if i < |init| {
          assert page[i] == init[i];
        }
      }
    }
  }

  /** Blocks of five in a + b: those of a, then b. */
  lemma BlockSnoc<T>(a: seq<T>, b: seq<T>, n: nat, i: nat)
    requires |a| == 5 * n && |b| == 5 && i <= n
    ensures (a + b)[5 * i..5 * i + 5] == if i < n then a[5 * i..5 * i + 5] else b
  {
    if i == n {
      assert (a + b)[5 * i..5 * i + 5] == b;
    } else {
      assert (a + b)[5 * i..5 * i + 5] == a[5 * i..5 * i + 5];
    }
  }

  lemma JoinSnocEmpty(sep: string, cs: seq<string>)
    requires cs != []
    ensures Join(sep, cs + [""]) == Join(sep, cs) + sep
  {
    var c := cs + [""];
    assert c[..|c| - 1] == cs;
  }

  lemma {:induction false} JoinTerminated(cs: seq<string>)
    ensures Join("\n", cs + [""]) == Terminated(cs)
    decreases |cs|
  {
    if cs != [] {
      var init, last := cs[..|cs| - 1], cs[|cs| - 1];
      JoinSnocEmpty("\n", cs);
      JoinTerminated(init);
      if init == [] {
        assert cs == [last];
      } else {
        JoinSnocEmpty("\n", init);
        assert Join("\n", cs) == Join("\n", init) + "\n" + last;
      }
    }
  }

  /** A page's stream is its commands, five per run, each ended by a newline:
      an empty page gives an empty stream. */
  lemma PageStreamShape(page: seq<Run>)
    ensures PageStream(page) == Terminated(Commands(page))
    ensures |Commands(page)| == 5 * |page|
    ensures forall i :: 0 <= i < |page| ==> Commands(page)[5 * i..5 * i + 5] == RunCommands(page[i])
    ensures page == [] <==> PageStream(page) == []
    ensures page != [] ==> PageStream(page)[|PageStream(page)| - 1] == '\n'
  {
    JoinTerminated(Commands(page));
    CommandsShape(page);
  }

  predicate AllLatin1(cs: seq<string>) {
    forall k :: 0 <= k < |cs| ==> IsLatin1(cs[k])
  }

  lemma {:induction false} TerminatedLatin1(cs: seq<string>)
    ensures IsLatin1(Terminated(cs)) <==> AllLatin1(cs)
    decreases |cs|
  {
    if cs != [] {
      var init, last := cs[..|cs| - 1], cs[|cs| - 1];
      TerminatedLatin1(init);
      Latin1Append(Terminated(init) + last, "\n");
      Latin1Append(Terminated(init), last);
      assert cs == init + [last];
      assert forall k :: 0 <= k < |init| ==> cs[k] == init[k];
    }
  }

  /** A piece between two latin-1 pieces decides whether the whole is latin-1. */
  lemma Latin1Between(a: string, m: string, c: string)
    requires IsLatin1(a) && IsLatin1(c)
    ensures IsLatin1(a + m + c) <==> IsLatin1(m)
  {
    Latin1Append(a + m, c);
    Latin1Append(a, m);
  }

  lemma FixedLatin1(x: real, places: nat)
    ensures IsLatin1(FormatFixed(x, places))
  {
    FormatFixedShape(x, places);
  }

  lemma SizeCommandLatin1(size: real)
    ensures IsLatin1("/F1 " + FormatFixed(size, 2) + " Tf")
  {
    FixedLatin1(size, 2);
    Latin1Between("/F1 ", FormatFixed(size, 2), " Tf");
  }

  lemma MatrixCommandLatin1(x: real, y: real)
    ensures IsLatin1("1 0 0 1 " + FormatFixed(x, 2) + " " + FormatFixed(y, 2) + " Tm")
  {
    var fx, fy := FormatFixed(x, 2), FormatFixed(y, 2);
    FixedLatin1(x, 2);
    FixedLatin1(y, 2);
    Latin1Between("1 0 0 1 ", fx, " ");
    Latin1Between("1 0 0 1 " + fx + " ", fy, " Tm");
  }

  lemma ShowCommandLatin1(text: string)
    ensures IsLatin1("(" + EscapeText(text) + ") Tj") <==> IsLatin1(text)
  {
    Latin1Between("(", EscapeText(text), ") Tj");
    EscapeLatin1(text);
  }

  lemma RunCommandsLatin1(r: Run)
    ensures AllLatin1(RunCommands(r)) <==> IsLatin1(r.text)
  {
    SizeCommandLatin1(r.fontSize);
    MatrixCommandLatin1(r.x, r.y);
    ShowCommandLatin1(r.text);
    var cs := RunCommands(r);
    assert IsLatin1(cs[0]) && IsLatin1(cs[1]) && IsLatin1(cs[2]) && IsLatin1(cs[4]);
    assert IsLatin1(cs[3]) <==> IsLatin1(r.text);
  }

  predicate TextsLatin1(page: seq<Run>) {
    forall j :: 0 <= j < |page| ==> IsLatin1(page[j].text)
  }

  lemma AllLatin1Append(a: seq<string>, b: seq<string>)
    ensures AllLatin1(a + b) <==> AllLatin1(a) && AllLatin1(b)
  {
    if AllLatin1(a + b) {
      assert forall k :: 0 <= k < |a| ==> (a + b)[k] == a[k];
      assert forall k :: 0 <= k < |b| ==> (a + b)[|a| + k] == b[k];
    }
  }

  lemma {:induction false} CommandsLatin1(page: seq<Run>)
    ensures AllLatin1(Commands(page)) <==> TextsLatin1(page)
    decreases |page|
  {
    if page != [] {
      var init, last := page[..|page| - 1], page[|page| - 1];
      CommandsLatin1(init);
      RunCommandsLatin1(last);
      AllLatin1Append(Commands(init), RunCommands(last));
      TextsLatin1Snoc(page);
    }
  }

  lemma TextsLatin1Snoc(page: seq<Run>)
    requires page != []
    ensures TextsLatin1(page) <==> TextsLatin1(page[..|page| - 1]) && IsLatin1(page[|page| - 1].text)
  {
    var init := page[..|page| - 1];
    assert forall j :: 0 <= j < |init| ==> page[j] == init[j];
  }

  /** A page's stream encodes exactly when every run's text does. */
  lemma PageStreamLatin1(page: seq<Run>)
    ensures IsLatin1(PageStream(page)) <==> TextsLatin1(page)
  {
    JoinTerminated(Commands(page));
    TerminatedLatin1(Commands(page));
    CommandsLatin1(page);
  }

  // ---------------------------------------------------------------------
  // Objects: 1 the catalog, 2 the page tree, 3 .. 2+N the pages,
  // 3+N .. 2+2N their content streams, 3+2N the font (N pages).

  function PageId(i: nat): nat { 3 + i }
  function ContentId(n: nat, i: nat): nat { 3 + n + i }
  function FontId(n: nat): nat { 3 + 2 * n }

  const Header := "%PDF-1.4\n"

  function ObjHead(id: nat): string {
    Decimal(id) + " 0 obj\n"
  }

  function Ref(id: nat): string {
    Decimal(id) + " 0 R"
  }

  const CatalogBody := "<< /Type /Catalog /Pages 2 0 R >>\nendobj\n"

  /** References to the page objects, in page order. */
  function PageRefs(n: nat): seq<string> {
    seq(n, i requires 0 <= i => Ref(PageId(i)))
  }

  const PagesOpen := "<< /Type /Pages /Kids [ "
  const Space := " "

  /** The page tree's body after its list of kids. */
  function PagesClose(n: nat): string {
    "] /Count " + Decimal(n) + " >>\nendobj\n"
  }

  /** "<< /Type /Pages /Kids [ " + " ".join(kids) + " ] /Count N >>". */
  function PagesBody(n: nat): string {
    PagesOpen + Join(" ", PageRefs(n)) + Space + PagesClose(n)
  }

  const PageOpen := "<< /Type /Page /Parent 2 0 R "

  /** The media box, "[0 0 W H]" with the page size in whole points. */
  function MediaBox(width: real, height: real): string {
    "/MediaBox [0 0 " + FormatFixed(width, 0) + " " + FormatFixed(height, 0) + "] "
  }

  const FontsOpen := "/Resources << /Font << "

  /** The page's one font, the font object, as /F1. */
  function FontRef(n: nat): string {
    "/F1 " + Ref(FontId(n))
  }

  function FontResource(n: nat): string {
    FontsOpen + FontRef(n) + " >> >> "
  }

  function ContentsRef(n: nat, i: nat): string {
    "/Contents " + Ref(ContentId(n, i))
  }

  const PageClose := " >>\nendobj\n"

  /** "<< /Type /Page /Parent 2 0 R /MediaBox [0 0 W H] /Resources << /Font
      << /F1 F 0 R >> >> /Contents C 0 R >>". */
  function PageBody(width: real, height: real, n: nat, i: nat): string {
    PageOpen + MediaBox(width, height) + FontResource(n) + ContentsRef(n, i) + PageClose
  }

  function ContentHead(length: nat): string {
    "<< /Length " + Decimal(length) + " >>\nstream\n"
  }

  const ContentTail := "endstream\nendobj\n"

  function ContentBody(stream: string): string {
    ContentHead(|stream|) + stream + ContentTail
  }

  const FontBody := "<< /Type /Font /Subtype /Type1 /BaseFont /Helvetica >>\nendobj\n"

  /** What follows "k 0 obj\n" for each object k, in id order. */
  function Bodies(width: real, height: real, pages: seq<seq<Run>>): seq<string> {
    var n := |pages|;
    [CatalogBody, PagesBody(n)] + PageObjects(width, height, n) + ContentObjects(pages) + [FontBody]
  }

  /** The bodies of the page objects, in page order. */
  function PageObjects(width: real, height: real, n: nat): (r: seq<string>)
    ensures |r| == n && forall i :: 0 <= i < n ==> r[i] == PageBody(width, height, n, i)
  {
    seq(n, i requires 0 <= i => PageBody(width, height, n, i))
  }

  /** The bodies of the content objects, in page order. */
  function ContentObjects(pages: seq<seq<Run>>): (r: seq<string>)
    ensures |r| == |pages| && forall i :: 0 <= i < |pages| ==> r[i] == ContentBody(PageStream(pages[i]))
  {
    seq(|pages|, i requires 0 <= i < |pages| => ContentBody(PageStream(pages[i])))
  }

  /** The header and the objects of bs, each as "k 0 obj\n" and its body. */
  function Written(bs: seq<string>): string
    decreases |bs|
  {
    if bs == [] then Header else Written(bs[..|bs| - 1]) + ObjHead(|bs|) + bs[|bs| - 1]
  }

  /** Where each object of bs starts: the length written before it. */
  function Offsets(bs: seq<string>): seq<nat>
    decreases |bs|
  {
    if bs == [] then [] else Offsets(bs[..|bs| - 1]) + [|Written(bs[..|bs| - 1])|]
  }

  /** f"{pos:010} 00000 n \n". */
  function XrefEntry(pos: nat): string {
    Padded10(pos) + " 00000 n \n"
  }

  function Entries(ps: seq<nat>): string
    decreases |ps|
  {
    if ps == [] then [] else Entries(ps[..|ps| - 1]) + XrefEntry(ps[|ps| - 1])
  }

  function XrefCount(total: nat): string {
    "xref\n0 " + Decimal(total + 1) + "\n"
  }

  const FreeEntry := "0000000000 65535 f \n"

  /** The trailer's first line, its dictionary. */
  function TrailerDict(total: nat): string {
    "trailer " + "<< /Size " + Decimal(total + 1) + " /Root 1 0 R >>\n"
  }

  function TrailerText(total: nat, xrefStart: nat): string {
    "trailer " + "<< /Size " + Decimal(total + 1) + " /Root 1 0 R >>\n"
    + "startxref\n" + Decimal(xrefStart) + "\n%%EOF\n"
  }

  /** Where the first in-use entry of the table starts: after the objects,
      the "xref" lines and the free entry. */
  function TableStart(bs: seq<string>): nat {
    |Written(bs)| + |XrefCount(|bs|)| + |FreeEntry|
  }

  /** The whole file for these object bodies. */
  function Serialize(bs: seq<string>): string {
    Written(bs) + XrefCount(|bs|) + FreeEntry + Entries(Offsets(bs)) + TrailerText(|bs|, |Written(bs)|)
  }

  predicate StreamsLatin1(pages: seq<seq<Run>>) {
    forall i :: 0 <= i < |pages| ==> IsLatin1(PageStream(pages[i]))
  }

  /** write: the file, or None when a content stream does not encode as latin-1. */
  function Document(width: real, height: real, pages: seq<seq<Run>>): Option<string> {
    if StreamsLatin1(pages) then Some(Serialize(Bodies(width, height, pages))) else None
  }

  // ---------------------------------------------------------------------
  // Facts about the objects and the file.

  /** Indexing the list catalog, page tree, pages, streams, font. */
  lemma PartsAt<T>(x: T, y: T, ps: seq<T>, cs: seq<T>, f: T)
    ensures var all := [x, y] + ps + cs + [f];
      && |all| == 3 + |ps| + |cs|
      && all[0] == x && all[1] == y
      && (forall i :: 0 <= i < |ps| ==> all[2 + i] == ps[i])
      && (forall i :: 0 <= i < |cs| ==> all[2 + |ps| + i] == cs[i])
      && all[2 + |ps| + |cs|] == f
  {
  }

  /** The objects come in id order: the catalog is object 1, the page tree
      object 2 and the font the last, object 3 + 2N. */
  lemma ObjectLayout(width: real, height: real, pages: seq<seq<Run>>)
    ensures TreeIn(Bodies(width, height, pages), |pages|)
  {
    var n := |pages|;
    PartsAt(CatalogBody, PagesBody(n), PageObjects(width, height, n), ContentObjects(pages), FontBody);
  }

  /** Page i is object 3 + i, within 3 .. 2+N. */
  lemma PageObjectsAt(width: real, height: real, pages: seq<seq<Run>>)
    ensures var n := |pages|;
      var bs := Bodies(width, height, pages);
      forall i :: 0 <= i < n ==>
        && 3 <= PageId(i) <= 2 + n
        && bs[PageId(i) - 1] == PageBody(width, height, n, i)
  {
    var n := |pages|;
    var bs := Bodies(width, height, pages);
    var ps, cs := PageObjects(width, height, n), ContentObjects(pages);
    PartsAt(CatalogBody, PagesBody(n), ps, cs, FontBody);
    PartsIds(bs, ps, cs, n);
  }

  /** The stream of page i is object 3 + N + i, within 3+N .. 2+2N, and it is
      the page's content stream. */
  lemma ContentObjectsAt(width: real, height: real, pages: seq<seq<Run>>)
    ensures forall i :: 0 <= i < |pages| ==>
      && 3 + |pages| <= ContentId(|pages|, i) <= 2 + 2 * |pages|
      && Bodies(width, height, pages)[ContentId(|pages|, i) - 1] == ContentBody(PageStream(pages[i]))
  {
    ContentLayout(width, height, pages);
    ContentIds(Bodies(width, height, pages), pages);
  }

  lemma ContentIds(bs: seq<string>, pages: seq<seq<Run>>)
    requires ContentObjectsIn(bs, pages)
    ensures forall i :: 0 <= i < |pages| ==>
      && 3 + |pages| <= ContentId(|pages|, i) <= 2 + 2 * |pages|
      && bs[ContentId(|pages|, i) - 1] == ContentBody(PageStream(pages[i]))
  {
  }

  // ---------------------------------------------------------------------
  // What the page tree and the page objects name.

  /** Where the reference to page i starts in the page tree's body: after
      "<< /Type /Pages /Kids [ " and each earlier reference with its space. */
  function KidAt(i: nat): nat {
    if i == 0 then |PagesOpen| else KidAt(i - 1) + |Ref(PageId(i - 1))| + 1
  }

  /** The first k page references, each followed by a space. */
  function KidsText(k: nat): string {
    if k == 0 then "" else KidsText(k - 1) + (Ref(PageId(k - 1)) + Space)
  }

  /** The page tree lists "3 0 R", "4 0 R", ... "2+N 0 R" in page order, each
      followed by a space, page i's reference at KidAt(i); then comes
      "] /Count N >>", N reading back as the number of pages, and the end of
      the object. With no pages the list is the single space of "[  ]". */
  lemma KidsListed(n: nat)
    ensures SegmentAt(PagesBody(n), 0, PagesOpen)
    ensures forall i :: 0 <= i < n ==>
      && SegmentAt(PagesBody(n), KidAt(i), Ref(PageId(i)) + Space)
      && ParseDecimal(Decimal(PageId(i))) == PageId(i)
    ensures SegmentAt(PagesBody(n), KidAt(n) + (if n == 0 then 1 else 0), PagesClose(n))
    ensures KidAt(n) + (if n == 0 then 1 else 0) + |PagesClose(n)| == |PagesBody(n)|
    ensures ParseDecimal(Decimal(n)) == n
  {
    PagesFrame(n);
    forall i | 0 <= i < n
      ensures SegmentAt(PagesBody(n), KidAt(i), Ref(PageId(i)) + Space)
      ensures ParseDecimal(Decimal(PageId(i))) == PageId(i)
    {
      KidInBody(i, n);
      DecimalRoundTrip(PageId(i));
    }
    DecimalRoundTrip(n);
  }

  /** The page tree's body opens with "<< /Type /Pages /Kids [ " and ends
      with its close, right after the references. */
  lemma PagesFrame(n: nat)
    ensures SegmentAt(PagesBody(n), 0, PagesOpen)
    ensures SegmentAt(PagesBody(n), KidAt(n) + (if n == 0 then 1 else 0), PagesClose(n))
    ensures KidAt(n) + (if n == 0 then 1 else 0) + |PagesClose(n)| == |PagesBody(n)|
  {
    PagesBodySplit(n);
    KidsTextLength(n);
    Framed(PagesBody(n), PagesOpen, KidsText(n), Gap(n), PagesClose(n), KidAt(n) + (if n == 0 then 1 else 0));
  }

  /** The single space of "[  ]" when there are no references. */
  function Gap(n: nat): string {
    if n == 0 then Space else ""
  }

  /** The first part and the last of a concatenation, where they are. */
  lemma Framed(d: string, a: string, m: string, g: string, c: string, p: nat)
    requires d == a + m + (g + c) && p == |a| + |m| + |g|
    ensures SegmentAt(d, 0, a) && SegmentAt(d, p, c) && p + |c| == |d|
  {
    assert d[0..|a|] == a;
    assert d[p..p + |c|] == c;
  }

  /** Reference i followed by its space, in the page tree's body. */
  lemma KidInBody(i: nat, n: nat)
    requires i < n
    ensures SegmentAt(PagesBody(n), KidAt(i), Ref(PageId(i)) + Space)
  {
    PagesBodySplit(n);
    KidIn(i, n);
    KidsTextLength(i);
    Inside(PagesBody(n), PagesOpen, KidsText(n), Gap(n) + PagesClose(n), |KidsText(i)|, Ref(PageId(i)) + Space, KidAt(i));
  }

  /** The page tree's body as its opening, the references each followed by
      a space, and its close. */
  lemma PagesBodySplit(n: nat)
    ensures PagesBody(n) == PagesOpen + KidsText(n) + (Gap(n) + PagesClose(n))
  {
    if n == 0 {
      assert Join(" ", PageRefs(0)) == [];
      assert KidsText(0) == [];
    } else {
      JoinRefs(n);
      assert KidsText(n) + Gap(n) == KidsText(n);
    }
    Regroup(PagesOpen, Join(" ", PageRefs(n)), Space, PagesClose(n), KidsText(n), Gap(n));
  }

  /** Regrouping a concatenation whose middle is the same text. */
  lemma Regroup(a: string, j: string, s: string, c: string, k: string, g: string)
    requires j + s == k + g
    ensures a + j + s + c == a + k + (g + c)
  {
    assert a + j + s + c == a + (j + s) + c;
  }

  /** Joining the references with spaces and adding one more space gives
      each reference followed by a space. */
  lemma {:induction false} JoinRefs(n: nat)
    requires n >= 1
    ensures Join(" ", PageRefs(n)) + Space == KidsText(n)
  {
    if n == 1 {
      assert Join(" ", PageRefs(1)) == Ref(PageId(0));
      assert KidsText(1) == [] + Ref(PageId(0)) + Space;
    } else {
      JoinRefs(n - 1);
      assert PageRefs(n)[..n - 1] == PageRefs(n - 1);
    }
  }

  lemma {:induction false} KidsTextLength(k: nat)
    ensures |PagesOpen| + |KidsText(k)| == KidAt(k)
  {
    if k > 0 {
      KidsTextLength(k - 1);
    }
  }

  /** Reference i followed by its space, among the first n. */
  lemma KidIn(i: nat, n: nat)
    requires i < n
    ensures SegmentAt(KidsText(n), |KidsText(i)|, Ref(PageId(i)) + Space)
  {
    var k, r, m := KidsText(i), Ref(PageId(i)) + Space, KidsText(i + 1);
    assert m == k + r;
    Appended(k, r, |k|);
    KidsPrefix(i + 1, n);
    Nested(KidsText(n), 0, m, |k|, r, |k|);
  }

  /** The first k references begin the first n. */
  lemma {:induction false} KidsPrefix(k: nat, n: nat)
    requires k <= n
    ensures SegmentAt(KidsText(n), 0, KidsText(k))
    decreases n
  {
    if k == n {
      assert KidsText(n)[0..|KidsText(n)|] == KidsText(n);
    } else {
      KidsPrefix(k, n - 1);
      Extended(KidsText(n - 1), 0, KidsText(k), Ref(PageId(n - 1)));
      Extended(KidsText(n - 1) + Ref(PageId(n - 1)), 0, KidsText(k), Space);
    }
  }

  /** A page object names the page tree (object 2) as its parent, then its
      media box, the font object 3 + 2N as /F1 and, last, its contents
      object 3 + N + i; both ids read back. */
  lemma PageBodyRefs(width: real, height: real, n: nat, i: nat)
    ensures SegmentAt(PageBody(width, height, n, i), 0, PageOpen)
    ensures SegmentAt(PageBody(width, height, n, i), |PageOpen|, MediaBox(width, height))
    ensures SegmentAt(PageBody(width, height, n, i), |PageOpen| + |MediaBox(width, height)| + |FontsOpen|, FontRef(n))
    ensures SegmentAt(PageBody(width, height, n, i), |PageOpen| + |MediaBox(width, height)| + |FontResource(n)|, ContentsRef(n, i))
    ensures EndsWith(PageBody(width, height, n, i), PageClose)
    ensures ParseDecimal(Decimal(FontId(n))) == FontId(n)
    ensures ParseDecimal(Decimal(ContentId(n, i))) == ContentId(n, i)
  {
    var m, f, c := MediaBox(width, height), FontResource(n), ContentsRef(n, i);
    var am := PageOpen + m;
    var amf := am + f;
    var amfc := amf + c;
    var pf := |PageOpen| + |m| + |FontsOpen|;
    Appended(FontsOpen, FontRef(n), |FontsOpen|);
    Extended(FontsOpen + FontRef(n), |FontsOpen|, FontRef(n), " >> >> ");
    Prefixed(PageOpen, m);
    Appended(PageOpen, m, |PageOpen|);
    Appended(am, f, |am|);
    Nested(amf, |am|, f, |FontsOpen|, FontRef(n), pf);
    Appended(amf, c, |amf|);
    Extended(am, 0, PageOpen, f);
    Extended(am, |PageOpen|, m, f);
    Extended(amf, 0, PageOpen, c);
    Extended(amf, |PageOpen|, m, c);
    Extended(amf, pf, FontRef(n), c);
    Extended(amfc, 0, PageOpen, PageClose);
    Extended(amfc, |PageOpen|, m, PageClose);
    Extended(amfc, pf, FontRef(n), PageClose);
    Extended(amfc, |amf|, c, PageClose);
    assert (amfc + PageClose)[|amfc|..] == PageClose;
    DecimalRoundTrip(FontId(n));
    DecimalRoundTrip(ContentId(n, i));
  }

  /** A part of a concatenation, found where it starts. */
  lemma Appended(a: string, m: string, p: nat)
    requires p == |a|
    ensures SegmentAt(a + m, p, m)
  {
    assert (a + m)[p..p + |m|] == m;
  }

  /** The first part of a concatenation, found at its start. */
  lemma Prefixed(a: string, m: string)
    ensures SegmentAt(a + m, 0, a)
  {
    assert (a + m)[0..|a|] == a;
  }

  /** A segment of the middle of three parts, in the whole. */
  lemma Inside(d: string, a: string, m: string, e: string, p: nat, f: string, r: nat)
    requires d == a + m + e && SegmentAt(m, p, f) && r == |a| + p
    ensures SegmentAt(d, r, f)
  {
    Appended(a, m, |a|);
    Extended(a + m, |a|, m, e);
    Nested(d, |a|, m, p, f, r);
  }

  /** A segment stays where it is when more follows. */
  lemma Extended(x: string, p: nat, m: string, y: string)
    requires SegmentAt(x, p, m)
    ensures SegmentAt(x + y, p, m)
  {
    assert (x + y)[p..p + |m|] == x[p..p + |m|];
  }

  /** A segment of a segment. */
  lemma Nested(d: string, p: nat, m: string, q: nat, f: string, r: nat)
    requires SegmentAt(d, p, m) && SegmentAt(m, q, f) && r == p + q
    ensures SegmentAt(d, r, f)
  {
    SliceSlice(d, p, p + |m|, q, q + |f|);
  }

  lemma PartsIds(bs: seq<string>, ps: seq<string>, cs: seq<string>, n: nat)
    requires |ps| == n && |cs| == n && |bs| == 3 + 2 * n
    requires forall i :: 0 <= i < |ps| ==> bs[2 + i] == ps[i]
    requires forall i :: 0 <= i < |cs| ==> bs[2 + |ps| + i] == cs[i]
    ensures forall i :: 0 <= i < n ==> bs[PageId(i) - 1] == ps[i] && bs[ContentId(n, i) - 1] == cs[i]
  {
  }

  /** The stream of a contents object is exactly as long as its /Length says. */
  lemma ContentLength(stream: string)
    ensures var head := ContentHead(|stream|);
      && head == "<< /Length " + Decimal(|stream|) + " >>\nstream\n"
      && ContentBody(stream)[|head|..|head| + |stream|] == stream
      && ParseDecimal(Decimal(|stream|)) == |stream|
  {
    DecimalRoundTrip(|stream|);
    var head := ContentHead(|stream|);
    assert ContentBody(stream) == head + stream + ContentTail;
  }

  lemma WrittenStep(bs: seq<string>, k: nat)
    requires k < |bs|
    ensures Written(bs[..k + 1]) == Written(bs[..k]) + ObjHead(k + 1) + bs[k]
    ensures Offsets(bs[..k + 1]) == Offsets(bs[..k]) + [|Written(bs[..k])|]
  {
    assert bs[..k + 1][..k] == bs[..k];
  }

  lemma {:induction false} WrittenPrefix(bs: seq<string>, k: nat)
    requires k <= |bs|
    ensures |Written(bs[..k])| <= |Written(bs)|
    ensures Written(bs)[..|Written(bs[..k])|] == Written(bs[..k])
    decreases |bs| - k
  {
    if k == |bs| {
      assert bs[..k] == bs;
    } else {
      WrittenPrefix(bs, k + 1);
      WrittenStep(bs, k);
      var w, w1 := Written(bs[..k]), Written(bs[..k + 1]);
      assert w1[..|w|] == w;
    }
  }

  lemma {:induction false} OffsetsLength(bs: seq<string>)
    ensures |Offsets(bs)| == |bs|
    decreases |bs|
  {
    if bs != [] {
      OffsetsLength(bs[..|bs| - 1]);
    }
  }

  /** The offset recorded for object k + 1 is the length of what precedes it. */
  lemma {:induction false} OffsetAt(bs: seq<string>, k: nat)
    requires k < |bs|
    ensures |Offsets(bs)| == |bs|
    ensures Offsets(bs)[k] == |Written(bs[..k])|
    decreases |bs|
  {
    OffsetsLength(bs);
    var init := bs[..|bs| - 1];
    OffsetsLength(init);
    if k < |init| {
      OffsetAt(init, k);
      assert init[..k] == bs[..k];
    }
  }

  /** Object id starts at the position recorded for it: "id 0 obj\n" is
      written there. */
  lemma ObjectAtOffset(bs: seq<string>, id: nat)
    requires 1 <= id <= |bs|
    ensures |Offsets(bs)| == |bs|
    ensures SegmentAt(Written(bs), Offsets(bs)[id - 1], ObjHead(id))
  {
    var k := id - 1;
    OffsetAt(bs, k);
    WrittenPrefix(bs, id);
    WrittenStep(bs, k);
    HeadInside(Written(bs), Written(bs[..k]), ObjHead(id), bs[k], Written(bs[..id]), Offsets(bs)[id - 1]);
  }

  lemma HeadInside(all: string, w: string, h: string, body: string, w1: string, pos: nat)
    requires w1 == w + h + body && |w1| <= |all| && all[..|w1|] == w1 && pos == |w|
    ensures SegmentAt(all, pos, h)
  {
    HeadAfter(w, h, body, w1);
    InPrefix(all, w1, |w|, |w| + |h|);
  }

  lemma HeadAfter(w: string, h: string, body: string, w1: string)
    requires w1 == w + h + body
    ensures w1[|w|..|w| + |h|] == h
  {
    assert w1[..|w| + |h|] == w + h;
  }

  /** An entry is ten digits that read back as the offset, then " 00000 n \n":
      twenty bytes for any offset below 10^10. */
  lemma XrefEntryShape(pos: nat)
    requires pos < Pow10(10)
    ensures |XrefEntry(pos)| == 20
    ensures AllDigits(XrefEntry(pos)[..10]) && ParseDecimal(XrefEntry(pos)[..10]) == pos
    ensures XrefEntry(pos)[10..] == " 00000 n \n"
  {
    Padded10Spec(pos);
    assert XrefEntry(pos)[..10] == Padded10(pos);
  }

  predicate Below(ps: seq<nat>, bound: nat) {
    forall k :: 0 <= k < |ps| ==> ps[k] < bound
  }

  /** From start on, d holds one twenty-byte entry per offset, in order. */
  predicate EntriesIn(d: string, start: nat, os: seq<nat>) {
    && start + 20 * |os| <= |d|
    && forall k :: 1 <= k <= |os| ==> d[start + 20 * (k - 1)..start + 20 * k] == XrefEntry(os[k - 1])
  }

  /** Entry k is the twenty bytes from 20k. */
  lemma {:induction false} EntriesAt(ps: seq<nat>)
    requires Below(ps, Pow10(10))
    ensures |Entries(ps)| == 20 * |ps|
    ensures EntriesIn(Entries(ps), 0, ps)
    decreases |ps|
  {
    if ps != [] {
      var init := ps[..|ps| - 1];
      EntriesAt(init);
      XrefEntryShape(ps[|ps| - 1]);
      EntriesSnoc(Entries(init), XrefEntry(ps[|ps| - 1]), init, ps);
    }
  }

  lemma EntriesSnoc(a: string, x: string, init: seq<nat>, ps: seq<nat>)
    requires ps != [] && init == ps[..|ps| - 1]
    requires |a| == 20 * |init| && EntriesIn(a, 0, init)
    requires x == XrefEntry(ps[|ps| - 1]) && |x| == 20
    ensures |a + x| == 20 * |ps| && EntriesIn(a + x, 0, ps)
  {
    forall k | 1 <= k <= |ps|
      ensures (a + x)[20 * (k - 1)..20 * k] == XrefEntry(ps[k - 1])
    {
      if k < |ps| {
        assert (a + x)[20 * (k - 1)..20 * k] == a[20 * (k - 1)..20 * k];
        assert ps[k - 1] == init[k - 1];
      } else {
        assert (a + x)[20 * (k - 1)..20 * k] == x;
      }
    }
  }

  /** Every offset recorded for an object lies inside the text before the table. */
  lemma OffsetsBelow(bs: seq<string>)
    ensures Below(Offsets(bs), |Written(bs)|)
  {
    OffsetsLength(bs);
    forall k | 0 <= k < |bs| ensures Offsets(bs)[k] < |Written(bs)| {
      ObjectAtOffset(bs, k + 1);
    }
  }

  /** d holds f from position p on. */
  predicate SegmentAt(d: string, p: nat, f: string) {
    p + |f| <= |d| && d[p..p + |f|] == f
  }

  /** The five parts of a file, as slices of it. */
  lemma FileParts(w: string, x: string, f: string, e: string, t: string, d: string)
    requires d == w + x + f + e + t
    ensures |d| == |w| + |x| + |f| + |e| + |t|
    ensures d[..|w|] == w
    ensures SegmentAt(d, |w|, x)
    ensures SegmentAt(d, |w| + |x|, f)
    ensures SegmentAt(d, |w| + |x| + |f|, e)
    ensures EndsWith(d, t)
  {
    var p1 := w + x;
    var p2 := p1 + f;
    var p3 := p2 + e;
    assert d[..|p3|] == p3;
    assert p3[..|p2|] == p2;
    assert p2[..|p1|] == p1;
    assert d[..|w|] == p1[..|w|];
    assert d[|w|..|w| + |x|] == p1[|w|..];
    assert d[|p1|..|p2|] == p2[|p1|..];
    assert d[|p2|..|p3|] == p3[|p2|..];
  }

  /** A slice of a prefix is the same slice of the whole. */
  lemma InPrefix<T>(d: seq<T>, p: seq<T>, i: nat, j: nat)
    requires |p| <= |d| && d[..|p|] == p && i <= j <= |p|
    ensures d[i..j] == p[i..j]
  {
    forall m | 0 <= m < j - i ensures d[i..j][m] == p[i..j][m] {
      assert d[i + m] == d[..|p|][i + m];
    }
  }

  /** A slice of a slice. */
  lemma SliceSlice<T>(d: seq<T>, i: nat, j: nat, a: nat, b: nat)
    requires i <= j <= |d| && a <= b <= j - i
    ensures d[i..j][a..b] == d[i + a..i + b]
  {
    forall m | 0 <= m < b - a ensures d[i..j][a..b][m] == d[i + a..i + b][m] {
      assert d[i..j][a..b][m] == d[i..j][a + m];
    }
  }

  /** In the serialized file: it starts with the header; for each object id
      k the entry k of the table (after the free entry) holds the offset where
      "k 0 obj\n" begins; the "xref" keyword and the entry count, one more
      than the number of objects, start right after the last object. */
  lemma SerializeOffsets(bs: seq<string>, d: string)
    requires d == Serialize(bs)
    ensures |Offsets(bs)| == |bs|
    ensures d[..|Header|] == Header
    ensures HeadsAt(d, Offsets(bs))
    ensures SegmentAt(d, |Written(bs)|, XrefCount(|bs|))
  {
    var w := Written(bs);
    OffsetsLength(bs);
    FileParts(w, XrefCount(|bs|), FreeEntry, Entries(Offsets(bs)), TrailerText(|bs|, |w|), d);
    WrittenPrefix(bs, 0);
    assert bs[..0] == [];
    InPrefix(d, w, 0, |Header|);
    ObjectsAtOffsets(bs);
    LiftHeads(d, w, Offsets(bs));
  }

  /** Every object starts at the position recorded for it. */
  lemma ObjectsAtOffsets(bs: seq<string>)
    ensures HeadsAt(Written(bs), Offsets(bs))
  {
    OffsetsLength(bs);
    forall k | 1 <= k <= |Offsets(bs)|
      ensures SegmentAt(Written(bs), Offsets(bs)[k - 1], ObjHead(k))
    {
      ObjectAtOffset(bs, k);
    }
  }

  /** For each id k, "k 0 obj\n" is found in d at the position os[k - 1]. */
  predicate HeadsAt(d: string, os: seq<nat>) {
    forall k :: 1 <= k <= |os| ==> SegmentAt(d, os[k - 1], ObjHead(k))
  }

  lemma LiftHeads(d: string, w: string, os: seq<nat>)
    requires |w| <= |d| && d[..|w|] == w && HeadsAt(w, os)
    ensures HeadsAt(d, os)
  {
    forall k | 1 <= k <= |os|
      ensures SegmentAt(d, os[k - 1], ObjHead(k))
    {
      InPrefix(d, w, os[k - 1], os[k - 1] + |ObjHead(k)|);
    }
  }

  /** The table lists the offsets in id order, twenty bytes each, after the
      free entry "0000000000 65535 f \n". */
  lemma SerializeTable(bs: seq<string>, d: string)
    requires d == Serialize(bs)
    requires |Written(bs)| < Pow10(10)
    ensures |Offsets(bs)| == |bs|
    ensures SegmentAt(d, |Written(bs)| + |XrefCount(|bs|)|, FreeEntry)
    ensures EntriesIn(d, TableStart(bs), Offsets(bs))
  {
    OffsetsLength(bs);
    SerializeFree(bs, d);
    SerializeEntries(bs, d);
  }

  lemma SerializeFree(bs: seq<string>, d: string)
    requires d == Serialize(bs)
    ensures SegmentAt(d, |Written(bs)| + |XrefCount(|bs|)|, FreeEntry)
  {
    var e, t := Entries(Offsets(bs)), TrailerText(|bs|, |Written(bs)|);
    FileParts(Written(bs), XrefCount(|bs|), FreeEntry, e, t, d);
  }

  lemma SerializeEntries(bs: seq<string>, d: string)
    requires d == Serialize(bs)
    requires |Written(bs)| < Pow10(10)
    ensures EntriesIn(d, TableStart(bs), Offsets(bs))
  {
    SerializeEntriesSegment(bs, d);
    TableOf(bs);
    TableEntries(d, Entries(Offsets(bs)), TableStart(bs), Offsets(bs));
  }

  lemma SerializeEntriesSegment(bs: seq<string>, d: string)
    requires d == Serialize(bs)
    ensures SegmentAt(d, |Written(bs)| + |XrefCount(|bs|)| + |FreeEntry|, Entries(Offsets(bs)))
  {
    var e, t := Entries(Offsets(bs)), TrailerText(|bs|, |Written(bs)|);
    FileParts(Written(bs), XrefCount(|bs|), FreeEntry, e, t, d);
  }

  /** The entries for objects that all start below 10^10. */
  lemma TableOf(bs: seq<string>)
    requires |Written(bs)| < Pow10(10)
    ensures |Entries(Offsets(bs))| == 20 * |Offsets(bs)|
    ensures EntriesIn(Entries(Offsets(bs)), 0, Offsets(bs))
  {
    var os := Offsets(bs);
    OffsetsBelow(bs);
    forall k | 0 <= k < |os| ensures os[k] < Pow10(10) { }
    EntriesAt(os);
  }

  /** The file ends with startxref's value, the offset of the table, and the
      end-of-file marker. */
  lemma SerializeTrailer(bs: seq<string>, d: string)
    requires d == Serialize(bs)
    ensures TrailerAt(d, |Written(bs)|)
  {
    var w := Written(bs);
    var t := TrailerText(|bs|, |w|);
    FileParts(w, XrefCount(|bs|), FreeEntry, Entries(Offsets(bs)), t, d);
    assert EndsWith(d, t);
    TrailerTail(|bs|, |w|, t);
    EndsWithTrans(d, t, "startxref\n" + Decimal(|w|) + "\n%%EOF\n");
    DecimalRoundTrip(|w|);
  }

  /** Right after the last entry the trailer names the size of the table,
      one more than the number of objects, and the catalog as its root. */
  lemma SerializeSize(bs: seq<string>, d: string)
    requires d == Serialize(bs)
    requires |Written(bs)| < Pow10(10)
    ensures SegmentAt(d, TableStart(bs) + 20 * |bs|, "trailer " + "<< /Size " + Decimal(|bs| + 1) + " /Root 1 0 R >>\n")
    ensures ParseDecimal(Decimal(|bs| + 1)) == |bs| + 1
  {
    var t := TrailerText(|bs|, |Written(bs)|);
    var h := Written(bs) + XrefCount(|bs|) + FreeEntry + Entries(Offsets(bs));
    EntriesLength(bs);
    TrailerHead(|bs|, |Written(bs)|, t);
    SegmentAfter(h, t, TrailerDict(|bs|), TableStart(bs) + 20 * |bs|);
    DecimalRoundTrip(|bs| + 1);
  }

  /** What begins t is found in h + t right after h. */
  lemma SegmentAfter(h: string, t: string, f: string, p: nat)
    requires SegmentAt(t, 0, f) && p == |h|
    ensures SegmentAt(h + t, p, f)
  {
    assert (h + t)[p..p + |f|] == t[..|f|];
  }

  /** Twenty bytes per object in the table. */
  lemma EntriesLength(bs: seq<string>)
    requires |Written(bs)| < Pow10(10)
    ensures |Entries(Offsets(bs))| == 20 * |bs|
  {
    OffsetsLength(bs);
    TableOf(bs);
  }

  predicate EndsWith(d: string, suffix: string) {
    |suffix| <= |d| && d[|d| - |suffix|..] == suffix
  }

  lemma EndsWithTrans(d: string, t: string, s: string)
    requires EndsWith(d, t) && EndsWith(t, s)
    ensures EndsWith(d, s)
  {
    SliceSlice(d, |d| - |t|, |d|, |t| - |s|, |t|);
  }

  /** d ends with the "startxref" line, the decimal digits of xrefStart,
      which read back as it, and the end-of-file marker. */
  predicate TrailerAt(d: string, xrefStart: nat) {
    && EndsWith(d, "startxref\n" + Decimal(xrefStart) + "\n%%EOF\n")
    && ParseDecimal(Decimal(xrefStart)) == xrefStart
  }

  /** The entries, found in the file where the table starts. */
  lemma TableEntries(d: string, e: string, start: nat, os: seq<nat>)
    requires SegmentAt(d, start, e)
    requires |e| == 20 * |os| && EntriesIn(e, 0, os)
    ensures EntriesIn(d, start, os)
  {
    forall k | 1 <= k <= |os|
      ensures d[start + 20 * (k - 1)..start + 20 * k] == XrefEntry(os[k - 1])
    {
      SliceSlice(d, start, start + |e|, 20 * (k - 1), 20 * k);
    }
  }

  /** The trailer ends with the "startxref" line, its value and the
      end-of-file marker. */
  lemma TrailerTail(total: nat, xrefStart: nat, t: string)
    requires t == TrailerText(total, xrefStart)
    ensures EndsWith(t, "startxref\n" + Decimal(xrefStart) + "\n%%EOF\n")
  {
    DropFirst(TrailerDict(total), "startxref\n", Decimal(xrefStart), "\n%%EOF\n");
  }

  /** The trailer begins with its dictionary. */
  lemma TrailerHead(total: nat, xrefStart: nat, t: string)
    requires t == TrailerText(total, xrefStart)
    ensures SegmentAt(t, 0, TrailerDict(total))
  {
    DropFirst(TrailerDict(total), "startxref\n", Decimal(xrefStart), "\n%%EOF\n");
  }

  /** Of a + b + c + e, a is the beginning and b + c + e the rest. */
  lemma DropFirst<T>(a: seq<T>, b: seq<T>, c: seq<T>, e: seq<T>)
    ensures (a + b + c + e)[..|a|] == a
    ensures (a + b + c + e)[|a|..] == b + c + e
  {
    assert a + b + c + e == a + (b + c + e);
  }

  /** The file write produces, when it produces one: SerializeOffsets and
      SerializeTable hold of it with 3 + 2N objects. */
  lemma DocumentIsSerialized(width: real, height: real, pages: seq<seq<Run>>, d: string)
    requires Document(width, height, pages) == Some(d)
    ensures d == Serialize(Bodies(width, height, pages))
    ensures |Bodies(width, height, pages)| == FontId(|pages|)
  {
    ObjectLayout(width, height, pages);
  }

  /** write produces a file exactly when every run's text on every page
      encodes as latin-1; that file is the serialization of the bodies. */
  lemma DocumentWritten(width: real, height: real, pages: seq<seq<Run>>)
    ensures Document(width, height, pages).Some? <==> forall i :: 0 <= i < |pages| ==> TextsLatin1(pages[i])
    ensures Document(width, height, pages).Some? ==>
      Document(width, height, pages).value == Serialize(Bodies(width, height, pages))
  {
    StreamsLatin1Texts(pages);
  }

  /** The cross-reference table of the file serializing the objects bs:
      "k 0 obj\n" found at the k-th recorded position, the "xref" header with
      the count |bs| + 1, the free entry, then entry k holding the k-th
      position as ten digits, and startxref naming the offset of "xref". */
  lemma FileXref(bs: seq<string>, d: string)
    requires d == Serialize(bs)
    requires |Written(bs)| < Pow10(10)
    ensures |Offsets(bs)| == |bs|
    ensures d[..|Header|] == Header
    ensures HeadsAt(d, Offsets(bs))
    ensures SegmentAt(d, |Written(bs)|, XrefCount(|bs|))
    ensures SegmentAt(d, |Written(bs)| + |XrefCount(|bs|)|, FreeEntry)
    ensures EntriesIn(d, TableStart(bs), Offsets(bs))
    ensures SegmentAt(d, TableStart(bs) + 20 * |bs|, "trailer " + "<< /Size " + Decimal(|bs| + 1) + " /Root 1 0 R >>\n")
    ensures TrailerAt(d, |Written(bs)|)
  {
    SerializeOffsets(bs, d);
    SerializeTable(bs, d);
    SerializeSize(bs, d);
    SerializeTrailer(bs, d);
  }

  /** The same for the file write produces, whose objects bs are the 3 + 2N
      bodies: the header, "k 0 obj\n" at each recorded offset, the "xref"
      line with the count 3 + 2N + 1, the free entry, the entries, the
      trailer's /Size and the startxref value. */
  lemma DocumentXref(width: real, height: real, pages: seq<seq<Run>>, bs: seq<string>, d: string)
    requires Document(width, height, pages) == Some(d)
    requires bs == Bodies(width, height, pages)
    requires |Written(bs)| < Pow10(10)
    ensures |bs| == FontId(|pages|) && |Offsets(bs)| == FontId(|pages|)
    ensures d[..|Header|] == Header
    ensures HeadsAt(d, Offsets(bs))
    ensures SegmentAt(d, |Written(bs)|, XrefCount(FontId(|pages|)))
    ensures SegmentAt(d, |Written(bs)| + |XrefCount(|bs|)|, FreeEntry)
    ensures EntriesIn(d, TableStart(bs), Offsets(bs))
    ensures SegmentAt(d, TableStart(bs) + 20 * |bs|, "trailer " + "<< /Size " + Decimal(FontId(|pages|) + 1) + " /Root 1 0 R >>\n")
    ensures TrailerAt(d, |Written(bs)|)
  {
    DocumentIsSerialized(width, height, pages, d);
    FileXref(bs, d);
  }

  // ---------------------------------------------------------------------
  // The writer itself.

  /** The catalog, the page tree and the font where Bodies puts them. */
  predicate TreeIn(bs: seq<string>, n: nat) {
    && |bs| == 3 + 2 * n
    && bs[0] == CatalogBody
    && bs[1] == PagesBody(n)
    && bs[2 + 2 * n] == FontBody
  }

  /** The page objects where Bodies puts them. */
  predicate PageObjectsIn(bs: seq<string>, width: real, height: real, n: nat) {
    && |bs| == 3 + 2 * n
    && forall i :: 0 <= i < n ==> bs[2 + i] == PageBody(width, height, n, i)
  }

  /** The contents objects where Bodies puts them. */
  predicate ContentObjectsIn(bs: seq<string>, pages: seq<seq<Run>>) {
    && |bs| == 3 + 2 * |pages|
    && forall i :: 0 <= i < |pages| ==> bs[2 + |pages| + i] == ContentBody(PageStream(pages[i]))
  }

  lemma PageLayout(width: real, height: real, pages: seq<seq<Run>>)
    ensures PageObjectsIn(Bodies(width, height, pages), width, height, |pages|)
  {
    var n := |pages|;
    var ps, cs := PageObjects(width, height, n), ContentObjects(pages);
    PartsAt(CatalogBody, PagesBody(n), ps, cs, FontBody);
    PagesIn(Bodies(width, height, pages), ps, width, height, n);
  }

  lemma ContentLayout(width: real, height: real, pages: seq<seq<Run>>)
    ensures ContentObjectsIn(Bodies(width, height, pages), pages)
  {
    var n := |pages|;
    ContentsAfter(Bodies(width, height, pages), CatalogBody, PagesBody(n), PageObjects(width, height, n), ContentObjects(pages), pages);
  }

  lemma ContentsAfter(bs: seq<string>, x: string, y: string, ps: seq<string>, cs: seq<string>, pages: seq<seq<Run>>)
    requires |ps| == |pages| && bs == [x, y] + ps + cs + [FontBody]
    requires |cs| == |pages| && forall i :: 0 <= i < |pages| ==> cs[i] == ContentBody(PageStream(pages[i]))
    ensures ContentObjectsIn(bs, pages)
  {
    ThirdPart(bs, x, y, ps, cs, FontBody, |pages|);
    ContentsIn(bs, cs, pages);
  }

  /** In [x, y] + ps + cs + [f], cs follows 2 + |ps| others. */
  lemma ThirdPart<T>(bs: seq<T>, x: T, y: T, ps: seq<T>, cs: seq<T>, f: T, n: nat)
    requires bs == [x, y] + ps + cs + [f] && |ps| == n
    ensures |bs| == 3 + n + |cs|
    ensures bs[2 + n..2 + n + |cs|] == cs
  {
    assert bs == ([x, y] + ps) + cs + [f];
  }

  lemma PagesIn(bs: seq<string>, ps: seq<string>, width: real, height: real, n: nat)
    requires |bs| == 3 + 2 * n && |ps| == n
    requires forall i :: 0 <= i < |ps| ==> bs[2 + i] == ps[i]
    requires forall i :: 0 <= i < n ==> ps[i] == PageBody(width, height, n, i)
    ensures PageObjectsIn(bs, width, height, n)
  {
  }

  lemma ContentsIn(bs: seq<string>, cs: seq<string>, pages: seq<seq<Run>>)
    requires |bs| == 3 + 2 * |pages| && |cs| == |pages|
    requires bs[2 + |pages|..2 + 2 * |pages|] == cs
    requires forall i :: 0 <= i < |pages| ==> cs[i] == ContentBody(PageStream(pages[i]))
    ensures ContentObjectsIn(bs, pages)
  {
    forall i | 0 <= i < |pages| ensures bs[2 + |pages| + i] == ContentBody(PageStream(pages[i])) {
      assert bs[2 + |pages| + i] == bs[2 + |pages|..2 + 2 * |pages|][i];
    }
  }

  /** The header and the first k objects of bs: what the buffer holds once
      object k has been written. */
  function WrittenUpTo(bs: seq<string>, k: nat): string
    requires k <= |bs|
    decreases k
  {
    if k == 0 then Header else WrittenUpTo(bs, k - 1) + ObjHead(k) + bs[k - 1]
  }

  /** The positions recorded for the first k objects. */
  function OffsetsUpTo(bs: seq<string>, k: nat): seq<nat>
    requires k <= |bs|
    decreases k
  {
    if k == 0 then [] else OffsetsUpTo(bs, k - 1) + [|WrittenUpTo(bs, k - 1)|]
  }

  lemma {:induction false} UpToIsWritten(bs: seq<string>, k: nat)
    requires k <= |bs|
    ensures WrittenUpTo(bs, k) == Written(bs[..k])
    ensures OffsetsUpTo(bs, k) == Offsets(bs[..k])
    decreases k
  {
    if k == 0 {
      assert bs[..0] == [];
    } else {
      UpToIsWritten(bs, k - 1);
      WrittenStep(bs, k - 1);
    }
  }

  /** After all objects, the buffer is Written(bs) and the positions Offsets(bs). */
  lemma UpToAll(bs: seq<string>)
    ensures WrittenUpTo(bs, |bs|) == Written(bs)
    ensures OffsetsUpTo(bs, |bs|) == Offsets(bs)
  {
    UpToIsWritten(bs, |bs|);
    assert bs[..|bs|] == bs;
  }

  /** Appending an object: its offset is recorded and "id 0 obj\n" and its
      body follow; the buffer and the positions then cover one more object. */
  lemma AppendObject(bs: seq<string>, k: nat, buffer: string, xref: seq<nat>, body: string)
    requires k < |bs| && bs[k] == body
    requires buffer == WrittenUpTo(bs, k) && xref == OffsetsUpTo(bs, k)
    ensures buffer + ObjHead(k + 1) + body == WrittenUpTo(bs, k + 1)
    ensures xref + [|buffer|] == OffsetsUpTo(bs, k + 1)
  {
  }

  lemma TextsLatin1Upto(pages: seq<seq<Run>>, n: nat)
    requires 0 < n <= |pages|
    requires forall j :: 0 <= j < n - 1 ==> TextsLatin1(pages[j])
    requires TextsLatin1(pages[n - 1])
    ensures forall j :: 0 <= j < n ==> TextsLatin1(pages[j])
  {
  }

  /** Every stream encodes exactly when every run's text on every page does. */
  lemma StreamsLatin1Texts(pages: seq<seq<Run>>)
    ensures StreamsLatin1(pages) <==> forall i :: 0 <= i < |pages| ==> TextsLatin1(pages[i])
  {
    forall i | 0 <= i < |pages| ensures IsLatin1(PageStream(pages[i])) <==> TextsLatin1(pages[i]) {
      PageStreamLatin1(pages[i]);
    }
  }

  /** The buffer after the trailer is the serialized file. */
  lemma SerializeOfParts(bs: seq<string>, w: string, xs: seq<nat>, d: string)
    requires w == Written(bs) && xs == Offsets(bs)
    requires d == w + XrefCount(|bs|) + FreeEntry + Entries(xs)
    ensures d + TrailerText(|bs|, |w|) == Serialize(bs)
  {
  }

  lemma DocumentOfParts(width: real, height: real, pages: seq<seq<Run>>, bs: seq<string>, d: string)
    requires bs == Bodies(width, height, pages) && StreamsLatin1(pages) && d == Serialize(bs)
    ensures Document(width, height, pages) == Some(d)
  {
  }

  /** A contents object written in three pieces is its body. */
  lemma ContentPieces(b: string, stream: string)
    ensures b + ContentHead(|stream|) + stream + ContentTail == b + ContentBody(stream)
  {
  }

  class PdfWriter {
    const width: real
    const height: real
    const pages: seq<seq<Run>>

    constructor(width: real, height: real, pages: seq<seq<Run>>)
      ensures this.width == width && this.height == height && this.pages == pages
    {
      this.width := width;
      this.height := height;
      this.pages := pages;
    }

    /** _page_stream: the commands of the page joined by newlines after a final
        empty command, or None when the result does not encode as latin-1. */
    static method EncodePageStream(page: seq<Run>) returns (stream: Option<string>)
      ensures stream.Some? <==> TextsLatin1(page)
      ensures stream.Some? ==> stream.value == PageStream(page) && IsLatin1(stream.value)
    {
      var commands: seq<string> := [];
      var i := 0;
      while i < |page|
        invariant 0 <= i <= |page|
        invariant commands == Commands(page[..i])
      {
        assert page[..i + 1][..i] == page[..i];
        commands := commands + RunCommands(page[i]);
        i := i + 1;
      }
      assert page[..i] == page;
      var text := Join("\n", commands + [""]);
      PageStreamLatin1(page);
      if IsLatin1(text) {
        stream := Some(text);
      } else {
        stream := None;
      }
    }

    /** write: the file Document describes, built by appending to a buffer
        while recording where each object starts. */
    method Write() returns (data: Option<string>)
      ensures data == Document(width, height, pages)
    {
      ghost var bs := Bodies(width, height, pages);
      ObjectLayout(width, height, pages);
      PageLayout(width, height, pages);
      ContentLayout(width, height, pages);
      var ok, objects, xref := WriteObjects(bs);
      if !ok {
        return None;
      }
      var buffer := WriteTable(bs, objects, xref);
      DocumentOfParts(width, height, pages, bs, buffer);
      data := Some(buffer);
    }

    /** The header and all 3 + 2N objects, or failure when a content stream
        does not encode. */
    method WriteObjects(ghost bs: seq<string>) returns (ok: bool, buffer: string, xref: seq<nat>)
      requires TreeIn(bs, |pages|) && PageObjectsIn(bs, width, height, |pages|) && ContentObjectsIn(bs, pages)
      ensures ok == StreamsLatin1(pages)
      ensures ok ==> buffer == Written(bs) && xref == Offsets(bs)
    {
      buffer, xref := WriteCatalogAndTree(bs);
      buffer, xref := WritePageObjects(bs, buffer, xref);
      ok, buffer, xref := WriteContentObjects(bs, buffer, xref);
      if ok {
        buffer, xref := WriteFont(bs, buffer, xref);
      }
    }

    /** The cross-reference table and the trailer after the objects. */
    method WriteTable(ghost bs: seq<string>, objects: string, xref: seq<nat>) returns (buffer: string)
      requires |bs| == 3 + 2 * |pages|
      requires objects == Written(bs) && xref == Offsets(bs)
      ensures buffer == Serialize(bs)
    {
      var numPages := |pages|;
      var fontObjectId := 3 + 2 * numPages;
      var totalObjects := fontObjectId;
      var xrefStart := |objects|;
      buffer := objects + XrefCount(totalObjects);
      buffer := buffer + FreeEntry;
      buffer := WriteEntries(buffer, xref);
      SerializeOfParts(bs, objects, xref, buffer);
      buffer := buffer + TrailerText(totalObjects, xrefStart);
    }

    /** The header, then object 1 (the catalog) and object 2 (the page tree). */
    method WriteCatalogAndTree(ghost bs: seq<string>) returns (buffer: string, xref: seq<nat>)
      requires TreeIn(bs, |pages|)
      ensures buffer == WrittenUpTo(bs, 2) && xref == OffsetsUpTo(bs, 2)
    {
      var numPages := |pages|;
      buffer := Header;
      xref := [];
      AppendObject(bs, 0, buffer, xref, CatalogBody);
      xref := xref + [|buffer|];
      buffer := buffer + ObjHead(1);
      buffer := buffer + CatalogBody;

      var kids := Join(" ", PageRefs(numPages));
      var tree := PagesOpen + kids + Space + PagesClose(numPages);
      AppendObject(bs, 1, buffer, xref, tree);
      xref := xref + [|buffer|];
      buffer := buffer + ObjHead(2);
      buffer := buffer + tree;
    }

    /** Objects 3 .. 2+N, one per page, each naming its media box, the font
        and its contents object. */
    method WritePageObjects(ghost bs: seq<string>, buffer0: string, xref0: seq<nat>) returns (buffer: string, xref: seq<nat>)
      requires PageObjectsIn(bs, width, height, |pages|)
      requires buffer0 == WrittenUpTo(bs, 2) && xref0 == OffsetsUpTo(bs, 2)
      ensures buffer == WrittenUpTo(bs, 2 + |pages|) && xref == OffsetsUpTo(bs, 2 + |pages|)
    {
      var numPages := |pages|;
      var pageObjectStart := 3;
      buffer, xref := buffer0, xref0;
      var index := 0;
      ghost var k := 2;
      while index < numPages
        invariant 0 <= index <= numPages && k == 2 + index
        invariant buffer == WrittenUpTo(bs, k) && xref == OffsetsUpTo(bs, k)
      {
        var pageObjId := pageObjectStart + index;
        var body := PageBody(width, height, numPages, index);
        assert body == bs[k];
        assert pageObjId == k + 1;
        AppendObject(bs, k, buffer, xref, body);
        xref := xref + [|buffer|];
        buffer := buffer + ObjHead(pageObjId);
        buffer := buffer + body;
        index := index + 1;
        k := k + 1;
      }
    }

    /** Objects 3+N .. 2+2N, the content streams, each with its length; ok is
        false, and the file is not written, when a stream does not encode. */
    method WriteContentObjects(ghost bs: seq<string>, buffer0: string, xref0: seq<nat>)
      returns (ok: bool, buffer: string, xref: seq<nat>)
      requires ContentObjectsIn(bs, pages)
      requires buffer0 == WrittenUpTo(bs, 2 + |pages|) && xref0 == OffsetsUpTo(bs, 2 + |pages|)
      ensures ok == StreamsLatin1(pages)
      ensures ok ==> buffer == WrittenUpTo(bs, 2 + 2 * |pages|) && xref == OffsetsUpTo(bs, 2 + 2 * |pages|)
    {
      var numPages := |pages|;
      var contentObjectStart := 3 + numPages;
      buffer, xref := buffer0, xref0;
      var index := 0;
      ghost var k := 2 + numPages;
      while index < numPages
        invariant 0 <= index <= numPages && k == 2 + numPages + index
        invariant buffer == WrittenUpTo(bs, k) && xref == OffsetsUpTo(bs, k)
        invariant forall j :: 0 <= j < index ==> TextsLatin1(pages[j])
      {
        var stream := EncodePageStream(pages[index]);
        if stream.None? {
          StreamsLatin1Texts(pages);
          return false, buffer, xref;
        }
        var contentObjId := contentObjectStart + index;
        assert contentObjId == k + 1 && bs[k] == ContentBody(stream.value);
        buffer, xref := WriteContentObject(bs, k, buffer, xref, contentObjId, stream.value);
        index := index + 1;
        k := k + 1;
        TextsLatin1Upto(pages, index);
      }
      StreamsLatin1Texts(pages);
      ok := true;
    }

    /** One contents object: its offset is recorded, then "id 0 obj", the
        stream dictionary with the length, the stream and "endstream". */
    static method WriteContentObject(ghost bs: seq<string>, ghost k: nat, buffer0: string, xref0: seq<nat>,
                                     contentObjId: nat, stream: string)
      returns (buffer: string, xref: seq<nat>)
      requires k < |bs| && contentObjId == k + 1 && bs[k] == ContentBody(stream)
      requires buffer0 == WrittenUpTo(bs, k) && xref0 == OffsetsUpTo(bs, k)
      ensures buffer == WrittenUpTo(bs, k + 1) && xref == OffsetsUpTo(bs, k + 1)
    {
      AppendObject(bs, k, buffer0, xref0, ContentBody(stream));
      xref := xref0 + [|buffer0|];
      buffer := buffer0 + ObjHead(contentObjId);
      buffer := buffer + ContentHead(|stream|);
      buffer := buffer + stream;
      buffer := buffer + ContentTail;
      ContentPieces(buffer0 + ObjHead(contentObjId), stream);
    }

    /** The last object, 3 + 2N: the Helvetica font. */
    method WriteFont(ghost bs: seq<string>, buffer0: string, xref0: seq<nat>) returns (buffer: string, xref: seq<nat>)
      requires TreeIn(bs, |pages|)
      requires buffer0 == WrittenUpTo(bs, 2 + 2 * |pages|) && xref0 == OffsetsUpTo(bs, 2 + 2 * |pages|)
      ensures buffer == Written(bs) && xref == Offsets(bs)
    {
      var fontObjectId := 3 + 2 * |pages|;
      AppendObject(bs, 2 + 2 * |pages|, buffer0, xref0, FontBody);
      xref := xref0 + [|buffer0|];
      buffer := buffer0 + ObjHead(fontObjectId);
      buffer := buffer + FontBody;
      UpToAll(bs);
    }

    /** One twenty-byte entry per recorded position, in id order. */
    static method WriteEntries(buffer0: string, xref: seq<nat>) returns (buffer: string)
      ensures buffer == buffer0 + Entries(xref)
    {
      buffer := buffer0;
      var j := 0;
      while j < |xref|
        invariant 0 <= j <= |xref|
        invariant buffer == buffer0 + Entries(xref[..j])
      {
        assert xref[..j + 1][..j] == xref[..j];
        buffer := buffer + XrefEntry(xref[j]);
        j := j + 1;
      }
      assert xref[..j] == xref;
    }
  }
}
