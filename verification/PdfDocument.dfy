/** The PDF writer: pages of 52 lines, numbered objects and a byte-exact cross-reference table. */
module PdfDocument {
  import opened Results
  import opened Text
  import opened PdfText

  const LINES_PER_PAGE := 52

  type Page = seq<string>

  // ---------------------------------------------------------------- pages

  function Pages(lines: seq<string>): (pages: seq<Page>)
    ensures |pages| > 0
    ensures lines != [] ==> forall p :: p in pages ==> 0 < |p| <= LINES_PER_PAGE
  {
    if |lines| <= LINES_PER_PAGE then [lines]
    else [lines[..LINES_PER_PAGE]] + Pages(lines[LINES_PER_PAGE..])
  }

  function Normalized(lines: seq<string>): (r: seq<string>)
    ensures r != []
  {
    if lines == [] then [""] else lines
  }

  function Concat(pages: seq<Page>): seq<string>
  {
    if pages == [] then [] else pages[0] + Concat(pages[1..])
  }

  /** The pages hold the lines, all of them and in order. */
  lemma {:induction false} PagesConcat(lines: seq<string>)
    ensures Concat(Pages(lines)) == lines
    decreases |lines|
  {
    if |lines| > LINES_PER_PAGE {
      PagesConcat(lines[LINES_PER_PAGE..]);
    } else {
      assert [lines][1..] == [];
    }
  }

  /** Every page but the last is full. */
  lemma {:induction false} PagesAreFull(lines: seq<string>, i: nat)
    requires i < |Pages(lines)| - 1
    ensures |Pages(lines)[i]| == 52
    decreases |lines|
  {
    if |lines| > LINES_PER_PAGE && i > 0 {
      PagesAreFull(lines[LINES_PER_PAGE..], i - 1);
    }
  }

  // ---------------------------------------------------------------- object bodies

  function Join(parts: seq<string>, separator: string): string
  {
    if parts == [] then []
    else if |parts| == 1 then parts[0]
    else parts[0] + (separator + Join(parts[1..], separator))
  }

  function ShowLines(page: Page): seq<string>
  {
    if page == [] then []
    else ["(" + Escape(page[0]) + ") Tj"] + (if |page| > 1 then ["T*"] else []) + ShowLines(page[1..])
  }

  const BEGIN_TEXT := ["BT", "/F1 11 Tf", "14 TL", "50 790 Td"]

  function ContentStream(page: Page): string
  {
    Join(BEGIN_TEXT + ShowLines(page) + ["ET"], "\n")
  }

  function FirstPage(): nat { 3 }

  function Font(pages: seq<Page>): nat { FirstPage() + |pages| }

  function FirstContent(pages: seq<Page>): nat { Font(pages) + 1 }

  function Total(pages: seq<Page>): nat
  {
    FirstContent(pages) + |pages| - 1
  }

  /** An indirect reference (section 7.3.10 of ISO 32000-1). */
  function Ref(id: nat): string { Dec(id) + " 0 R" }

  function PageRefs(count: nat): seq<string>
  {
    seq(count, i requires 0 <= i < count => Ref(FirstPage() + i))
  }

  function Catalog(): string { "<< /Type /Catalog /Pages " + (Ref(2) + " >>") }

  function PageTree(count: nat): string
  {
    "<< /Type /Pages /Kids [" + (Join(PageRefs(count), " ") + ("] /Count " + (Dec(count) + " >>")))
  }

  function PageObject(font: nat, content: nat): string
  {
    "<< /Type /Page /Parent " + (Ref(2) + (" /MediaBox [0 0 595 842] " + ("/Resources << /Font << /F1 " + (Ref(font)
    + (" >> >> /Contents " + (Ref(content) + " >>"))))))
  }

  function ContentObject(stream: string): string
  {
    "<< /Length " + Dec(ByteLength(stream)) + " >>\nstream\n" + stream + "\nendstream"
  }

  function FontObject(): string { "<< /Type /Font /Subtype " + "/Type1 /BaseFont /Helvetica >>" }

  /** The body of an object, by its id. */
  function Body(pages: seq<Page>, id: nat): string
    requires 1 <= id <= Total(pages)
  {
    if id == 1 then Catalog()
    else if id == 2 then PageTree(|pages|)
    else if id < Font(pages) then PageObject(Font(pages), FirstContent(pages) + (id - FirstPage()))
    else if id == Font(pages) then FontObject()
    else ContentObject(ContentStream(pages[id - FirstContent(pages)]))
  }

  // ---------------------------------------------------------------- the file

  function Header(id: nat): string { Dec(id) + " 0 obj\n" }

  function Serialized(pages: seq<Page>, id: nat): string
    requires 1 <= id <= Total(pages)
  {
    Header(id) + Body(pages, id) + "\nendobj\n"
  }

  /** The file up to and including object k. */
  function Upto(pages: seq<Page>, k: nat): string
    requires k <= Total(pages)
  {
    if k == 0 then "%PDF-1.4\n" else Upto(pages, k - 1) + Serialized(pages, k)
  }

  function Offset(pages: seq<Page>, id: nat): nat
    requires 1 <= id <= Total(pages) + 1
  {
    ByteLength(Upto(pages, id - 1))
  }

  function XrefHeader(total: nat): string
  {
    "xref\n0 " + Dec(total + 1) + "\n" + "0000000000 65535 f \n"
  }

  function XrefEntry(offset: nat): string
  {
    PadStart(Dec(offset), 10) + " 00000 n \n"
  }

  /** The entries of objects 1..k. */
  function XrefEntries(pages: seq<Page>, k: nat): string
    requires k <= Total(pages)
  {
    if k == 0 then [] else XrefEntries(pages, k - 1) + XrefEntry(Offset(pages, k))
  }

  function Trailer(total: nat, xref: nat): string
  {
    "trailer\n" + ("<< /Size " + (Dec(total + 1) + (" /Root " + (Ref(1) + (" >>\nstartxref\n"
    + (Dec(xref) + "\n%%EOF"))))))
  }

  function Document(pages: seq<Page>): string
  {
    var total := Total(pages);
    Upto(pages, total) + XrefHeader(total) + XrefEntries(pages, total) + Trailer(total, Offset(pages, total + 1))
  }

  // ---------------------------------------------------------------- the writer

  method SplitPages(lines: seq<string>) returns (pages: seq<Page>)
    requires lines != []
    ensures pages == Pages(lines)
  {
    hide Pages;
    pages := [];
    var index := 0;
    assert lines[0..] == lines;
    while index < |lines|
      invariant 0 <= index
      invariant index < |lines| ==> pages + Pages(lines[index..]) == Pages(lines)
      invariant index >= |lines| ==> pages == Pages(lines)
    {
      var end := if index + LINES_PER_PAGE <= |lines| then index + LINES_PER_PAGE else |lines|;
      PagesStep(lines[index..]);
      if end < |lines| {
        assert lines[index..][..LINES_PER_PAGE] == lines[index..end];
        assert lines[index..][LINES_PER_PAGE..] == lines[end..];
        Assoc(pages, [lines[index..end]], Pages(lines[end..]));
      } else {
        assert lines[index..] == lines[index..end];
      }
      pages := pages + [lines[index..end]];
      index := index + LINES_PER_PAGE;
    }
  }

  lemma PagesStep(lines: seq<string>)
    ensures Pages(lines) ==
      if |lines| <= LINES_PER_PAGE then [lines] else [lines[..LINES_PER_PAGE]] + Pages(lines[LINES_PER_PAGE..])
  {
  }

  method BuildStream(page: Page) returns (stream: string)
    ensures stream == ContentStream(page)
  {
    var contentLines := BEGIN_TEXT;
    assert page[0..] == page;
    for i := 0 to |page|
      invariant contentLines + ShowLines(page[i..]) == BEGIN_TEXT + ShowLines(page)
    {
      assert page[i..][1..] == page[i + 1..];
      ghost var before := contentLines;
      contentLines := contentLines + ["(" + Escape(page[i]) + ") Tj"];
      if i < |page| - 1 {
        contentLines := contentLines + ["T*"];
      }
      assert contentLines + ShowLines(page[i + 1..]) == before + ShowLines(page[i..]);
    }
    assert contentLines == BEGIN_TEXT + ShowLines(page);
    stream := Join(contentLines + ["ET"], "\n");
  }

  /** The objects the writer fills in before it numbers them out. */
  method BuildObjects(pages: seq<Page>) returns (objects: map<nat, string>)
    ensures forall id: nat :: id in objects <==> 1 <= id <= Total(pages)
    ensures forall id :: 1 <= id <= Total(pages) ==> objects[id] == Body(pages, id)
  {
    hide *;
    BodyCases(pages);
    objects := map[1 := Catalog()];
    objects := objects[2 := PageTree(|pages|)];
    for i := 0 to |pages|
      invariant forall id: nat :: id in objects <==>
        id == 1 || id == 2 || FirstPage() <= id < FirstPage() + i || FirstContent(pages) <= id < FirstContent(pages) + i
      invariant forall id: nat :: id in objects ==> 1 <= id <= Total(pages) && objects[id] == Body(pages, id)
    {
      PageCase(pages, i);
      var stream := BuildStream(pages[i]);
      objects := objects[FirstPage() + i := PageObject(Font(pages), FirstContent(pages) + i)];
      objects := objects[FirstContent(pages) + i := ContentObject(stream)];
    }
    objects := objects[Font(pages) := FontObject()];
  }

  lemma BodyCases(pages: seq<Page>)
    ensures FirstPage() == 3 && Font(pages) == 3 + |pages| && FirstContent(pages) == 4 + |pages|
    ensures Total(pages) == 3 + 2 * |pages|
    ensures Body(pages, 1) == Catalog()
    ensures Body(pages, 2) == PageTree(|pages|)
    ensures Body(pages, Font(pages)) == FontObject()
  {
  }

  lemma PageCase(pages: seq<Page>, i: nat)
    requires i < |pages|
    ensures Body(pages, FirstPage() + i) == PageObject(Font(pages), FirstContent(pages) + i)
    ensures Body(pages, FirstContent(pages) + i) == ContentObject(ContentStream(pages[i]))
  {
    hide PageTree, PageObject, ContentObject, ContentStream, Catalog, FontObject;
  }

  /** The objects in the order of their ids, and where each begins; an undefined id would throw. */
  method WriteObjects(pages: seq<Page>, objects: map<nat, string>)
    returns (result: Option<string>, offsets: seq<nat>)
    requires forall id :: 1 <= id <= Total(pages) ==> id in objects && objects[id] == Body(pages, id)
    ensures result == Some(Upto(pages, Total(pages)))
    ensures |offsets| == Total(pages) + 1 && forall k :: 1 <= k <= Total(pages) ==> offsets[k] == Offset(pages, k)
  {
    hide *;
    DocumentParts(pages);
    var pdf := "%PDF-1.4\n";
    offsets := [0];
    var id := 1;
    while id <= Total(pages)
      invariant 1 <= id <= Total(pages) + 1 && pdf == Upto(pages, id - 1)
      invariant |offsets| == id && forall k :: 1 <= k < id ==> offsets[k] == Offset(pages, k)
    {
      if id !in objects {
        return None, offsets;
      }
      UptoStep(pages, id);
      offsets := offsets + [ByteLength(pdf)];
      pdf := pdf + (Dec(id) + " 0 obj\n" + objects[id] + "\nendobj\n");
      id := id + 1;
    }
    return Some(pdf), offsets;
  }

  method WriteXrefEntries(pages: seq<Page>, offsets: seq<nat>) returns (entries: string)
    requires |offsets| == Total(pages) + 1 && forall k :: 1 <= k <= Total(pages) ==> offsets[k] == Offset(pages, k)
    ensures entries == XrefEntries(pages, Total(pages))
  {
    hide *;
    DocumentParts(pages);
    entries := "";
    var id := 1;
    while id <= Total(pages)
      invariant 1 <= id <= Total(pages) + 1 && entries == XrefEntries(pages, id - 1)
    {
      UptoStep(pages, id);
      entries := entries + XrefEntry(offsets[id]);
      id := id + 1;
    }
  }

  /** Every id is defined, so the writer never throws; the bytes are those of the document. */
  method BuildSimplePdf(lines: seq<string>) returns (result: Option<seq<Byte>>)
    ensures result == Some(Utf8(Document(Pages(Normalized(lines)))))
  {
    var pages := SplitPages(Normalized(lines));
    hide *;
    DocumentParts(pages);
    var objects := BuildObjects(pages);
    var body, offsets := WriteObjects(pages, objects);
    if body.None? {
      return None;
    }
    var pdf := body.value;
    var xrefOffset := ByteLength(pdf);
    pdf := pdf + XrefHeader(Total(pages));
    var entries := WriteXrefEntries(pages, offsets);
    pdf := pdf + entries + Trailer(Total(pages), xrefOffset);
    return Some(Utf8(pdf));
  }

  lemma UptoStep(pages: seq<Page>, k: nat)
    requires 1 <= k <= Total(pages)
    ensures Offset(pages, k) == ByteLength(Upto(pages, k - 1))
    ensures Upto(pages, k) == Upto(pages, k - 1) + (Dec(k) + " 0 obj\n" + Body(pages, k) + "\nendobj\n")
    ensures XrefEntries(pages, k) == XrefEntries(pages, k - 1) + XrefEntry(Offset(pages, k))
  {
  }

  lemma DocumentParts(pages: seq<Page>)
    ensures Upto(pages, 0) == "%PDF-1.4\n" && XrefEntries(pages, 0) == "" && Total(pages) >= 1
    ensures Offset(pages, Total(pages) + 1) == ByteLength(Upto(pages, Total(pages)))
    ensures Document(pages) == Upto(pages, Total(pages)) + XrefHeader(Total(pages))
      + XrefEntries(pages, Total(pages)) + Trailer(Total(pages), Offset(pages, Total(pages) + 1))
  {
  }

  // ---------------------------------------------------------------- the structure of the bytes

  /** The text occupies the bytes of the file at that offset. */
  predicate Holds(file: seq<Byte>, offset: nat, text: string)
  {
    offset + ByteLength(text) <= |file| && file[offset..offset + ByteLength(text)] == Utf8(text)
  }

  lemma HoldsAt(before: string, text: string, after: string)
    ensures Holds(Utf8(before + text + after), ByteLength(before), text)
  {
    Utf8Concat(before + text, after);
    Utf8Concat(before, text);
  }

  lemma HoldsPart(file: seq<Byte>, offset: nat, a: string, b: string, c: string)
    requires Holds(file, offset, a + b + c)
    ensures Holds(file, offset, a) && Holds(file, offset + ByteLength(a), b)
    ensures Holds(file, offset + ByteLength(a) + ByteLength(b), c)
  {
    Utf8Concat(a + b, c);
    Utf8Concat(a, b);
    hide Utf8;
    var all, m, n := Utf8(a) + Utf8(b) + Utf8(c), |Utf8(a)|, |Utf8(a)| + |Utf8(b)|;
    assert all[..m] == Utf8(a) && all[m..n] == Utf8(b) && all[n..] == Utf8(c);
    var here := file[offset..offset + |all|];
    assert here[..m] == file[offset..offset + m] && here[m..n] == file[offset + m..offset + n];
    assert here[n..] == file[offset + n..offset + |all|];
  }

  /** The objects after number k. */
  function Since(pages: seq<Page>, k: nat): string
    requires k <= Total(pages)
    decreases Total(pages) - k
  {
    if k == Total(pages) then [] else Serialized(pages, k + 1) + Since(pages, k + 1)
  }

  lemma {:induction false} UptoSince(pages: seq<Page>, k: nat)
    requires k <= Total(pages)
    ensures Upto(pages, k) + Since(pages, k) == Upto(pages, Total(pages))
    decreases Total(pages) - k
  {
    hide Serialized, Total;
    if k < Total(pages) {
      UptoSince(pages, k + 1);
      Assoc(Upto(pages, k), Serialized(pages, k + 1), Since(pages, k + 1));
    }
  }

  /** Every object stands in the file at its offset. */
  lemma ObjectStands(pages: seq<Page>, id: nat)
    requires 1 <= id <= Total(pages)
    ensures Holds(Utf8(Document(pages)), Offset(pages, id), Serialized(pages, id))
  {
    hide Utf8, Holds, Serialized, Total, Trailer, XrefEntries, XrefHeader;
    var total := Total(pages);
    var text, since := Serialized(pages, id), Since(pages, id);
    var rest := XrefHeader(total) + (XrefEntries(pages, total) + Trailer(total, Offset(pages, total + 1)));
    UptoSince(pages, id - 1);
    assert Document(pages) == Upto(pages, id - 1) + text + (since + rest) by {
      Assoc(Upto(pages, total) + XrefHeader(total), XrefEntries(pages, total),
            Trailer(total, Offset(pages, total + 1)));
      Assoc(Upto(pages, total), XrefHeader(total),
            XrefEntries(pages, total) + Trailer(total, Offset(pages, total + 1)));
      Assoc(Upto(pages, id - 1), text, since);
      Assoc(Upto(pages, id - 1) + text, since, rest);
    }
    HoldsAt(Upto(pages, id - 1), text, since + rest);
  }

  /** Every offset of the table is the exact position of its "n 0 obj" header in the file. */
  lemma OffsetsPointAtObjects(pages: seq<Page>, id: nat)
    requires 1 <= id <= Total(pages)
    ensures Holds(Utf8(Document(pages)), Offset(pages, id), Header(id))
  {
    ObjectStands(pages, id);
    hide Utf8, Holds, Body, Total, Document, Offset, Header;
    HoldsPart(Utf8(Document(pages)), Offset(pages, id), Header(id), Body(pages, id), "\nendobj\n");
  }

  /** startxref gives the exact position of the cross-reference table. */
  lemma StartxrefPointsAtXref(pages: seq<Page>)
    ensures var file, xref, total := Utf8(Document(pages)), Offset(pages, Total(pages) + 1), Total(pages);
      && Holds(file, xref, XrefHeader(total))
      && Trailer(total, xref)[..8] == "trailer\n"
      && |Utf8(Trailer(total, xref))| <= |file|
      && file[|file| - |Utf8(Trailer(total, xref))|..] == Utf8(Trailer(total, xref))
  {
    hide Utf8, Total, XrefEntries, XrefHeader, Upto, Offset;
    var total, xref := Total(pages), Offset(pages, Total(pages) + 1);
    var front := Upto(pages, total) + XrefHeader(total) + XrefEntries(pages, total);
    Assoc(Upto(pages, total) + XrefHeader(total), XrefEntries(pages, total), Trailer(total, xref));
    assert ByteLength(Upto(pages, total)) == xref by { DocumentParts(pages); }
    HoldsAt(Upto(pages, total), XrefHeader(total), XrefEntries(pages, total) + Trailer(total, xref));
    Utf8Concat(front, Trailer(total, xref));
  }

  /** An entry is 20 bytes exactly while its offset has ten digits, and its digits are the offset. */
  lemma XrefEntryShape(offset: nat)
    ensures ByteLength(XrefEntry(offset)) == 20 <==> offset < Pow10(10)
    ensures offset < Pow10(10) ==>
      Digits(XrefEntry(offset)[..10]) && NatOf(XrefEntry(offset)[..10]) == offset
  {
    hide Dec, Pow10, NatOf, Utf8;
    var digits := PadStart(Dec(offset), 10);
    PaddedLength(offset, 10);
    PaddedParses(offset, 10);
    AsciiLength(XrefEntry(offset));
    if offset < Pow10(10) {
      assert XrefEntry(offset)[..10] == digits;
    }
  }

  lemma OffsetsGrow(pages: seq<Page>, k: nat, m: nat)
    requires 1 <= k <= m <= Total(pages) + 1
    ensures Offset(pages, k) <= Offset(pages, m)
  {
    hide Utf8, Serialized, Total;
    if k < m {
      OffsetsGrow(pages, k, m - 1);
      Utf8Concat(Upto(pages, m - 2), Serialized(pages, m - 1));
    }
  }

  function EntriesSince(pages: seq<Page>, k: nat): string
    requires k <= Total(pages)
    decreases Total(pages) - k
  {
    if k == Total(pages) then [] else XrefEntry(Offset(pages, k + 1)) + EntriesSince(pages, k + 1)
  }

  lemma {:induction false} EntriesSplit(pages: seq<Page>, k: nat)
    requires k <= Total(pages)
    ensures XrefEntries(pages, k) + EntriesSince(pages, k) == XrefEntries(pages, Total(pages))
    decreases Total(pages) - k
  {
    hide XrefEntry, Offset, Total;
    if k < Total(pages) {
      EntriesSplit(pages, k + 1);
      Assoc(XrefEntries(pages, k), XrefEntry(Offset(pages, k + 1)), EntriesSince(pages, k + 1));
    }
  }

  lemma {:induction false} EntriesLength(pages: seq<Page>, k: nat)
    requires k <= Total(pages) && Offset(pages, Total(pages) + 1) < Pow10(10)
    ensures ByteLength(XrefEntries(pages, k)) == 20 * k
  {
    hide XrefEntry, Offset, Total, Pow10;
    if k > 0 {
      EntriesLength(pages, k - 1);
      OffsetsGrow(pages, k, Total(pages) + 1);
      XrefEntryShape(Offset(pages, k));
      Utf8Concat(XrefEntries(pages, k - 1), XrefEntry(Offset(pages, k)));
    }
  }

  /**
    While the objects end before byte 10^10, the entry of object n starts 20 * n bytes after the first
    entry of the table, and its ten digits are the position of the object.
  */
  lemma EntriesPointAtObjects(pages: seq<Page>, id: nat)
    requires 1 <= id <= Total(pages) && Offset(pages, Total(pages) + 1) < Pow10(10)
    ensures var file, first := Utf8(Document(pages)),
        Offset(pages, Total(pages) + 1) + ByteLength(XrefHeader(Total(pages))) - 20;
      && Holds(file, first + 20 * id, XrefEntry(Offset(pages, id)))
      && ByteLength(XrefEntry(Offset(pages, id))) == 20
      && Digits(XrefEntry(Offset(pages, id))[..10])
      && NatOf(XrefEntry(Offset(pages, id))[..10]) == Offset(pages, id)
      && Holds(file, Offset(pages, id), Header(id))
  {
    hide Utf8, Total, XrefEntry, XrefHeader, Upto, Trailer, Offset, Holds, Pow10, Digits, NatOf, Header;
    var total := Total(pages);
    var entry, trailer := XrefEntry(Offset(pages, id)), Trailer(total, Offset(pages, total + 1));
    OffsetsGrow(pages, id, total + 1);
    OffsetsPointAtObjects(pages, id);
    XrefEntryShape(Offset(pages, id));
    EntriesSplit(pages, id - 1);
    EntriesLength(pages, id - 1);
    DocumentParts(pages);
    var front := Upto(pages, total) + XrefHeader(total);
    assert Document(pages) == front + XrefEntries(pages, id - 1) + entry + (EntriesSince(pages, id) + trailer) by {
      Assoc(front, XrefEntries(pages, id - 1), entry + EntriesSince(pages, id));
      Assoc(front + XrefEntries(pages, id - 1), entry, EntriesSince(pages, id));
      Assoc(front + XrefEntries(pages, id - 1) + entry, EntriesSince(pages, id), trailer);
    }
    HoldsAt(front + XrefEntries(pages, id - 1), entry, EntriesSince(pages, id) + trailer);
    Utf8Concat(front, XrefEntries(pages, id - 1));
    Utf8Concat(Upto(pages, total), XrefHeader(total));
  }

  // ---------------------------------------------------------------- reading the text back

  /** The strings shown by the lines of a content stream. */
  function ReadShown(s: string): Option<seq<string>>
    decreases |s|
  {
    if s == "ET" then Some([])
    else if !StartsWith(s, "(") then None
    else
      match ReadLiteral(s[1..], 0, [])
      case None => None
      case Some((text, rest)) =>
        if !StartsWith(rest, " Tj\n") then None
        else
          var next := if StartsWith(rest[4..], "T*\n") then rest[7..] else rest[4..];
          if |next| >= |s| then None
          else
            match ReadShown(next)
            case None => None
            case Some(later) => Some([text] + later)
  }

  function NormalizedAll(lines: seq<string>): seq<string>
  {
    if lines == [] then [] else [NormalizeBreaks(lines[0])] + NormalizedAll(lines[1..])
  }

  function ShownText(page: Page): string
  {
    Join(ShowLines(page) + ["ET"], "\n")
  }

  lemma ShownHead(page: Page)
    requires page != []
    ensures ShownText(page) == "(" + (Escape(page[0]) + ([')'] + (" Tj\n"
      + ((if |page| > 1 then "T*\n" else "") + ShownText(page[1..])))))
  {
    hide Escape;
    var op, rest := "(" + Escape(page[0]) + ") Tj", ShowLines(page[1..]) + ["ET"];
    var shown := if |page| > 1 then ["T*"] + rest else rest;
    assert ShowLines(page) + ["ET"] == [op] + shown;
    JoinCons(op, shown);
    if |page| > 1 {
      JoinCons("T*", rest);
      assert Join(shown, "\n") == "T*\n" + ShownText(page[1..]);
    } else {
      assert Join(shown, "\n") == "" + ShownText(page[1..]);
    }
    CloseLiteral(Escape(page[0]), Join(shown, "\n"));
  }

  lemma JoinCons(head: string, rest: seq<string>)
    requires rest != []
    ensures Join([head] + rest, "\n") == head + ("\n" + Join(rest, "\n"))
  {
    assert ([head] + rest)[1..] == rest;
  }

  lemma CloseLiteral(literal: string, tail: string)
    ensures "(" + literal + ") Tj" + ("\n" + tail) == "(" + (literal + ([')'] + (" Tj\n" + tail)))
  {
  }

  lemma ReadShownStep(literal: string, text: string, more: bool, tail: string, later: seq<string>)
    requires ReadLiteral(literal + ([')'] + (" Tj\n" + ((if more then "T*\n" else "") + tail))), 0, [])
      == Some((text, " Tj\n" + ((if more then "T*\n" else "") + tail)))
    requires ReadShown(tail) == Some(later) && (!more ==> !StartsWith(tail, "T*\n"))
    ensures ReadShown("(" + (literal + ([')'] + (" Tj\n" + ((if more then "T*\n" else "") + tail)))))
      == Some([text] + later)
  {
    hide ReadLiteral;
    var rest := " Tj\n" + ((if more then "T*\n" else "") + tail);
    var s := "(" + (literal + ([')'] + rest));
    assert s[1..] == literal + ([')'] + rest) && s[0] == '(' && s != "ET";
    assert rest[4..] == (if more then "T*\n" else "") + tail;
    assert more ==> rest[7..] == tail;
    assert StartsWith(s, "(") && StartsWith(rest, " Tj\n");
    assert StartsWith(rest[4..], "T*\n") <==> more;
    assert (if StartsWith(rest[4..], "T*\n") then rest[7..] else rest[4..]) == tail;
  }

  /** The content of a page reads back as its lines, up to carriage returns. */
  lemma {:induction false} PageReadsBack(page: Page)
    ensures ReadShown(ShownText(page)) == Some(NormalizedAll(page))
    decreases |page|
  {
    if page == [] {
      assert ShowLines(page) + ["ET"] == ["ET"];
    } else {
      hide ReadLiteral, ReadShown, Escape, ShownText, NormalizeBreaks;
      var more, tail := |page| > 1, ShownText(page[1..]);
      PageReadsBack(page[1..]);
      LiteralRoundTrip(page[0], " Tj\n" + ((if more then "T*\n" else "") + tail));
      ShownHead(page);
      LastShown(page);
      ReadShownStep(Escape(page[0]), NormalizeBreaks(page[0]), more, tail, NormalizedAll(page[1..]));
    }
  }

  lemma LastShown(page: Page)
    requires page != []
    ensures |page| == 1 ==> !StartsWith(ShownText(page[1..]), "T*\n")
  {
    if |page| == 1 {
      assert ShowLines(page[1..]) + ["ET"] == ["ET"];
    }
  }

  /** A content stream is the text operators followed by what shows the lines of its page. */
  lemma StreamShowsPage(page: Page)
    ensures ContentStream(page)
      == "BT" + ("\n" + ("/F1 11 Tf" + ("\n" + ("14 TL" + ("\n" + ("50 790 Td" + ("\n" + ShownText(page))))))))
  {
    hide ShowLines, Join;
    var shown := ShowLines(page) + ["ET"];
    assert BEGIN_TEXT + ShowLines(page) + ["ET"] == ["BT"] + (["/F1 11 Tf"] + (["14 TL"] + (["50 790 Td"] + shown)));
    JoinCons("50 790 Td", shown);
    JoinCons("14 TL", ["50 790 Td"] + shown);
    JoinCons("/F1 11 Tf", ["14 TL"] + (["50 790 Td"] + shown));
    JoinCons("BT", ["/F1 11 Tf"] + (["14 TL"] + (["50 790 Td"] + shown)));
  }
}
