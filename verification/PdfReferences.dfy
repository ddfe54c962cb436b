/** What the objects of the file refer to, and where the stream of a content object stands. */
module PdfReferences {
  import opened Results
  import opened Text
  import opened PdfText
  import opened PdfDocument

  // ---------------------------------------------------------------- streams and their lengths

  /** What stands before the bytes of a stream of n bytes. */
  function StreamHead(n: nat): string
  {
    "<< /Length " + Dec(n) + " >>\nstream\n"
  }

  /** The length a stream object declares. */
  function DeclaredLength(body: string): Option<nat>
  {
    if StartsWith(body, "<< /Length ") then Some(NatOf(LeadingDigits(body[11..]))) else None
  }

  /** Behind the header of its object, the stream takes up n bytes of the file between "stream" and "endstream". */
  predicate StreamStands(file: seq<Byte>, offset: nat, id: nat, n: nat, stream: string)
  {
    var head := Header(id) + StreamHead(n);
    && Holds(file, offset, head) && Holds(file, offset + ByteLength(head), stream) && ByteLength(stream) == n
    && Holds(file, offset + ByteLength(head) + n, "\nendstream\nendobj\n")
  }

  lemma StreamIn(file: seq<Byte>, offset: nat, id: nat, stream: string)
    requires Holds(file, offset, Header(id) + StreamHead(ByteLength(stream)) + stream + "\nendstream\nendobj\n")
    ensures StreamStands(file, offset, id, ByteLength(stream), stream)
  {
    hide Holds, Header, StreamHead, Utf8;
    HoldsPart(file, offset, Header(id) + StreamHead(ByteLength(stream)), stream, "\nendstream\nendobj\n");
  }

  /** The length that the content object of page i declares is the number of bytes of its stream in the file. */
  lemma StreamStandsAtLength(pages: seq<Page>, i: nat)
    requires i < |pages|
    ensures DeclaredLength(Body(pages, FirstContent(pages) + i)) == Some(ByteLength(ContentStream(pages[i])))
    ensures StreamStands(Utf8(Document(pages)), Offset(pages, FirstContent(pages) + i), FirstContent(pages) + i,
                         ByteLength(ContentStream(pages[i])), ContentStream(pages[i]))
  {
    hide *;
    var id, stream := FirstContent(pages) + i, ContentStream(pages[i]);
    BodyCases(pages);
    PageCase(pages, i);
    ObjectStands(pages, id);
    Declared(stream);
    ContentSerialized(pages, id, stream);
    StreamIn(Utf8(Document(pages)), Offset(pages, id), id, stream);
  }

  lemma ContentSerialized(pages: seq<Page>, id: nat, stream: string)
    requires 1 <= id <= Total(pages) && Body(pages, id) == ContentObject(stream)
    ensures Serialized(pages, id)
      == Header(id) + StreamHead(ByteLength(stream)) + stream + "\nendstream\nendobj\n"
  {
    hide Body, ByteLength, Dec, Header, Total;
    var head, end := StreamHead(ByteLength(stream)), "\nendstream";
    assert ContentObject(stream) == head + stream + end;
    assert end + "\nendobj\n" == "\nendstream\nendobj\n";
    Assoc(head + stream, end, "\nendobj\n");
    Assoc(Header(id), head + stream + end, "\nendobj\n");
    Assoc(Header(id), head, stream);
    Assoc(Header(id), head + stream, end + "\nendobj\n");
  }

  lemma Declared(stream: string)
    ensures DeclaredLength(ContentObject(stream)) == Some(ByteLength(stream))
  {
    hide Utf8, ByteLength, Dec, NatOf, LeadingDigits;
    var n := ByteLength(stream);
    var rest := " >>\nstream\n" + stream + "\nendstream";
    DecParses(n);
    LeadingDigitsThen(Dec(n), rest);
    assert ContentObject(stream)[11..] == Dec(n) + rest;
  }

  // ---------------------------------------------------------------- references

  /** The numbers n of all references "n 0 R" in a text, from left to right. */
  function References(s: string): seq<nat>
    decreases |s|
  {
    if s == [] then []
    else if !IsDigit(s[0]) then References(s[1..])
    else
      var number := LeadingDigits(s);
      var rest := s[|number|..];
      if StartsWith(rest, " 0 R") then [NatOf(number)] + References(rest[4..]) else References(rest)
  }

  predicate EndsPlain(s: string)
  {
    s != [] && !IsDigit(s[|s| - 1]) && forall i :: 0 < i < |s| && s[i] == 'R' ==> s[i - 1] != ' '
  }

  /** No reference in the first part and none that reaches into the rest. */
  predicate Apart(plain: string, rest: string)
  {
    && EndsPlain(plain)
    && (plain[|plain| - 1] == ' ' && rest != [] ==> rest[0] != '0' && rest[0] != 'R')
  }

  lemma {:induction false} SkipPlain(plain: string, rest: string)
    requires Apart(plain, rest)
    ensures References(plain + rest) == References(rest)
    decreases |plain|
  {
    if IsDigit(plain[0]) {
      var after := SkipDigits(plain, rest);
      SkipPlain(after, rest);
    } else {
      assert (plain + rest)[1..] == plain[1..] + rest;
      if |plain| == 1 {
        assert plain[1..] + rest == rest;
      } else {
        ApartBehind(plain, rest, 1);
        hide Apart;
        SkipPlain(plain[1..], rest);
      }
    }
  }

  lemma ApartBehind(plain: string, rest: string, n: nat)
    requires Apart(plain, rest) && n < |plain|
    ensures Apart(plain[n..], rest)
  {
  }

  lemma SkipDigits(plain: string, rest: string) returns (after: string)
    requires Apart(plain, rest) && IsDigit(plain[0])
    ensures |after| < |plain| && Apart(after, rest) && References(plain + rest) == References(after + rest)
  {
    LeadingDigitsSplit(plain);
    var number := LeadingDigits(plain);
    var n := |number|;
    after := plain[n..];
    assert plain == number + after && plain + rest == number + (after + rest);
    ApartBehind(plain, rest, n);
    NoReferenceAcross(after, rest);
    assert after[0] == (after + rest)[0];
    hide Apart, References, LeadingDigits, StartsWith;
    ReadNumber(number, after + rest);
  }

  lemma {:induction false} LeadingDigitsSplit(s: string)
    ensures var n := |LeadingDigits(s)|;
      s[..n] == LeadingDigits(s) && (n < |s| ==> !IsDigit(s[n])) && (n > 0 ==> IsDigit(s[n - 1]))
  {
    if s != [] && IsDigit(s[0]) {
      LeadingDigitsSplit(s[1..]);
    }
  }

  lemma NoReferenceAcross(after: string, rest: string)
    requires Apart(after, rest)
    ensures !StartsWith(after + rest, " 0 R")
  {
    assert " 0 R"[0] == ' ' && " 0 R"[1] == '0' && " 0 R"[2] == ' ' && " 0 R"[3] == 'R';
  }

  lemma ReadNumber(number: string, rest: string)
    requires Digits(number) && number != [] && (rest == [] || !IsDigit(rest[0]))
    ensures References(number + rest)
      == if StartsWith(rest, " 0 R") then [NatOf(number)] + References(rest[4..]) else References(rest)
  {
    LeadingDigitsThen(number, rest);
    hide NatOf, LeadingDigits;
    assert (number + rest)[|number|..] == rest;
  }

  lemma ReadReference(n: nat, rest: string)
    ensures References(Ref(n) + rest) == [n] + References(rest)
  {
    DecParses(n);
    hide References, Dec, NatOf;
    var after := " 0 R" + rest;
    assert after[..4] == " 0 R" && after[4..] == rest && Ref(n) + rest == Dec(n) + after;
    ReadNumber(Dec(n), after);
  }

  lemma {:induction false} NoLeadingZero(n: nat)
    requires n > 0
    ensures Dec(n)[0] != '0'
  {
    if n >= 10 {
      NoLeadingZero(n / 10);
    }
  }

  lemma NextReference(plain: string, n: nat, rest: string)
    requires EndsPlain(plain) && n > 0
    ensures References(plain + (Ref(n) + rest)) == [n] + References(rest)
  {
    hide References, EndsPlain, Dec;
    NoLeadingZero(n);
    assert (Ref(n) + rest)[0] == Dec(n)[0];
    SkipPlain(plain, Ref(n) + rest);
    ReadReference(n, rest);
  }

  /** A number that no reference begins with. */
  lemma NextNumber(plain: string, n: nat, rest: string)
    requires EndsPlain(plain) && (n > 0 || plain[|plain| - 1] != ' ')
    requires |rest| > 1 && !IsDigit(rest[0]) && rest[1] != '0'
    ensures References(plain + (Dec(n) + rest)) == References(rest)
  {
    if n > 0 {
      NoLeadingZero(n);
    }
    hide References, EndsPlain, Dec, NatOf;
    assert " 0 R"[1] == '0';
    ReadNumber(Dec(n), rest);
    SkipPlain(plain, Dec(n) + rest);
  }

  lemma NoReference(plain: string)
    requires EndsPlain(plain)
    ensures References(plain) == []
  {
    SkipPlain(plain, []);
    assert plain + [] == plain;
  }

  lemma CatalogReferences()
    ensures References(Catalog()) == [2]
  {
    hide References, Dec, Ref;
    NextReference("<< /Type /Catalog /Pages ", 2, " >>");
    NoReference(" >>");
  }

  /** The ids of the pages from page k on. */
  function Kids(count: nat, k: nat): (ids: seq<nat>)
    requires k <= count
    ensures |ids| == count - k && forall i :: 0 <= i < |ids| ==> ids[i] == FirstPage() + k + i
    decreases count - k
  {
    if k == count then [] else [FirstPage() + k] + Kids(count, k + 1)
  }

  lemma {:induction false} KidReferences(count: nat, k: nat, tail: string)
    requires k <= count
    ensures References(Join(PageRefs(count)[k..], " ") + tail) == Kids(count, k) + References(tail)
    decreases count - k
  {
    hide References, Ref;
    var refs, n := PageRefs(count)[k..], FirstPage() + k;
    if k == count {
      assert Join(refs, " ") + tail == tail;
    } else {
      var later := PageRefs(count)[k + 1..];
      KidReferences(count, k + 1, tail);
      assert refs[0] == Ref(n) && refs[1..] == later;
      ReadReference(n, " " + (Join(later, " ") + tail));
      ReadReference(n, tail);
      if k + 1 < count {
        assert Join(refs, " ") + tail == Ref(n) + (" " + (Join(later, " ") + tail));
        SpaceBetween(count, k + 1, tail);
      } else {
        assert later == [] && Join(later, " ") + tail == tail && Join(refs, " ") + tail == Ref(n) + tail;
      }
    }
  }

  lemma SpaceBetween(count: nat, k: nat, tail: string)
    requires k < count
    ensures References(" " + (Join(PageRefs(count)[k..], " ") + tail))
      == References(Join(PageRefs(count)[k..], " ") + tail)
  {
    hide References, Dec;
    NoLeadingZero(FirstPage() + k);
    var refs := PageRefs(count)[k..];
    assert refs[0] == Ref(FirstPage() + k) && refs[0][0] == Dec(FirstPage() + k)[0];
    assert Join(refs, " ")[0] == refs[0][0];
    SkipPlain(" ", Join(refs, " ") + tail);
  }

  lemma PageTreeReferences(count: nat)
    requires count > 0
    ensures References(PageTree(count)) == Kids(count, 0)
  {
    var kids, tail := Join(PageRefs(count), " "), "] /Count " + (Dec(count) + " >>");
    hide References, Dec, PageRefs, Join;
    SkipPlain("<< /Type /Pages /Kids [", kids + tail);
    assert PageRefs(count)[0..] == PageRefs(count);
    KidReferences(count, 0, tail);
    NextNumber("] /Count ", count, " >>");
    NoReference(" >>");
  }

  lemma FontReferences()
    ensures References(FontObject()) == []
  {
    hide References;
    SkipPlain("<< /Type /Font /Subtype ", "/Type1 /BaseFont /Helvetica >>");
    NoReference("/Type1 /BaseFont /Helvetica >>");
  }

  lemma PageReferences(font: nat, content: nat)
    requires font > 0 && content > 0
    ensures References(PageObject(font, content)) == [2, font, content]
  {
    hide References, Ref;
    var last := " >> >> /Contents " + (Ref(content) + " >>");
    var fonts := "/Resources << /Font << /F1 " + (Ref(font) + last);
    NextReference("<< /Type /Page /Parent ", 2, " /MediaBox [0 0 595 842] " + fonts);
    SkipPlain(" /MediaBox [0 0 595 842] ", fonts);
    NextReference("/Resources << /Font << /F1 ", font, last);
    NextReference(" >> >> /Contents ", content, " >>");
    NoReference(" >>");
  }

  lemma TrailerReferences(total: nat, xref: nat)
    ensures References(Trailer(total, xref)) == [1]
  {
    hide References, Ref, Dec;
    var start := " >>\nstartxref\n" + (Dec(xref) + "\n%%EOF");
    var root := " /Root " + (Ref(1) + start);
    assert Trailer(total, xref) == "trailer\n" + ("<< /Size " + (Dec(total + 1) + root));
    SkipPlain("trailer\n", "<< /Size " + (Dec(total + 1) + root));
    NextNumber("<< /Size ", total + 1, root);
    NextReference(" /Root ", 1, start);
    NextNumber(" >>\nstartxref\n", xref, "\n%%EOF");
    NoReference("\n%%EOF");
  }

  /** What an object that is no content stream refers to. */
  function Targets(pages: seq<Page>, id: nat): seq<nat>
    requires 1 <= id < FirstContent(pages)
  {
    if id == 1 then [2]
    else if id == 2 then Kids(|pages|, 0)
    else if id < Font(pages) then [2, Font(pages), FirstContent(pages) + (id - FirstPage())]
    else []
  }

  /**
    The references in the objects and in the trailer are these: the catalog names the page tree, which names the
    pages in order, each of which names the tree, the font and its own content; the trailer names the catalog. So
    each is the id of an object of that kind, and every object is named.
  */
  lemma EveryReferenceResolves(pages: seq<Page>, id: nat)
    requires pages != [] && 1 <= id < FirstContent(pages)
    ensures References(Body(pages, id)) == Targets(pages, id)
    ensures forall n :: n in Targets(pages, id) ==> 1 <= n <= Total(pages)
    ensures References(Trailer(Total(pages), Offset(pages, Total(pages) + 1))) == [1]
  {
    hide References, Catalog, PageTree, PageObject, FontObject, ContentObject, ContentStream, Trailer, Offset;
    TrailerReferences(Total(pages), Offset(pages, Total(pages) + 1));
    if id == 1 {
      CatalogReferences();
    } else if id == 2 {
      PageTreeReferences(|pages|);
    } else if id < Font(pages) {
      PageReferences(Font(pages), FirstContent(pages) + (id - FirstPage()));
    } else {
      FontReferences();
    }
  }

  /** Every object but the catalog is the target of one. */
  lemma EveryObjectIsReferenced(pages: seq<Page>, n: nat)
    requires pages != [] && 2 <= n <= Total(pages)
    ensures exists id :: 1 <= id < FirstContent(pages) && n in Targets(pages, id)
  {
    if n == 2 {
      assert n in Targets(pages, 1);
    } else if n < Font(pages) {
      assert Targets(pages, 2)[n - FirstPage()] == n;
    } else if n == Font(pages) {
      assert Targets(pages, FirstPage())[1] == n;
    } else {
      assert Targets(pages, FirstPage() + (n - FirstContent(pages)))[2] == n;
    }
  }

  // ---------------------------------------------------------------- the counts the file declares

  /** The number behind the first occurrence of a name. */
  function NumberBehind(s: string, name: string): Option<nat>
    decreases |s|
  {
    if StartsWith(s, name) then Some(NatOf(LeadingDigits(s[|name|..])))
    else if s == [] then None
    else NumberBehind(s[1..], name)
  }

  /** No name in the text begins with this letter. */
  predicate NamesNot(plain: string, letter: char)
  {
    forall i :: 0 <= i < |plain| && plain[i] == '/' ==> i + 1 < |plain| && plain[i + 1] != letter
  }

  lemma {:induction false} SkipNames(plain: string, rest: string, name: string)
    requires |name| >= 2 && name[0] == '/' && NamesNot(plain, name[1])
    ensures NumberBehind(plain + rest, name) == NumberBehind(rest, name)
  {
    if plain == [] {
      assert plain + rest == rest;
    } else {
      var s := plain + rest;
      assert s[1..] == plain[1..] + rest;
      NotHere(s, name);
      SkipNames(plain[1..], rest, name);
    }
  }

  lemma NotHere(s: string, name: string)
    requires |name| >= 2 && s != [] && (s[0] == name[0] ==> |s| > 1 && s[1] != name[1])
    ensures !StartsWith(s, name)
  {
  }

  lemma NumberFound(name: string, n: nat, rest: string)
    requires rest == [] || !IsDigit(rest[0])
    ensures NumberBehind(name + (Dec(n) + rest), name) == Some(n)
  {
    DecParses(n);
    LeadingDigitsThen(Dec(n), rest);
    hide Dec, NatOf, LeadingDigits;
    var s := name + (Dec(n) + rest);
    assert s[..|name|] == name && s[|name|..] == Dec(n) + rest;
  }

  lemma {:induction false} RefsNameNothing(refs: seq<string>)
    requires forall r :: r in refs ==> '/' !in r
    ensures '/' !in Join(refs, " ")
  {
    if |refs| > 1 {
      forall r | r in refs[1..] ensures r in refs {
      }
      RefsNameNothing(refs[1..]);
      assert refs[0] in refs && '/' !in " " + Join(refs[1..], " ");
    } else if |refs| == 1 {
      assert refs[0] in refs;
    }
  }

  lemma KidNamesNothing(count: nat, i: nat)
    requires i < count
    ensures '/' !in PageRefs(count)[i]
  {
    RefNamesNothing(FirstPage() + i);
    hide Ref;
    assert PageRefs(count)[i] == Ref(FirstPage() + i);
  }

  lemma RefNamesNothing(n: nat)
    ensures '/' !in Ref(n)
  {
    hide Dec;
    assert '/' !in Dec(n) && '/' !in " 0 R";
  }

  lemma KidsNameNothing(count: nat)
    ensures NamesNot(Join(PageRefs(count), " "), 'C')
  {
    var refs := PageRefs(count);
    forall i: nat | i < |refs| ensures '/' !in refs[i] {
      KidNamesNothing(count, i);
    }
    hide Join, PageRefs;
    RefsNameNothing(refs);
  }

  /**
    The counts in the file are right: the page tree counts its pages, and trailer and cross-reference table count the
    objects and the free entry.
  */
  lemma CountsAreDeclared(pages: seq<Page>)
    ensures NumberBehind(Body(pages, 2), "/Count ") == Some(|pages|)
    ensures NumberBehind(Trailer(Total(pages), Offset(pages, Total(pages) + 1)), "/Size ") == Some(Total(pages) + 1)
    ensures XrefHeader(Total(pages))[..7] == "xref\n0 "
    ensures NatOf(LeadingDigits(XrefHeader(Total(pages))[7..])) == Total(pages) + 1
  {
    hide *;
    BodyCases(pages);
    TreeCounts(|pages|);
    TrailerCounts(Total(pages), Offset(pages, Total(pages) + 1));
    TableCounts(Total(pages));
  }

  lemma TreeCounts(count: nat)
    ensures NumberBehind(PageTree(count), "/Count ") == Some(count)
  {
    hide NumberBehind, Dec, PageRefs, Join, NamesNot;
    var kids, count1 := Join(PageRefs(count), " "), "/Count " + (Dec(count) + " >>");
    KidsNameNothing(count);
    TreeNames();
    assert "] /Count " == "] " + "/Count ";
    assert PageTree(count) == "<< /Type /Pages /Kids [" + (kids + ("] " + count1));
    SkipNames("<< /Type /Pages /Kids [", kids + ("] " + count1), "/Count ");
    SkipNames(kids, "] " + count1, "/Count ");
    SkipNames("] ", count1, "/Count ");
    NumberFound("/Count ", count, " >>");
  }

  lemma TreeNames()
    ensures NamesNot("<< /Type /Pages /Kids [", 'C') && NamesNot("] ", 'C')
  {
  }

  lemma TrailerCounts(total: nat, xref: nat)
    ensures NumberBehind(Trailer(total, xref), "/Size ") == Some(total + 1)
  {
    hide NumberBehind, Dec, Ref;
    var rest := " /Root " + (Ref(1) + (" >>\nstartxref\n" + (Dec(xref) + "\n%%EOF")));
    assert "trailer\n" + "<< /Size " == "trailer\n<< " + "/Size ";
    assert Trailer(total, xref) == "trailer\n<< " + ("/Size " + (Dec(total + 1) + rest));
    SkipNames("trailer\n<< ", "/Size " + (Dec(total + 1) + rest), "/Size ");
    NumberFound("/Size ", total + 1, rest);
  }

  lemma TableCounts(total: nat)
    ensures XrefHeader(total)[..7] == "xref\n0 " && NatOf(LeadingDigits(XrefHeader(total)[7..])) == total + 1
  {
    DecParses(total + 1);
    var rest := "\n" + "0000000000 65535 f \n";
    LeadingDigitsThen(Dec(total + 1), rest);
    hide Dec, NatOf, LeadingDigits;
    assert XrefHeader(total) == "xref\n0 " + (Dec(total + 1) + rest);
  }
}
