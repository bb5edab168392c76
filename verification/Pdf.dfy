/** The PDF writer's serializer (internal/report/pdf.go, pdfDoc.serialize).
    A char stands for one byte; a page is the bytes of its content stream. */
module Pdf {
  import opened Chars
  import opened Decimal
  import opened Text

  const HEADER := "%PDF-1.4\n%\U{FF}\U{FF}\U{FF}\U{FF}\n"
  const CATALOG := "<< /Type /Catalog /Pages 2 0 R >>"
  const FONT := "<< /Type /Font /Subtype /Type1 /BaseFont /Helvetica /Encoding /WinAnsiEncoding >>"
  const BOLD_FONT := "<< /Type /Font /Subtype /Type1 /BaseFont /Helvetica-Bold /Encoding /WinAnsiEncoding >>"
  const PAGE_DICT :=
    "<< /Type /Page /Parent 2 0 R /MediaBox [0 0 612.00 792.00]"
      + " /Resources << /Font << /F1 3 0 R /F2 4 0 R >> >> /Contents "

  // ---------- what is written ----------

  function Ref(id: nat): string { Nat(id) + " 0 R" }

  // References to the page objects of n pages, joined by blanks.
  function Kids(n: nat): string {
    if n == 0 then "" else if n == 1 then Ref(5) else Kids(n - 1) + " " + Ref(5 + 2 * (n - 1))
  }

  function PageTree(n: nat): string { "<< /Type /Pages /Count " + Nat(n) + " /Kids [" + Kids(n) + "] >>" }

  function PageBody(contents: nat): string { PAGE_DICT + Ref(contents) + " >>" }

  function StreamBody(stream: string): string {
    "<< /Length " + Nat(|stream|) + " >>\nstream\n" + stream + "\nendstream"
  }

  function PageBodies(pages: seq<string>): (r: seq<string>)
    ensures |r| == 2 * |pages|
  {
    if pages == [] then [] else
      PageBodies(pages[..|pages| - 1]) + [PageBody(4 + 2 * |pages|), StreamBody(pages[|pages| - 1])]
  }

  function Bodies(pages: seq<string>): (r: seq<string>)
    ensures |r| == 4 + 2 * |pages|
  {
    [CATALOG, PageTree(|pages|), FONT, BOLD_FONT] + PageBodies(pages)
  }

  function Object(id: nat, body: string): string { Nat(id) + " 0 obj\n" + body + "\nendobj\n" }

  // The file up to the cross-reference table, objects numbered from 1.
  function Laid(bodies: seq<string>): string {
    if bodies == [] then HEADER else Laid(bodies[..|bodies| - 1]) + Object(|bodies|, bodies[|bodies| - 1])
  }

  function Offsets(bodies: seq<string>): (r: seq<nat>)
    ensures |r| == |bodies|
  {
    if bodies == [] then [] else
      var front := bodies[..|bodies| - 1];
      Offsets(front) + [|Laid(front)|]
  }

  function Entry(offset: nat): string { Padded(offset, 10) + " 00000 n \n" }

  function Entries(offsets: seq<nat>): string {
    if offsets == [] then "" else Entries(offsets[..|offsets| - 1]) + Entry(offsets[|offsets| - 1])
  }

  const FREE_ENTRY := "0000000000 65535 f \n"

  const XREF := "xref\n0 "
  const TRAILER := "trailer\n<< /Size "
  const ROOT := " /Root "
  const ROOT_END := " >>\n"
  const STARTXREF := "startxref\n"
  const EOF := "\n%%EOF\n"

  function Table(offsets: seq<nat>): string {
    XREF + Nat(|offsets| + 1) + "\n" + FREE_ENTRY + Entries(offsets)
  }

  function Trailer(size: nat, xref: nat): string {
    TRAILER + Nat(size) + ROOT + Ref(1) + ROOT_END + STARTXREF + Nat(xref) + EOF
  }

  function Document(pages: seq<string>): string {
    var bodies := Bodies(pages);
    Laid(bodies) + Table(Offsets(bodies)) + Trailer(|bodies| + 1, |Laid(bodies)|)
  }

  // ---------- the writer ----------

  // What the loop over the pages appends, one trailing blank included.
  function KidsBuilt(n: nat): string { if n == 0 then "" else KidsBuilt(n - 1) + Ref(5 + 2 * (n - 1)) + " " }

  lemma RefEnds(id: nat)
    ensures Ref(id) != "" && IsDigit(Ref(id)[0]) && Ref(id)[|Ref(id)| - 1] == 'R'
  {
    assert Ref(id)[0] == Nat(id)[0] && Nat(id)[0] in Nat(id);
  }

  lemma {:induction false} KidsJoined(n: nat)
    requires n > 0
    ensures KidsBuilt(n) == Kids(n) + " "
    ensures Kids(n) != "" && IsDigit(Kids(n)[0]) && Kids(n)[|Kids(n)| - 1] == 'R'
  {
    hide Ref, Nat;
    RefEnds(5 + 2 * (n - 1));
    if n == 1 {
      assert KidsBuilt(0) == "";
      assert KidsBuilt(1) == KidsBuilt(0) + Ref(5) + " ";
    } else {
      KidsJoined(n - 1);
    }
  }

  lemma KidsTrimmed(n: nat)
    ensures TrimSpace(KidsBuilt(n)) == Kids(n)
  {
    if n > 0 {
      KidsJoined(n);
      hide Kids, KidsBuilt;
      NoSpaceAtEnds(Kids(n));
    }
  }

  /** The closures addObj and addStream over the buffer and the offsets. */
  class Emitter {
    var out: string
    var offsets: seq<nat>
    ghost var bodies: seq<string>

    ghost predicate Valid()
      reads this
    {
      out == Laid(bodies) && offsets == Offsets(bodies)
    }

    constructor ()
      ensures Valid() && bodies == []
    {
      out, offsets, bodies := HEADER, [], [];
    }

    method AddObj(body: string)
      requires Valid()
      modifies this
      ensures Valid() && bodies == old(bodies) + [body]
    {
      offsets := offsets + [|out|];
      out := out + (Nat(|offsets|) + " 0 obj\n" + body + "\nendobj\n");
      bodies := bodies + [body];
      assert bodies[..|bodies| - 1] == old(bodies);
    }

    method AddStream(stream: string)
      requires Valid()
      modifies this
      ensures Valid() && bodies == old(bodies) + [StreamBody(stream)]
    {
      offsets := offsets + [|out|];
      var head := Nat(|offsets|) + " 0 obj\n<< /Length " + Nat(|stream|) + " >>\nstream\n";
      out := out + head;
      out := out + stream;
      out := out + "\nendstream\nendobj\n";
      StreamObject(old(out), |offsets|, stream);
      bodies := bodies + [StreamBody(stream)];
      assert bodies[..|bodies| - 1] == old(bodies);
    }
  }

  lemma StreamObject(out: string, id: nat, stream: string)
    ensures out + (Nat(id) + " 0 obj\n<< /Length " + Nat(|stream|) + " >>\nstream\n") + stream + "\nendstream\nendobj\n"
            == out + Object(id, StreamBody(stream))
  {
    var a, b, c, d, e := " 0 obj\n", "<< /Length ", "\nendstream", "\nendobj\n", " >>\nstream\n";
    assert " 0 obj\n<< /Length " == a + b;
    assert "\nendstream\nendobj\n" == c + d;
    Reassociated(out, Nat(id), a, b, Nat(|stream|), e, stream, c, d);
  }

  lemma Reassociated(
    out: string, id: string, a: string, b: string, len: string, e: string, stream: string, c: string, d: string)
    ensures out + (id + (a + b) + len + e) + stream + (c + d) == out + (id + a + (b + len + e + stream + c) + d)
  {
  }

  method KidList(n: nat) returns (kids: string)
    ensures kids == KidsBuilt(n)
  {
    kids := "";
    for i := 0 to n
      invariant kids == KidsBuilt(i)
    {
      kids := kids + Ref(5 + 2 * i) + " ";
    }
  }

  method EmitPages(w: Emitter, pages: seq<string>)
    requires w.Valid()
    modifies w
    ensures w.Valid() && w.bodies == old(w.bodies) + PageBodies(pages)
  {
    hide Laid, Offsets, PageBody, StreamBody;
    for i := 0 to |pages|
      invariant w.Valid() && w.bodies == old(w.bodies) + PageBodies(pages[..i])
    {
      var contentID := 5 + 2 * i + 1;
      assert pages[..i + 1][..i] == pages[..i];
      w.AddObj(PageBody(contentID));
      w.AddStream(pages[i]);
    }
    assert pages[..|pages|] == pages;
  }

  method CrossReference(offsets: seq<nat>) returns (out: string)
    ensures out == Table(offsets)
  {
    hide Entry;
    var head := XREF + Nat(|offsets| + 1) + "\n" + FREE_ENTRY;
    out := head;
    for k := 0 to |offsets|
      invariant out == head + Entries(offsets[..k])
    {
      assert offsets[..k + 1][..k] == offsets[..k];
      out := out + Entry(offsets[k]);
    }
    assert offsets[..|offsets|] == offsets;
  }

  method Serialize(pages: seq<string>) returns (out: string)
    ensures out == Document(pages)
  {
    hide Laid, Offsets, PageBodies, Table, Trailer, Kids, KidsBuilt, TrimSpace;
    var w := new Emitter();
    w.AddObj(CATALOG);
    var kids := KidList(|pages|);
    KidsTrimmed(|pages|);
    w.AddObj("<< /Type /Pages /Count " + Nat(|pages|) + " /Kids [" + TrimSpace(kids) + "] >>");
    w.AddObj(FONT);
    w.AddObj(BOLD_FONT);
    assert w.bodies == [CATALOG, PageTree(|pages|), FONT, BOLD_FONT];
    EmitPages(w, pages);
    assert w.bodies == Bodies(pages);
    var table := CrossReference(w.offsets);
    out := w.out + table + Trailer(|w.offsets| + 1, |w.out|);
  }
}
