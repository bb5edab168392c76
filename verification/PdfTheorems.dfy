/** The cross-reference table is right and the file reads back. */
module PdfTheorems {
  import opened Chars
  import opened Decimal
  import opened Options
  import opened Pdf
  import opened PdfReader

  // ---------- text at a position ----------

  lemma AtParts(s: string, i: nat, t: string, u: string)
    requires At(s, i, t + u)
    ensures At(s, i, t) && At(s, i + |t|, u)
  {
    var w := s[i..i + |t + u|];
    assert w[..|t|] == t && w[|t|..] == u;
  }

  // A number followed by something that is not a digit reads back.
  lemma NatReads(s: string, i: nat, n: nat, after: string)
    requires At(s, i, Nat(n)) && At(s, i + |Nat(n)|, after) && after != "" && !IsDigit(after[0])
    ensures NatAt(s, i) == Some((n, i + |Nat(n)|))
  {
    var e := i + |Nat(n)|;
    assert s[i..e] == Nat(n);
    assert s[e..e + |after|][0] == s[e];
    RunEndsAt(s, i, e);
    ValueOfNat(n);
  }

  lemma {:induction false} RunEndsAt(s: string, i: nat, e: nat)
    requires i <= e < |s| && (forall c | c in s[i..e] :: IsDigit(c)) && !IsDigit(s[e])
    ensures RunEnd(s, i) == e
    decreases e - i
  {
    if i < e {
      assert s[i] == s[i..e][0] && s[i..e][1..] == s[i + 1..e];
      assert s[i] in s[i..e];
      forall c | c in s[i + 1..e] ensures IsDigit(c) { assert c in s[i..e]; }
      RunEndsAt(s, i + 1, e);
    }
  }

  lemma {:induction false} RunStartsAt(s: string, b: nat, e: nat)
    requires 0 < b <= e <= |s| && (forall c | c in s[b..e] :: IsDigit(c)) && !IsDigit(s[b - 1])
    ensures RunStart(s, e) == b
    decreases e - b
  {
    if b < e {
      assert s[e - 1] == s[b..e][e - 1 - b] && s[b..e][..e - 1 - b] == s[b..e - 1];
      assert s[e - 1] in s[b..e];
      forall c | c in s[b..e - 1] ensures IsDigit(c) { assert c in s[b..e]; }
      RunStartsAt(s, b, e - 1);
    }
  }

  lemma RefReads(s: string, i: nat, id: nat)
    requires At(s, i, Ref(id))
    ensures RefAt(s, i) == Some((id, i + |Ref(id)|))
  {
    AtParts(s, i, Nat(id), " 0 R");
    NatReads(s, i, id, " 0 R");
  }

  // ---------- the table points at the objects ----------

  // Entry k of the offsets is where "k 0 obj" and the rest of object k stand.
  lemma {:induction false} OffsetsPointAtObjects(bodies: seq<string>, k: nat)
    requires k < |bodies|
    ensures Offsets(bodies)[k] <= |Laid(bodies)|
    ensures At(Laid(bodies), Offsets(bodies)[k], Object(k + 1, bodies[k]))
  {
    hide Object;
    var front, last := bodies[..|bodies| - 1], bodies[|bodies| - 1];
    if k == |bodies| - 1 {
      assert Laid(front) + Object(|bodies|, last) + "" == Laid(bodies);
    } else {
      OffsetsPointAtObjects(front, k);
    }
  }

  lemma {:induction false} OffsetsAscend(bodies: seq<string>, j: nat, k: nat)
    requires j < k < |bodies|
    ensures Offsets(bodies)[j] + |Object(j + 1, bodies[j])| <= Offsets(bodies)[k]
  {
    hide Object;
    var front := bodies[..|bodies| - 1];
    if k == |bodies| - 1 {
      OffsetsPointAtObjects(front, j);
      assert front[j] == bodies[j];
    } else {
      OffsetsAscend(front, j, k);
    }
  }

  lemma OffsetsBounded(bodies: seq<string>, k: nat)
    requires k < |bodies|
    ensures Offsets(bodies)[k] < |Laid(bodies)|
  {
    OffsetsPointAtObjects(bodies, k);
  }

  // Entries are 20 bytes exactly as long as offsets have ten digits.
  lemma EntryWidth(offset: nat)
    ensures |Entry(offset)| == 20 <==> offset < Pow10(10)
  {
    if offset < Pow10(10) { PaddedRoundTrip(offset, 10); } else { NatOverflows(offset, 10); }
  }

  lemma {:induction false} NatOverflows(n: nat, w: nat)
    requires w >= 1 && n >= Pow10(w)
    ensures |Nat(n)| > w
  {
    assert Pow10(w) == 10 * Pow10(w - 1);
    assert n / 10 >= Pow10(w - 1);
    if w > 1 { NatOverflows(n / 10, w - 1); }
  }

  lemma {:induction false} EntriesAt(offsets: seq<nat>, k: nat)
    requires k < |offsets| && forall j | 0 <= j < |offsets| :: offsets[j] < Pow10(10)
    ensures |Entries(offsets)| == 20 * |offsets|
    ensures At(Entries(offsets), 20 * k, Entry(offsets[k]))
  {
    hide Entry, Pow10;
    var front, last := offsets[..|offsets| - 1], offsets[|offsets| - 1];
    EntryWidth(last);
    if front == [] {
      assert Entries(front) == "";
      assert Entries(offsets) == Entry(last);
    } else if k == |offsets| - 1 {
      EntriesAt(front, 0);
      assert Entries(front) + Entry(last) + "" == Entries(offsets);
    } else {
      EntriesAt(front, k);
    }
  }

  // ---------- reading the document ----------

  // doc is the document of pages, small enough for ten-digit offsets.
  ghost predicate Written(doc: string, pages: seq<string>) {
    doc == Document(pages) && |doc| < Pow10(10)
  }

  function TableStart(pages: seq<string>): nat { |Laid(Bodies(pages))| }

  function TableText(pages: seq<string>): string { Table(Offsets(Bodies(pages))) }

  function TrailerText(pages: seq<string>): string { Trailer(|Bodies(pages)| + 1, TableStart(pages)) }

  lemma DocumentParts(doc: string, pages: seq<string>)
    requires Written(doc, pages)
    ensures At(doc, 0, Laid(Bodies(pages)))
    ensures At(doc, TableStart(pages), TableText(pages))
    ensures At(doc, TableStart(pages) + |TableText(pages)|, TrailerText(pages))
    ensures |doc| == TableStart(pages) + |TableText(pages)| + |TrailerText(pages)|
  {
    hide Laid, Bodies, Table, Trailer, Pow10;
    var a, b, c := Laid(Bodies(pages)), TableText(pages), TrailerText(pages);
    assert doc == a + b + c;
    assert a + b + c + "" == doc;
    assert "" + a + (b + c) == doc;
  }

  lemma OffsetsSmall(doc: string, pages: seq<string>)
    requires Written(doc, pages)
    ensures forall k | 0 <= k < |Bodies(pages)| :: Offsets(Bodies(pages))[k] < Pow10(10)
  {
    hide Laid, Bodies, Table, Trailer, Pow10, Offsets;
    forall k | 0 <= k < |Bodies(pages)| ensures Offsets(Bodies(pages))[k] < Pow10(10) {
      OffsetsBounded(Bodies(pages), k);
      DocumentParts(doc, pages);
    }
  }

  // The trailer, piece by piece.
  lemma TrailerPieces(s: string, i: nat, size: nat, xref: nat)
    requires At(s, i, Trailer(size, xref))
    ensures var n := i + |TRAILER|; var r := n + |Nat(size)|; var x := r + |ROOT| + |Ref(1)| + |ROOT_END|;
            && At(s, i, TRAILER) && At(s, n, Nat(size)) && At(s, r, ROOT) && At(s, r + |ROOT|, Ref(1))
            && At(s, x, STARTXREF) && At(s, x + |STARTXREF|, Nat(xref))
            && At(s, x + |STARTXREF| + |Nat(xref)|, EOF)
            && i + |Trailer(size, xref)| == x + |STARTXREF| + |Nat(xref)| + |EOF|
  {
    hide At;
    EightParts(s, i, TRAILER, Nat(size), ROOT, Ref(1), ROOT_END, STARTXREF, Nat(xref), EOF);
  }

  lemma EightParts(
    s: string, i: nat, a: string, b: string, c: string, d: string, e: string, f: string, g: string, h: string)
    requires At(s, i, a + b + c + d + e + f + g + h)
    ensures var r := i + |a| + |b|; var x := r + |c| + |d| + |e|;
            && At(s, i, a) && At(s, i + |a|, b) && At(s, r, c) && At(s, r + |c|, d)
            && At(s, x, f) && At(s, x + |f|, g) && At(s, x + |f| + |g|, h)
  {
    hide At;
    AtParts(s, i, a + b + c + d + e + f + g, h);
    AtParts(s, i, a + b + c + d + e + f, g);
    AtParts(s, i, a + b + c + d + e, f);
    AtParts(s, i, a + b + c + d, e);
    AtParts(s, i, a + b + c, d);
    AtParts(s, i, a + b, c);
    AtParts(s, i, a, b);
  }

  lemma StartXrefFound(s: string, b: nat, x: nat)
    requires |STARTXREF| <= b && At(s, b - |STARTXREF|, STARTXREF) && At(s, b, Nat(x))
    requires At(s, b + |Nat(x)|, EOF) && |s| == b + |Nat(x)| + |EOF|
    ensures StartXref(s) == Some(x)
  {
    hide Value, RunStart;
    var w := s[b - |STARTXREF|..b];
    assert w[|w| - 1] == s[b - 1] && STARTXREF[|STARTXREF| - 1] == '\n';
    assert s[b..b + |Nat(x)|] == Nat(x);
    RunStartsAt(s, b, b + |Nat(x)|);
    ValueOfNat(x);
  }

  lemma StartXrefReads(doc: string, pages: seq<string>)
    requires Written(doc, pages)
    ensures StartXref(doc) == Some(TableStart(pages))
  {
    hide Laid, Bodies, Table, Trailer, Pow10, Offsets, At, Document, StartXref;
    DocumentParts(doc, pages);
    var x := TableStart(pages);
    var size := |Bodies(pages)| + 1;
    var t := x + |TableText(pages)|;
    TrailerPieces(doc, t, size, x);
    StartXrefFound(doc, t + |TRAILER| + |Nat(size)| + |ROOT| + |Ref(1)| + |ROOT_END| + |STARTXREF|, x);
  }

  lemma FourParts(s: string, i: nat, a: string, b: string, c: string, d: string)
    requires At(s, i, a + b + c + d)
    ensures At(s, i, a) && At(s, i + |a|, b) && At(s, i + |a| + |b|, c) && At(s, i + |a| + |b| + |c|, d)
  {
    hide At;
    AtParts(s, i, a + b + c, d);
    AtParts(s, i, a + b, c);
    AtParts(s, i, a, b);
  }

  lemma TablePieces(s: string, i: nat, offsets: seq<nat>)
    requires At(s, i, Table(offsets))
    ensures var n := i + |XREF|; var e := n + |Nat(|offsets| + 1)|;
            && At(s, i, XREF) && At(s, n, Nat(|offsets| + 1)) && At(s, e, "\n")
            && At(s, e + 1 + 20, Entries(offsets)) && i + |Table(offsets)| == e + 1 + 20 + |Entries(offsets)|
  {
    hide At, Entries, Nat;
    assert |FREE_ENTRY| == 20;
    AtParts(s, i, XREF + Nat(|offsets| + 1) + "\n" + FREE_ENTRY, Entries(offsets));
    FourParts(s, i, XREF, Nat(|offsets| + 1), "\n", FREE_ENTRY);
  }

  // Where entry 0 of the table is.
  function FirstEntry(pages: seq<string>): nat {
    TableStart(pages) + |XREF| + |Nat(|Bodies(pages)| + 1)| + 1
  }

  lemma TableReads(doc: string, pages: seq<string>)
    requires Written(doc, pages)
    ensures TableAt(doc) == Some((|Bodies(pages)| + 1, FirstEntry(pages)))
  {
    hide Laid, Bodies, Table, Trailer, Pow10, Offsets, At, Document, StartXref, NatAt, Nat;
    DocumentParts(doc, pages);
    StartXrefReads(doc, pages);
    TablePieces(doc, TableStart(pages), Offsets(Bodies(pages)));
    NatReads(doc, TableStart(pages) + |XREF|, |Bodies(pages)| + 1, "\n");
  }

  lemma RowReads(s: string, p: nat, offset: nat)
    requires At(s, p, Entry(offset)) && offset < Pow10(10)
    ensures p + 20 <= |s| && At(s, p + 10, " 00000 n \n") && RunEnd(s, p) == p + 10 && Value(s[p..p + 10]) == offset
  {
    hide Pow10, Value, RunEnd, Padded;
    PaddedRoundTrip(offset, 10);
    var tail := " 00000 n \n";
    AtParts(s, p, Padded(offset, 10), tail);
    assert s[p..p + 10] == Padded(offset, 10);
    assert s[p + 10] == s[p + 10..p + 20][0] == tail[0];
    RunEndsAt(s, p, p + 10);
  }

  // The table's entry for an object is the position the object was written at.
  lemma OffsetReads(doc: string, pages: seq<string>, id: nat)
    requires Written(doc, pages) && 1 <= id <= |Bodies(pages)|
    ensures OffsetOf(doc, id) == Some(Offsets(Bodies(pages))[id - 1])
  {
    hide Laid, Bodies, Table, Trailer, Pow10, Offsets, At, Document, TableAt, Entry, Entries, RunEnd, Value, Nat;
    var offsets := Offsets(Bodies(pages));
    DocumentParts(doc, pages);
    TableReads(doc, pages);
    OffsetsSmall(doc, pages);
    TablePieces(doc, TableStart(pages), offsets);
    EntriesAt(offsets, id - 1);
    AtInside(doc, FirstEntry(pages) + 20, Entries(offsets), 20 * (id - 1), Entry(offsets[id - 1]));
    RowReads(doc, FirstEntry(pages) + 20 * id, offsets[id - 1]);
  }

  lemma AtInside(s: string, i: nat, t: string, j: nat, u: string)
    requires At(s, i, t) && At(t, j, u)
    ensures At(s, i + j, u)
  {
    var w := s[i..i + |t|];
    forall k | 0 <= k < |u| ensures s[i + j + k] == u[k] {
      assert u[k] == t[j..j + |u|][k] == w[j + k];
    }
  }

  // Following the table from an object number leads to that object's text.
  lemma ObjectReads(doc: string, pages: seq<string>, id: nat)
    requires Written(doc, pages) && 1 <= id <= |Bodies(pages)|
    ensures ObjectAt(doc, id).Some? && At(doc, ObjectAt(doc, id).value, Bodies(pages)[id - 1])
    ensures At(doc, Offsets(Bodies(pages))[id - 1], Object(id, Bodies(pages)[id - 1]))
  {
    hide Laid, Bodies, Table, Trailer, Pow10, Offsets, At, Document, OffsetOf, NatAt, Nat;
    var bodies := Bodies(pages);
    var off := Offsets(bodies)[id - 1];
    DocumentParts(doc, pages);
    OffsetReads(doc, pages, id);
    OffsetsPointAtObjects(bodies, id - 1);
    AtInside(doc, 0, Laid(bodies), off, Object(id, bodies[id - 1]));
    FourParts(doc, off, Nat(id), " 0 obj\n", bodies[id - 1], "\nendobj\n");
    NatReads(doc, off, id, " 0 obj\n");
  }

  // ---------- the objects read back ----------

  lemma {:induction false} PageBodiesAt(pages: seq<string>, i: nat)
    requires i < |pages|
    ensures PageBodies(pages)[2 * i] == PageBody(6 + 2 * i) && PageBodies(pages)[2 * i + 1] == StreamBody(pages[i])
  {
    hide PageBody, StreamBody;
    if i < |pages| - 1 { PageBodiesAt(pages[..|pages| - 1], i); }
  }

  // Page i is object 5+2i and refers to object 6+2i, its content stream.
  lemma BodiesAt(pages: seq<string>, i: nat)
    requires i < |pages|
    ensures Bodies(pages)[4 + 2 * i] == PageBody(6 + 2 * i) && Bodies(pages)[5 + 2 * i] == StreamBody(pages[i])
  {
    hide PageBody, StreamBody, PageBodies, PageTree;
    PageBodiesAt(pages, i);
  }

  const LENGTH := "<< /Length "
  const STREAM := " >>\nstream\n"
  const ENDSTREAM := "\nendstream"

  lemma StreamFound(s: string, i: nat, stream: string)
    requires At(s, i, StreamBody(stream))
    ensures At(s, i, LENGTH) && NatAt(s, i + |LENGTH|) == Some((|stream|, i + |LENGTH| + |Nat(|stream|)|))
    ensures var j := i + |LENGTH| + |Nat(|stream|)|;
            && At(s, j, STREAM) && At(s, j + |STREAM|, stream) && At(s, j + |STREAM| + |stream|, ENDSTREAM)
  {
    hide At, NatAt, Nat;
    AtParts(s, i, LENGTH + Nat(|stream|) + STREAM + stream, ENDSTREAM);
    FourParts(s, i, LENGTH, Nat(|stream|), STREAM, stream);
    NatReads(s, i + |LENGTH|, |stream|, STREAM);
  }

  lemma StreamReads(doc: string, pages: seq<string>, i: nat)
    requires Written(doc, pages) && i < |pages|
    ensures StreamAt(doc, 6 + 2 * i) == Some(pages[i])
  {
    hide Bodies, Pow10, Offsets, At, Document, ObjectAt, NatAt, Nat, StreamBody, Object;
    ObjectReads(doc, pages, 6 + 2 * i);
    BodiesAt(pages, i);
    var at := ObjectAt(doc, 6 + 2 * i).value;
    StreamFound(doc, at, pages[i]);
    var k := at + |LENGTH| + |Nat(|pages[i]|)| + |STREAM|;
    assert doc[k..k + |pages[i]|] == pages[i] by { AtMeans(doc, k, pages[i]); }
    AtMeans(doc, k + |pages[i]|, ENDSTREAM);
  }

  lemma AtMeans(s: string, i: nat, t: string)
    requires At(s, i, t)
    ensures i + |t| <= |s| && s[i..i + |t|] == t
  {
  }

  lemma PageReads(doc: string, pages: seq<string>, i: nat)
    requires Written(doc, pages) && i < |pages|
    ensures PageAt(doc, 5 + 2 * i) == Some(pages[i])
  {
    hide Bodies, Pow10, Offsets, At, Document, ObjectAt, NatAt, Nat, StreamBody, Object, RefAt, Ref, StreamAt;
    StreamReads(doc, pages, i);
    ObjectReads(doc, pages, 5 + 2 * i);
    BodiesAt(pages, i);
    var at := ObjectAt(doc, 5 + 2 * i).value;
    AtParts(doc, at, PAGE_DICT + Ref(6 + 2 * i), " >>");
    AtParts(doc, at, PAGE_DICT, Ref(6 + 2 * i));
    RefReads(doc, at + |PAGE_DICT|, 6 + 2 * i);
  }

  // The page object numbers from the first-th page on.
  function KidIds(first: nat, n: nat): seq<nat>
    decreases n
  {
    if n == 0 then [] else [5 + 2 * first] + KidIds(first + 1, n - 1)
  }

  // The references from the first-th page on.
  function KidsFrom(first: nat, n: nat): string
    decreases n
  {
    if n == 0 then "" else if n == 1 then Ref(5 + 2 * first) else Ref(5 + 2 * first) + " " + KidsFrom(first + 1, n - 1)
  }

  lemma {:induction false} KidsFromSnoc(first: nat, n: nat)
    requires n > 0
    ensures KidsFrom(first, n + 1) == KidsFrom(first, n) + " " + Ref(5 + 2 * (first + n))
    decreases n
  {
    hide Ref;
    if n == 1 {
      assert KidsFrom(first + 1, 1) == Ref(5 + 2 * (first + 1));
    } else {
      KidsFromSnoc(first + 1, n - 1);
      var a, b, c := Ref(5 + 2 * first), KidsFrom(first + 1, n - 1), Ref(5 + 2 * (first + n));
      assert a + " " + (b + " " + c) == a + " " + b + " " + c;
    }
  }

  lemma {:induction false} KidsAreFrom(n: nat)
    ensures Kids(n) == KidsFrom(0, n)
  {
    hide Ref;
    if n > 1 {
      KidsAreFrom(n - 1);
      KidsFromSnoc(0, n - 1);
    }
  }

  lemma {:induction false} RefsRead(s: string, i: nat, first: nat, n: nat)
    requires At(s, i, KidsFrom(first, n))
    ensures RefsAt(s, i, n) == Some((KidIds(first, n), i + |KidsFrom(first, n)|))
    decreases n
  {
    hide At, RefAt, Ref;
    if n == 1 {
      RefReads(s, i, 5 + 2 * first);
      assert KidIds(first, 1) == [5 + 2 * first];
    } else if n > 1 {
      var ref := Ref(5 + 2 * first);
      AtParts(s, i, ref + " ", KidsFrom(first + 1, n - 1));
      AtParts(s, i, ref, " ");
      RefReads(s, i, 5 + 2 * first);
      RefsRead(s, i + |ref| + 1, first + 1, n - 1);
    }
  }

  lemma RootReads(doc: string, pages: seq<string>)
    requires Written(doc, pages)
    ensures RootOf(doc) == Some(1)
  {
    hide Laid, Bodies, Table, Trailer, Pow10, Offsets, At, Document, TableAt, NatAt, Nat, Ref, RefAt, Entries;
    var offsets, size := Offsets(Bodies(pages)), |Bodies(pages)| + 1;
    DocumentParts(doc, pages);
    TableReads(doc, pages);
    TablePieces(doc, TableStart(pages), offsets);
    OffsetsSmall(doc, pages);
    EntriesAt(offsets, 0);
    var t := FirstEntry(pages) + 20 * size;
    TrailerPieces(doc, t, size, TableStart(pages));
    NatReads(doc, t + |TRAILER|, size, ROOT);
    RefReads(doc, t + |TRAILER| + |Nat(size)| + |ROOT|, 1);
  }

  lemma TreeReads(doc: string, pages: seq<string>)
    requires Written(doc, pages)
    ensures TreeOf(doc) == Some(2)
  {
    hide Laid, Table, Trailer, Pow10, Offsets, At, Document, RootOf, ObjectAt, RefAt, Object, PageTree, PageBodies;
    RootReads(doc, pages);
    ObjectReads(doc, pages, 1);
    var head := "<< /Type /Catalog /Pages ";
    var at := ObjectAt(doc, 1).value;
    assert CATALOG == head + Ref(2) + " >>" by { assert Nat(2) == "2"; }
    hide Ref;
    AtParts(doc, at, head + Ref(2), " >>");
    AtParts(doc, at, head, Ref(2));
    RefReads(doc, at + |head|, 2);
  }

  const COUNT := "<< /Type /Pages /Count "
  const KIDS := " /Kids ["
  const KIDS_END := "] >>"

  lemma TreeFound(s: string, i: nat, n: nat)
    requires At(s, i, PageTree(n))
    ensures At(s, i, COUNT) && NatAt(s, i + |COUNT|) == Some((n, i + |COUNT| + |Nat(n)|))
    ensures var j := i + |COUNT| + |Nat(n)|;
            && At(s, j, KIDS) && At(s, j + |KIDS|, Kids(n)) && At(s, j + |KIDS| + |Kids(n)|, KIDS_END)
  {
    hide At, NatAt, Nat, Kids;
    AtParts(s, i, COUNT + Nat(n) + KIDS + Kids(n), KIDS_END);
    FourParts(s, i, COUNT, Nat(n), KIDS, Kids(n));
    NatReads(s, i + |COUNT|, n, KIDS);
  }

  lemma KidsFollow(s: string, i: nat, n: nat)
    requires At(s, i, PageTree(n))
    ensures KidsAt(s, i) == Some(KidIds(0, n))
  {
    hide RefsAt, NatAt, At, PageTree, Nat, Kids, KidsFrom, KidIds;
    TreeFound(s, i, n);
    KidsAreFrom(n);
    RefsRead(s, i + |COUNT| + |Nat(n)| + |KIDS|, 0, n);
  }

  lemma KidsRead(doc: string, pages: seq<string>)
    requires Written(doc, pages)
    ensures KidsOf(doc) == Some(KidIds(0, |pages|))
  {
    hide Pow10, Offsets, At, Document, TreeOf, ObjectAt, KidsAt, Object, PageTree, PageBodies, KidIds;
    TreeReads(doc, pages);
    ObjectReads(doc, pages, 2);
    KidsFollow(doc, ObjectAt(doc, 2).value, |pages|);
  }

  lemma {:induction false} PagesRead(doc: string, pages: seq<string>, i: nat)
    requires Written(doc, pages) && i <= |pages|
    ensures PagesAt(doc, KidIds(i, |pages| - i)) == Some(pages[i..])
    decreases |pages| - i
  {
    hide PageAt, Document, Pow10, KidIds, Written;
    KidIdsFrom(i, |pages| - i);
    if i < |pages| {
      PageReads(doc, pages, i);
      PagesRead(doc, pages, i + 1);
      assert pages[i..] == [pages[i]] + pages[i + 1..];
    } else {
      assert pages[i..] == [];
    }
  }

  lemma KidIdsFrom(first: nat, n: nat)
    ensures n == 0 ==> KidIds(first, n) == []
    ensures n > 0 ==>
              && KidIds(first, n) != [] && KidIds(first, n)[0] == 5 + 2 * first
              && KidIds(first, n)[1..] == KidIds(first + 1, n - 1)
  {
  }

  // Any list of pages survives writing and reading, for a file of fewer than
  // 10^10 bytes.
  lemma WrittenPagesReadBack(pages: seq<string>)
    requires |Document(pages)| < Pow10(10)
    ensures ReadPages(Document(pages)) == Some(pages)
  {
    hide Document, Pow10, KidsOf, PagesAt, KidIds;
    KidsRead(Document(pages), pages);
    PagesRead(Document(pages), pages, 0);
  }
}
