/** A reader of the written file that goes by its own references: the trailer,
    the cross-reference table, object numbers and stream lengths
    (sections 7.3.8, 7.5.4 and 7.5.5 of ISO 32000-1). Reading what was written
    gives back the pages. */
module PdfReader {
  import opened Chars
  import opened Decimal
  import opened Options
  import opened Pdf

  // t stands in s at position i.
  predicate At(s: string, i: nat, t: string) { i + |t| <= |s| && s[i..i + |t|] == t }

  function Skip(s: string, i: nat, t: string): Option<nat> { if At(s, i, t) then Some(i + |t|) else None }

  function RunEnd(s: string, i: nat): (e: nat)
    requires i <= |s|
    ensures i <= e <= |s| && (forall c | c in s[i..e] :: IsDigit(c)) && (e < |s| ==> !IsDigit(s[e]))
    decreases |s| - i
  {
    if i == |s| || !IsDigit(s[i]) then i else
      var e := RunEnd(s, i + 1);
      assert s[i..e] == [s[i]] + s[i + 1..e];
      e
  }

  function RunStart(s: string, e: nat): (b: nat)
    requires e <= |s|
    ensures b <= e && (forall c | c in s[b..e] :: IsDigit(c)) && (b > 0 ==> !IsDigit(s[b - 1]))
  {
    if e == 0 || !IsDigit(s[e - 1]) then e else
      var b := RunStart(s, e - 1);
      assert s[b..e] == s[b..e - 1] + [s[e - 1]];
      b
  }

  // The number written at i, and the position after it.
  function NatAt(s: string, i: nat): Option<(nat, nat)> {
    if i > |s| then None else
      var e := RunEnd(s, i);
      if e == i then None else Some((Value(s[i..e]), e))
  }

  function RefAt(s: string, i: nat): Option<(nat, nat)> {
    var num :- NatAt(s, i);
    var j :- Skip(s, num.1, " 0 R");
    Some((num.0, j))
  }

  function RefsAt(s: string, i: nat, count: nat): Option<(seq<nat>, nat)>
    decreases count
  {
    if count == 0 then Some(([], i)) else
      var ref :- RefAt(s, i);
      if count == 1 then Some(([ref.0], ref.1)) else
        var k :- Skip(s, ref.1, " ");
        var rest :- RefsAt(s, k, count - 1);
        Some(([ref.0] + rest.0, rest.1))
  }

  // The number on the line before the end-of-file marker.
  function StartXref(s: string): Option<nat> {
    if |s| < |EOF| || !At(s, |s| - |EOF|, EOF) then None else
      var e := |s| - |EOF|;
      var b := RunStart(s, e);
      if b == e || b < |STARTXREF| || !At(s, b - |STARTXREF|, STARTXREF) then None else Some(Value(s[b..e]))
  }

  // The number of entries and the position of the first.
  function TableAt(s: string): Option<(nat, nat)> {
    var x :- StartXref(s);
    var i :- Skip(s, x, XREF);
    var size :- NatAt(s, i);
    var t :- Skip(s, size.1, "\n");
    Some((size.0, t))
  }

  // Entries are 20 bytes: entry id says where object id is.
  function OffsetOf(s: string, id: nat): Option<nat> {
    var table :- TableAt(s);
    var p := table.1 + 20 * id;
    if id >= table.0 || p + 20 > |s| || !At(s, p + 10, " 00000 n \n") || RunEnd(s, p) != p + 10 then None
    else Some(Value(s[p..p + 10]))
  }

  // The position of the contents of object id.
  function ObjectAt(s: string, id: nat): Option<nat> {
    var offset :- OffsetOf(s, id);
    var num :- NatAt(s, offset);
    if num.0 != id then None else Skip(s, num.1, " 0 obj\n")
  }

  function RootOf(s: string): Option<nat> {
    var table :- TableAt(s);
    var i :- Skip(s, table.1 + 20 * table.0, TRAILER);
    var size :- NatAt(s, i);
    var j :- Skip(s, size.1, ROOT);
    var root :- RefAt(s, j);
    if size.0 != table.0 then None else Some(root.0)
  }

  function TreeOf(s: string): Option<nat> {
    var root :- RootOf(s);
    var i :- ObjectAt(s, root);
    var j :- Skip(s, i, "<< /Type /Catalog /Pages ");
    var tree :- RefAt(s, j);
    Some(tree.0)
  }

  // The page objects the tree written at i lists, in order.
  function KidsAt(s: string, i: nat): Option<seq<nat>> {
    var j :- Skip(s, i, "<< /Type /Pages /Count ");
    var count :- NatAt(s, j);
    var k :- Skip(s, count.1, " /Kids [");
    var kids :- RefsAt(s, k, count.0);
    var end :- Skip(s, kids.1, "] >>");
    Some(kids.0)
  }

  function KidsOf(s: string): Option<seq<nat>> {
    var tree :- TreeOf(s);
    var i :- ObjectAt(s, tree);
    KidsAt(s, i)
  }

  function ContentsOf(s: string, page: nat): Option<nat> {
    var i :- ObjectAt(s, page);
    var j :- Skip(s, i, PAGE_DICT);
    var contents :- RefAt(s, j);
    Some(contents.0)
  }

  // As many bytes as /Length says, and then the end of the stream.
  function StreamAt(s: string, id: nat): Option<string> {
    var i :- ObjectAt(s, id);
    var j :- Skip(s, i, "<< /Length ");
    var len :- NatAt(s, j);
    var k :- Skip(s, len.1, " >>\nstream\n");
    if k + len.0 > |s| then None else
      var end :- Skip(s, k + len.0, "\nendstream");
      Some(s[k..k + len.0])
  }

  function PageAt(s: string, id: nat): Option<string> {
    var contents :- ContentsOf(s, id);
    StreamAt(s, contents)
  }

  function PagesAt(s: string, ids: seq<nat>): Option<seq<string>> {
    if ids == [] then Some([]) else
      var page :- PageAt(s, ids[0]);
      var rest :- PagesAt(s, ids[1..]);
      Some([page] + rest)
  }

  function ReadPages(s: string): Option<seq<string>> {
    var kids :- KidsOf(s);
    PagesAt(s, kids)
  }
}
