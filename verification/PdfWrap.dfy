/** Word wrapping in the PDF writer (internal/report/pdf.go, pdfWrap), on ASCII text. */
module PdfWrap {
  import opened Chars
  import opened Text

  // A word cut into pieces of max characters and a rest of at most max.
  function Chop(w: string, max: nat): (pieces: seq<string>)
    requires max > 0
    ensures pieces != [] && (w != "" ==> pieces[0] != "")
  {
    if |w| <= max then [w] else [w[..max]] + Chop(w[max..], max)
  }

  function Pieces(words: seq<string>, max: nat): seq<string>
    requires max > 0
  {
    if words == [] then [] else Chop(words[0], max) + Pieces(words[1..], max)
  }

  // The pieces of a line, joined by single blanks.
  function Join(line: seq<string>): string {
    if line == [] then "" else if |line| == 1 then line[0] else Join(line[..|line| - 1]) + " " + line[|line| - 1]
  }

  // Greedy filling: cur is the line under way.
  function FillFrom(cur: seq<string>, pieces: seq<string>, max: nat): seq<seq<string>>
    decreases |pieces|
  {
    if pieces == [] then (if cur == [] then [] else [cur])
    else if cur == [] || |Join(cur)| + 1 + |pieces[0]| <= max then FillFrom(cur + [pieces[0]], pieces[1..], max)
    else [cur] + FillFrom([pieces[0]], pieces[1..], max)
  }

  function Fill(pieces: seq<string>, max: nat): seq<seq<string>> { FillFrom([], pieces, max) }

  function Rendered(layout: seq<seq<string>>): (lines: seq<string>)
    ensures |lines| == |layout| && forall i | 0 <= i < |layout| :: lines[i] == Join(layout[i])
  {
    if layout == [] then [] else [Join(layout[0])] + Rendered(layout[1..])
  }

  // Fill the pieces of the words greedily; text that fits or holds no word is
  // left alone.
  function Wrapped(s: string, max: int): seq<string> {
    if max <= 0 || |s| <= max || Fields(s) == [] then [s] else Rendered(Fill(Pieces(Fields(s), max), max))
  }

  lemma {:induction false} RenderedAppend(a: seq<seq<string>>, b: seq<seq<string>>)
    ensures Rendered(a + b) == Rendered(a) + Rendered(b)
  {
  }

  // Flushing before a full piece and emitting it at once is what filling does.
  lemma FullPiece(cur: seq<string>, piece: string, pieces: seq<string>, max: nat)
    requires max > 0 && |piece| == max && pieces != [] && pieces[0] != "" && (cur != [] ==> Join(cur) != "")
    ensures FillFrom(cur, [piece] + pieces, max) ==
            (if cur == [] then [] else [cur]) + [[piece]] + FillFrom([], pieces, max)
  {
    assert ([piece] + pieces)[1..] == pieces;
    assert [] + [pieces[0]] == [pieces[0]];
    assert [] + [piece] == [piece];
    assert FillFrom([], pieces, max) == FillFrom([pieces[0]], pieces[1..], max);
    assert FillFrom([piece], pieces, max) == [[piece]] + FillFrom([pieces[0]], pieces[1..], max);
  }

  // The lines done and the line under way, with the pieces still to come.
  ghost predicate Underway(
    lines: seq<string>, cur: string, line: seq<string>, pieces: seq<string>, max: nat, goal: seq<string>)
  {
    && cur == Join(line) && (line != [] <==> cur != "")
    && lines + Rendered(FillFrom(line, pieces, max)) == goal
  }

  lemma HardSplit(
    lines: seq<string>, cur: string, line: seq<string>, piece: string, pieces: seq<string>, max: nat, goal: seq<string>)
    requires Underway(lines, cur, line, [piece] + pieces, max, goal)
    requires max > 0 && |piece| == max && pieces != [] && pieces[0] != ""
    ensures Underway(lines + (if cur == "" then [] else [cur]) + [piece], "", [], pieces, max, goal)
  {
    FullPiece(line, piece, pieces, max);
    var before, after := if line == [] then [] else [line], FillFrom([], pieces, max);
    var flushed := if cur == "" then [] else [cur];
    hide FillFrom, Join;
    EmptyLine();
    assert Rendered(before) == flushed && Rendered([[piece]]) == [piece];
    hide Rendered;
    RenderedAppend(before + [[piece]], after);
    RenderedAppend(before, [[piece]]);
    SeqAssociates(lines, flushed, [piece], Rendered(after));
  }

  lemma SeqAssociates(a: seq<string>, b: seq<string>, c: seq<string>, d: seq<string>)
    ensures a + (b + c + d) == a + b + c + d
  {
  }

  lemma EmptyLine()
    ensures Join([]) == "" && forall p :: Join([p]) == p
  {
  }

  lemma LineIsCur(lines: seq<string>, cur: string, line: seq<string>, pieces: seq<string>, max: nat, goal: seq<string>)
    requires Underway(lines, cur, line, pieces, max, goal)
    ensures line != [] <==> cur != ""
  {
  }

  lemma PieceJoins(
    lines: seq<string>, cur: string, line: seq<string>, w: string, pieces: seq<string>, max: nat, goal: seq<string>)
    requires Underway(lines, cur, line, [w] + pieces, max, goal) && w != ""
    requires line == [] || |cur| + 1 + |w| <= max
    ensures Underway(lines, if line == [] then w else cur + " " + w, line + [w], pieces, max, goal)
  {
    assert ([w] + pieces)[1..] == pieces;
    assert (line + [w])[..|line|] == line;
  }

  lemma PieceStarts(
    lines: seq<string>, cur: string, line: seq<string>, w: string, pieces: seq<string>, max: nat, goal: seq<string>)
    requires Underway(lines, cur, line, [w] + pieces, max, goal) && w != ""
    requires line != [] && |cur| + 1 + |w| > max
    ensures Underway(lines + [cur], w, [w], pieces, max, goal)
  {
    assert ([w] + pieces)[1..] == pieces;
    var after := FillFrom([w], pieces, max);
    assert FillFrom(line, [w] + pieces, max) == [line] + after;
    hide FillFrom;
    RenderedAppend([line], after);
    assert Rendered([line]) == [cur];
    assert lines + ([cur] + Rendered(after)) == lines + [cur] + Rendered(after);
  }

  // The inner loop: cut pieces of max off a longer word.
  method SplitLong(done: seq<string>, under: string, word: string, max: nat,
                   ghost begun: seq<string>, ghost rest: seq<string>, ghost goal: seq<string>)
      returns (lines: seq<string>, cur: string, w: string, ghost line: seq<string>)
    requires max > 0 && word != "" && Underway(done, under, begun, Chop(word, max) + rest, max, goal)
    ensures 0 < |w| <= max && Underway(lines, cur, line, [w] + rest, max, goal)
  {
    hide Underway;
    lines, cur, w, line := done, under, word, begun;
    while |w| > max
      invariant w != "" && Underway(lines, cur, line, Chop(w, max) + rest, max, goal)
    {
      ghost var later := Chop(w[max..], max) + rest;
      assert Chop(w, max) + rest == [w[..max]] + later;
      HardSplit(lines, cur, line, w[..max], later, max, goal);
      ghost var flushed := lines + if cur == "" then [] else [cur];
      if |cur| > 0 {
        lines := lines + [cur];
        cur := "";
      }
      assert lines == flushed;
      line := [];
      lines := lines + [w[..max]];
      w := w[max..];
    }
  }

  method PdfWrap(s: string, max: int) returns (lines: seq<string>)
    ensures lines == Wrapped(s, max)
  {
    if max <= 0 || |s| <= max { return [s]; }
    var words := Fields(s);
    if |words| == 0 { return [s]; }
    lines := [];
    var cur := "";
    ghost var line: seq<string> := [];
    ghost var goal := Rendered(Fill(Pieces(words, max), max));
    assert words[0..] == words;
    for i := 0 to |words|
      invariant Underway(lines, cur, line, Pieces(words[i..], max), max, goal)
    {
      hide Underway, Join, FillFrom, Rendered, Fill, Chop, Fields;
      var w := words[i];
      assert w in words;
      ghost var rest := Pieces(words[i + 1..], max);
      assert words[i..][1..] == words[i + 1..];
      lines, cur, w, line := SplitLong(lines, cur, w, max, line, rest, goal);
      LineIsCur(lines, cur, line, [w] + rest, max, goal);
      if |cur| == 0 {
        PieceJoins(lines, cur, line, w, rest, max, goal);
        cur := w;
        line := line + [w];
      } else if |cur| + 1 + |w| > max {
        PieceStarts(lines, cur, line, w, rest, max, goal);
        lines := lines + [cur];
        cur := w;
        line := [w];
      } else {
        PieceJoins(lines, cur, line, w, rest, max, goal);
        cur := cur + " " + w;
        line := line + [w];
      }
    }
    if |cur| > 0 { lines := lines + [cur]; }
  }

  // ---------- nothing is lost, everything fits ----------

  function Flatten(layout: seq<seq<string>>): seq<string> {
    if layout == [] then [] else layout[0] + Flatten(layout[1..])
  }

  lemma {:induction false} ChopKeepsAll(w: string, max: nat)
    requires max > 0
    ensures Concat(Chop(w, max)) == w
    ensures forall p | p in Chop(w, max) :: |p| <= max
    ensures IsWord(w) ==> forall p | p in Chop(w, max) :: IsWord(p)
  {
    if |w| > max {
      ChopKeepsAll(w[max..], max);
      assert w == w[..max] + w[max..];
    } else {
      assert Concat([w]) == w + Concat([]);
    }
  }

  lemma {:induction false} PiecesKeepAll(words: seq<string>, max: nat)
    requires max > 0 && forall w | w in words :: IsWord(w)
    ensures Concat(Pieces(words, max)) == Concat(words)
    ensures forall p | p in Pieces(words, max) :: IsWord(p) && |p| <= max
  {
    if words != [] {
      assert words[0] in words;
      PiecesKeepAll(words[1..], max);
      ChopKeepsAll(words[0], max);
      ConcatAppend(Chop(words[0], max), Pieces(words[1..], max));
    }
  }

  // Filling keeps the pieces in order and never overfills a line.
  lemma {:induction false} FillFits(cur: seq<string>, pieces: seq<string>, max: nat)
    requires |Join(cur)| <= max && forall p | p in pieces :: |p| <= max
    ensures Flatten(FillFrom(cur, pieces, max)) == cur + pieces
    ensures forall line | line in FillFrom(cur, pieces, max) :: line != [] && |Join(line)| <= max
    decreases |pieces|
  {
    hide Join, Flatten;
    FlattenCons(cur, []);
    assert [cur] + [] == [cur];
    if pieces != [] {
      assert pieces[0] in pieces;
      var rest := pieces[1..];
      if cur == [] || |Join(cur)| + 1 + |pieces[0]| <= max {
        JoinSnoc(cur, pieces[0]);
        FillFits(cur + [pieces[0]], rest, max);
        assert cur + [pieces[0]] + rest == cur + pieces;
      } else {
        JoinSnoc([], pieces[0]);
        assert [] + [pieces[0]] == [pieces[0]];
        FillFits([pieces[0]], rest, max);
        assert [pieces[0]] + rest == pieces;
        FlattenCons(cur, FillFrom([pieces[0]], rest, max));
      }
    } else {
      assert cur + pieces == cur;
    }
  }

  lemma JoinSnoc(line: seq<string>, p: string)
    ensures |Join(line + [p])| == if line == [] then |p| else |Join(line)| + 1 + |p|
  {
    assert (line + [p])[..|line|] == line;
  }

  lemma FlattenCons(line: seq<string>, layout: seq<seq<string>>)
    ensures Flatten([line] + layout) == line + Flatten(layout)
    ensures Flatten([]) == []
  {
    assert ([line] + layout)[1..] == layout;
  }

  lemma EmptyText()
    ensures Strip("") == "" && Strip(" ") == "" && Concat([]) == "" && forall s :: Concat([s]) == s
  {
    forall s ensures Concat([s]) == s { assert Concat([s]) == s + Concat([]); }
    assert Strip(" ") == "" by { assert " "[1..] == ""; }
  }

  lemma {:induction false} StripJoin(line: seq<string>)
    requires forall p | p in line :: IsWord(p)
    ensures Strip(Join(line)) == Concat(line)
  {
    hide Strip, Concat;
    EmptyText();
    if |line| == 1 {
      assert line[0] in line;
      StripWord(line[0]);
      assert line == [line[0]];
    } else if |line| > 1 {
      var front, last := line[..|line| - 1], line[|line| - 1];
      assert last in line;
      StripJoin(front);
      StripWord(last);
      StripAppend(Join(front) + " ", last);
      StripAppend(Join(front), " ");
      ConcatAppend(front, [last]);
      assert line == front + [last];
      assert Concat(front) + "" + last == Concat(front) + last;
    }
  }

  lemma {:induction false} StripLayout(layout: seq<seq<string>>)
    requires forall line, p | line in layout && p in line :: IsWord(p)
    ensures Strip(Concat(Rendered(layout))) == Concat(Flatten(layout))
  {
    if layout != [] {
      assert layout[0] in layout;
      forall line, p | line in layout[1..] && p in line ensures IsWord(p) { assert line in layout; }
      StripLayout(layout[1..]);
      StripJoin(layout[0]);
      StripAppend(Join(layout[0]), Concat(Rendered(layout[1..])));
      ConcatAppend(layout[0], Flatten(layout[1..]));
    }
  }

  lemma {:induction false} InFlatten(layout: seq<seq<string>>, line: seq<string>, p: string)
    requires line in layout && p in line
    ensures p in Flatten(layout)
  {
    if line != layout[0] { InFlatten(layout[1..], line, p); }
  }

  // For any text and any width: the lines hold the text's characters in order,
  // whitespace aside.
  lemma WrappingLosesNothing(s: string, max: int)
    ensures Strip(Concat(Wrapped(s, max))) == Strip(s)
  {
    var words := Fields(s);
    if max <= 0 || |s| <= max || words == [] {
      EmptyText();
    } else {
      var pieces := Pieces(words, max);
      var layout := Fill(pieces, max);
      PiecesKeepAll(words, max);
      FillFits([], pieces, max);
      assert [] + pieces == pieces;
      forall line, p | line in layout && p in line ensures IsWord(p) { InFlatten(layout, line, p); }
      StripLayout(layout);
      FieldsKeepAll(s);
    }
  }

  // Every line fits exactly when the text fits, or there is a width to fit and
  // a word to wrap.
  lemma EveryLineFits(s: string, max: int)
    ensures (forall line | line in Wrapped(s, max) :: |line| <= max) <==>
            |s| <= max || (max > 0 && exists i | 0 <= i < |s| :: !IsSpace(s[i]))
  {
    FieldsOfBlank(s);
    var words := Fields(s);
    hide Fields, IsSpace;
    if |s| <= max {
      forall line | line in Wrapped(s, max) ensures |line| <= max { assert line in [s]; }
    } else if max <= 0 || words == [] {
      assert s in Wrapped(s, max);
    } else {
      PiecesKeepAll(words, max);
      FillFits([], Pieces(words, max), max);
      var layout := Fill(Pieces(words, max), max);
      forall line | line in Wrapped(s, max) ensures |line| <= max {
        var i :| 0 <= i < |layout| && line == Join(layout[i]);
        assert layout[i] in layout;
      }
    }
  }

  // ---------- greedy filling needs the fewest lines ----------

  lemma {:induction false} JoinSplit(a: seq<string>, b: seq<string>)
    requires a != [] && b != []
    ensures |Join(a + b)| == |Join(a)| + 1 + |Join(b)|
    decreases |b|
  {
    var front := (a + b)[..|a + b| - 1];
    if |b| == 1 {
      assert front == a;
    } else {
      JoinSplit(a, b[..|b| - 1]);
      assert front == a + b[..|b| - 1];
    }
  }

  lemma JoinOverflows(cur: seq<string>, pieces: seq<string>, max: nat, n: nat)
    requires cur != [] && 0 < n <= |pieces| && |Join(cur)| + 1 + |pieces[0]| > max
    ensures |Join(cur + pieces[..n])| > max
  {
    JoinSplit(cur, pieces[..n]);
    assert Join([pieces[0]]) == pieces[0];
    hide Join;
    assert pieces[..n] == [pieces[0]] + pieces[1..n];
    if n > 1 { JoinSplit([pieces[0]], pieces[1..n]); }
  }

  // How many of the pieces the line under way still takes.
  function Taken(cur: seq<string>, pieces: seq<string>, max: nat): (k: nat)
    ensures k <= |pieces|
    decreases |pieces|
  {
    if pieces == [] || |Join(cur)| + 1 + |pieces[0]| > max then 0
    else 1 + Taken(cur + [pieces[0]], pieces[1..], max)
  }

  lemma {:induction false} LineThenRest(cur: seq<string>, pieces: seq<string>, max: nat)
    requires cur != []
    ensures var k := Taken(cur, pieces, max);
            FillFrom(cur, pieces, max) == [cur + pieces[..k]] + Fill(pieces[k..], max)
    decreases |pieces|
  {
    hide Join;
    assert cur + pieces[..0] == cur && pieces[0..] == pieces;
    if pieces == [] {
    } else if |Join(cur)| + 1 + |pieces[0]| <= max {
      var longer, rest := cur + [pieces[0]], pieces[1..];
      LineThenRest(longer, rest, max);
      var j := Taken(longer, rest, max);
      assert cur + pieces[..j + 1] == longer + rest[..j] && pieces[j + 1..] == rest[j..];
    } else {
      assert [] + [pieces[0]] == [pieces[0]];
    }
  }

  // It takes as many as fit.
  lemma {:induction false} LineIsFull(cur: seq<string>, pieces: seq<string>, max: nat, n: nat)
    requires cur != [] && n <= |pieces| && |Join(cur + pieces[..n])| <= max
    ensures n <= Taken(cur, pieces, max)
    decreases |pieces|
  {
    hide Join;
    if n > 0 {
      if |Join(cur)| + 1 + |pieces[0]| > max {
        JoinOverflows(cur, pieces, max, n);
      } else {
        assert cur + pieces[..n] == cur + [pieces[0]] + pieces[1..][..n - 1];
        LineIsFull(cur + [pieces[0]], pieces[1..], max, n - 1);
      }
    }
  }

  lemma JoinOfSuffix(a: seq<string>, b: seq<string>)
    requires b != []
    ensures |Join(b)| <= |Join(a + b)|
  {
    if a != [] { JoinSplit(a, b); } else { assert a + b == b; }
  }

  // The first line of a filling, and the filling of the rest.
  lemma FirstLine(q: seq<string>, max: nat) returns (taken: nat)
    requires q != []
    ensures 0 < taken <= |q| && Fill(q, max) == [q[..taken]] + Fill(q[taken..], max)
    ensures forall n | 0 < n <= |q| && |Join(q[..n])| <= max :: n <= taken
  {
    var k := Taken([q[0]], q[1..], max);
    taken := k + 1;
    LineThenRest([q[0]], q[1..], max);
    assert [] + [q[0]] == [q[0]];
    assert Fill(q, max) == FillFrom([q[0]], q[1..], max);
    hide Join, FillFrom, Taken;
    assert [q[0]] + q[1..][..k] == q[..taken] && q[1..][k..] == q[taken..];
    forall n | 0 < n <= |q| && |Join(q[..n])| <= max ensures n <= taken {
      assert [q[0]] + q[1..][..n - 1] == q[..n];
      LineIsFull([q[0]], q[1..], max, n - 1);
    }
  }

  lemma SplitTwice(a: seq<string>, b: seq<string>, c: seq<string>, d: seq<string>)
    requires a + b == c + d
    ensures |b| <= |d| ==> d[..|d| - |b|] + b == d
    ensures |d| <= |b| ==> a + b[..|b| - |d|] == c && b[|b| - |d|..] == d
  {
    var s := a + b;
    if |b| <= |d| {
      assert b == s[|a|..] && d == s[|c|..];
      assert d == d[..|d| - |b|] + d[|d| - |b|..];
    }
    if |d| <= |b| {
      assert b[|b| - |d|..] == s[|c|..] == d;
      assert a + b[..|b| - |d|] == s[..|c|] == c;
    }
  }

  // A layout that fits and ends with the pieces q has at least as many lines.
  lemma {:induction false} GreedyStaysAhead(q: seq<string>, before: seq<string>, layout: seq<seq<string>>, max: nat)
    requires before + q == Flatten(layout) && forall line | line in layout :: |Join(line)| <= max
    ensures |Fill(q, max)| <= |layout|
    decreases |layout|
  {
    hide Join;
    if q != [] {
      var line, later := layout[0], Flatten(layout[1..]);
      assert line in layout;
      var all := before + q;
      assert all == line + later;
      hide Flatten;
      SplitTwice(before, q, line, later);
      if |q| <= |later| {
        hide Fill;
        GreedyStaysAhead(q, later[..|later| - |q|], layout[1..], max);
      } else {
        var n := |q| - |later|;
        var taken := FirstLine(q, max);
        hide Fill;
        JoinOfSuffix(before, q[..n]);
        assert later[..taken - n] + q[taken..] == later;
        GreedyStaysAhead(q[taken..], later[..taken - n], layout[1..], max);
      }
    }
  }

  // No other way of breaking the same pieces into lines that fit is shorter.
  lemma GreedyIsShortest(s: string, max: int, layout: seq<seq<string>>)
    requires 0 < max < |s| && Fields(s) != []
    requires Flatten(layout) == Pieces(Fields(s), max) && forall line | line in layout :: |Join(line)| <= max
    ensures |Wrapped(s, max)| <= |layout|
  {
    assert [] + Flatten(layout) == Flatten(layout);
    GreedyStaysAhead(Flatten(layout), [], layout, max);
  }
}
