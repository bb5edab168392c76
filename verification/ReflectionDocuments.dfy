/** Whole documents in front of a canary: any words, tags with quoted
    attributes, comments and scripts with strings, one after the other. */
module ReflectionDocuments {
  import opened Chars
  import opened Reflections
  import opened ReflectionTheorems

  // ---------- markup as written ----------

  /** What stands in a tag after its '<': bare text and quoted values. */
  datatype Part = Bare(text: string) | Double(text: string) | Single(text: string)

  /** What stands in a script string. */
  datatype Unit = Plain(c: char) | Escaped(c: char)

  /** What stands in a script. */
  datatype Chunk = Code(text: string) | Quoted(quote: char, units: seq<Unit>)

  datatype Piece =
    | Words(text: string)
    | Markup(parts: seq<Part>)
    | Remark(text: string)
    | Program(open: string, chunks: seq<Chunk>, close: string)

  /** The unfinished piece a canary stands in. */
  datatype Place =
    | InWords(text: string)
    | InTag(parts: seq<Part>)
    | InDouble(parts: seq<Part>, text: string)
    | InSingle(parts: seq<Part>, text: string)
    | InRemark(text: string)
    | InProgram(open: string, chunks: seq<Chunk>)
    | InString(open: string, chunks: seq<Chunk>, quote: char, units: seq<Unit>)

  function PartText(p: Part): string {
    match p
    case Bare(text) => text
    case Double(text) => "\"" + text + "\""
    case Single(text) => "'" + text + "'"
  }

  function PartsText(parts: seq<Part>): string {
    if parts == [] then "" else PartText(parts[0]) + PartsText(parts[1..])
  }

  function UnitsText(units: seq<Unit>): string {
    if units == [] then "" else
      (if units[0].Plain? then [units[0].c] else ['\\', units[0].c]) + UnitsText(units[1..])
  }

  function ChunkText(c: Chunk): string {
    match c
    case Code(text) => text
    case Quoted(quote, units) => [quote] + UnitsText(units) + [quote]
  }

  function ChunksText(chunks: seq<Chunk>): string {
    if chunks == [] then "" else ChunkText(chunks[0]) + ChunksText(chunks[1..])
  }

  function PieceText(p: Piece): string {
    match p
    case Words(text) => text
    case Markup(parts) => "<" + PartsText(parts) + ">"
    case Remark(text) => "<!--" + text + "-->"
    case Program(open, chunks, close) => open + ChunksText(chunks) + close
  }

  function DocumentText(pieces: seq<Piece>): string {
    if pieces == [] then "" else PieceText(pieces[0]) + DocumentText(pieces[1..])
  }

  function Lead(p: Place): string {
    match p
    case InWords(text) => text
    case InTag(parts) => "<" + PartsText(parts)
    case InDouble(parts, text) => "<" + PartsText(parts) + "\"" + text
    case InSingle(parts, text) => "<" + PartsText(parts) + "'" + text
    case InRemark(text) => "<!--" + text
    case InProgram(open, chunks) => open + ChunksText(chunks)
    case InString(open, chunks, quote, units) => open + ChunksText(chunks) + [quote] + UnitsText(units)
  }

  // ---------- well-formed markup ----------

  predicate Without(s: string, bad: string) { forall j | 0 <= j < |s| :: s[j] !in bad }

  // The word, a lower-case one, stands at `at` in any letter case.
  predicate AnyCase(s: string, at: nat, word: string) {
    at + |word| <= |s| && forall j | 0 <= j < |word| :: s[at + j] == word[j] || s[at + j] as int + 32 == word[j] as int
  }

  // '<', the name script in any letter case, and no further letter or digit.
  predicate NamesScript(tag: string) {
    |tag| >= 7 && tag[0] == '<' && AnyCase(tag, 1, "script") && (|tag| == 7 || !IsAlnum(tag[7]))
  }

  // Attributes of any kind, up to the first '>'.
  predicate ScriptStart(tag: string) {
    |tag| >= 8 && NamesScript(tag) && tag[|tag| - 1] == '>' && Without(tag[..|tag| - 1], ">")
  }

  predicate ScriptEnd(tag: string) {
    |tag| >= 9 && "</" <= tag && AnyCase(tag, 2, "script") && tag[|tag| - 1] == '>' && Without(tag[..|tag| - 1], ">")
  }

  // Text that starts a tag, neither comment nor script, whatever follows it:
  // it is long enough to tell, or has a character of neither opening.
  predicate StartsTag(s: string) {
    && s != "" && s[0] == '<' && !("<!--" <= s) && !NamesScript(s)
    && (|s| >= 8 || exists j | 1 <= j < |s| :: !IsAlnum(s[j]) && s[j] != '!' && s[j] != '-')
  }

  predicate PartOk(p: Part) {
    match p
    case Bare(text) => Without(text, ">\"'")
    case Double(text) => Without(text, "\"")
    case Single(text) => Without(text, "'")
  }

  predicate PartsOk(parts: seq<Part>) { forall p | p in parts :: PartOk(p) }

  predicate IsQuote(c: char) { c == '"' || c == '\'' }

  predicate UnitsOk(quote: char, units: seq<Unit>) {
    forall u | u in units :: u.Plain? ==> u.c != quote && u.c != '\\'
  }

  predicate ChunkOk(c: Chunk) {
    match c
    case Code(text) =>
      && Without(text, "\"'")
      && forall j | 0 <= j < |text| && text[j] == '<' :: j + 1 < |text| && text[j + 1] != '/'
    case Quoted(quote, units) => IsQuote(quote) && UnitsOk(quote, units)
  }

  predicate ChunksOk(chunks: seq<Chunk>) { forall c | c in chunks :: ChunkOk(c) }

  predicate ClosesAt(s: string, j: nat) { j + 3 <= |s| && s[j..j + 3] == "-->" }

  predicate Unclosed(text: string) { forall j: nat | j < |text| :: !ClosesAt(text, j) }

  predicate PieceOk(p: Piece) {
    match p
    case Words(text) => Without(text, "<")
    case Markup(parts) => PartsOk(parts) && StartsTag(PieceText(p))
    case Remark(text) => Unclosed(text + "--")
    case Program(open, chunks, close) => ScriptStart(open) && ChunksOk(chunks) && ScriptEnd(close)
  }

  predicate PlaceOk(p: Place) {
    match p
    case InWords(text) => Without(text, "<")
    case InTag(parts) => PartsOk(parts) && StartsTag(Lead(p))
    case InDouble(parts, text) => PartsOk(parts) && StartsTag(Lead(p)) && Without(text, "\"")
    case InSingle(parts, text) => PartsOk(parts) && StartsTag(Lead(p)) && Without(text, "'")
    case InRemark(text) => Unclosed(text)
    case InProgram(open, chunks) => ScriptStart(open) && ChunksOk(chunks)
    case InString(open, chunks, quote, units) =>
      ScriptStart(open) && ChunksOk(chunks) && IsQuote(quote) && UnitsOk(quote, units)
  }

  function StateIn(p: Place): CtxState {
    match p
    case InWords(_) => Text
    case InTag(_) => Tag
    case InDouble(_, _) => AttrDouble
    case InSingle(_, _) => AttrSingle
    case InRemark(_) => Comment
    case InProgram(_, _) => Script
    case InString(_, _, quote, _) => if quote == '"' then ScriptDouble else ScriptSingle
  }

  function ContextIn(p: Place): Context {
    match p
    case InWords(_) => HTMLText
    case InTag(_) => AttrUnquoted
    case InDouble(_, _) => AttrDoubleQuoted
    case InSingle(_, _) => AttrSingleQuoted
    case InRemark(_) => HTMLComment
    case InProgram(_, _) => ScriptText
    case InString(_, _, quote, _) => if quote == '"' then ScriptStringDouble else ScriptStringSingle
  }

  // ---------- single steps ----------

  lemma SpellsBoth(body: string, i: nat, a: string, b: string)
    requires Spells(body, i, a + b)
    ensures Spells(body, i, a) && Spells(body, i + |a|, b)
  {
    forall j | i <= j < i + |a| ensures body[j] == a[j - i] { assert (a + b)[j - i] == a[j - i]; }
    forall j | i + |a| <= j < i + |a| + |b| ensures body[j] == b[j - i - |a|] {
      assert (a + b)[j - i] == b[j - i - |a|];
    }
  }

  lemma FoldsTo(s: string, at: nat, word: string)
    requires AnyCase(s, at, word) && forall j | 0 <= j < |word| :: 'a' <= word[j] <= 'z'
    ensures forall j | 0 <= j < |word| :: Fold(s[at + j]) == word[j] == Fold(word[j])
  {
  }

  lemma ScriptStarts(body: string, i: nat, tag: string)
    requires ScriptStart(tag) && Spells(body, i, tag)
    ensures StepState(body, i, Text) == (Script, |tag|)
  {
    FoldsTo(tag, 1, "script");
    var n := |tag| - 1;
    assert forall j | 0 <= j <= n :: body[i + j] == tag[j];
    forall j | i < j < i + n ensures body[j] != '>' { assert body[j] == tag[..n][j - i]; }
    FirstClose(body, i, i + n);
    assert HasPrefixFold(body, i, "<script") by {
      forall j | 0 <= j < 7 ensures Fold(body[i + j]) == Fold("<script"[j]) {
        if j > 0 { assert "<script"[j] == "script"[j - 1] && tag[1 + (j - 1)] == tag[j]; }
      }
    }
    assert !HasPrefix(body, i, "<!--") by {
      assert Fold(tag[1 + 0]) == "script"[0] && "<!--"[1] == '!' && body[i + 1] == tag[1];
    }
  }

  lemma ScriptEnds(body: string, i: nat, tag: string)
    requires ScriptEnd(tag) && Spells(body, i, tag)
    ensures StepState(body, i, Script) == (Text, |tag|)
  {
    FoldsTo(tag, 2, "script");
    var n := |tag| - 1;
    assert forall j | 0 <= j <= n :: body[i + j] == tag[j];
    forall j | i < j < i + n ensures body[j] != '>' { assert body[j] == tag[..n][j - i]; }
    FirstClose(body, i, i + n);
    assert HasPrefixFold(body, i, "</script") by {
      forall j | 0 <= j < 8 ensures Fold(body[i + j]) == Fold("</script"[j]) {
        if j > 1 { assert "</script"[j] == "script"[j - 2] && tag[2 + (j - 2)] == tag[j]; }
      }
    }
  }

  lemma TagStarts(body: string, i: nat, s: string)
    requires StartsTag(s) && Spells(body, i, s)
    ensures StepState(body, i, Text) == (Tag, 1)
  {
    assert body[i + 0] == s[0];
    NotComment(body, i, s);
    NotScript(body, i, s);
  }

  lemma NotComment(body: string, i: nat, s: string)
    requires StartsTag(s) && Spells(body, i, s)
    ensures !HasPrefix(body, i, "<!--")
  {
    var mark := "<!--";
    assert forall j | 1 <= j < 4 :: mark[j] == '!' || mark[j] == '-';
    var j :| 0 <= j < |s| && j < 4 && s[j] != mark[j];
    assert body[i + j] == s[j];
  }

  lemma NotScript(body: string, i: nat, s: string)
    requires StartsTag(s) && Spells(body, i, s)
    ensures !MatchesScriptOpen(body, i)
  {
    var word := "<script";
    assert forall j | 1 <= j < 7 :: 'a' <= word[j] <= 'z';
    if |s| < 8 {
      var j :| 1 <= j < |s| && !IsAlnum(s[j]) && s[j] != '!' && s[j] != '-';
      assert body[i + j] == s[j];
      assert j < 7 ==> Fold(body[i + j]) != Fold(word[j]);
    } else if j :| 0 <= j < 6 && s[1 + j] != "script"[j] && s[1 + j] as int + 32 != "script"[j] as int {
      assert body[i + (1 + j)] == s[1 + j] && word[1 + j] == "script"[j];
      assert Fold(body[i + (1 + j)]) != Fold(word[1 + j]);
    } else {
      assert AnyCase(s, 1, "script") && body[i + 7] == s[7];
    }
  }

  // ---------- stretches ----------

  lemma {:induction false} PartsStay(body: string, i: nat, parts: seq<Part>)
    requires PartsOk(parts) && Spells(body, i, PartsText(parts))
    ensures Gets(body, i, Tag, i + |PartsText(parts)|, Tag)
    decreases |parts|
  {
    hide Gets, PartOk, PartText;
    if parts == [] {
      GetsHere(body, i, Tag);
    } else {
      SpellsBoth(body, i, PartText(parts[0]), PartsText(parts[1..]));
      PartStays(body, i, parts[0]);
      PartsStay(body, i + |PartText(parts[0])|, parts[1..]);
      GetsThen(body, i, Tag, i + |PartText(parts[0])|, Tag, i + |PartsText(parts)|, Tag);
    }
  }

  lemma PartStays(body: string, i: nat, p: Part)
    requires PartOk(p) && Spells(body, i, PartText(p))
    ensures Gets(body, i, Tag, i + |PartText(p)|, Tag)
  {
    hide Gets;
    match p
    case Bare(text) =>
      forall j | i <= j < i + |text| ensures Confined(Tag, body[j]) { assert body[j] == text[j - i]; }
      FillerStays(body, i, i + |text|, Tag);
    case Double(text) => QuotedStays(body, i, '"', text, AttrDouble);
    case Single(text) => QuotedStays(body, i, '\'', text, AttrSingle);
  }

  lemma QuotedOpens(body: string, i: nat, quote: char, text: string, st: CtxState)
    requires (quote == '"' && st == AttrDouble) || (quote == '\'' && st == AttrSingle)
    requires Without(text, [quote]) && Spells(body, i, [quote] + text)
    ensures Gets(body, i, Tag, i + 1 + |text|, st)
  {
    hide Gets;
    SpellsBoth(body, i, [quote], text);
    forall j | i + 1 <= j < i + 1 + |text| ensures Confined(st, body[j]) { assert body[j] == text[j - i - 1]; }
    FillerStays(body, i + 1, i + 1 + |text|, st);
    GetsStep(body, i, Tag, i + 1, st, i + 1 + |text|, st);
  }

  lemma QuotedStays(body: string, i: nat, quote: char, text: string, st: CtxState)
    requires (quote == '"' && st == AttrDouble) || (quote == '\'' && st == AttrSingle)
    requires Without(text, [quote]) && Spells(body, i, [quote] + text + [quote])
    ensures Gets(body, i, Tag, i + 2 + |text|, Tag)
  {
    hide Gets;
    SpellsBoth(body, i, [quote] + text, [quote]);
    QuotedOpens(body, i, quote, text, st);
    var k := i + 1 + |text|;
    GetsHere(body, k + 1, Tag);
    GetsStep(body, k, st, k + 1, Tag, k + 1, Tag);
    GetsThen(body, i, Tag, k, st, k + 1, Tag);
  }

  function StringState(quote: char): CtxState { if quote == '"' then ScriptDouble else ScriptSingle }

  lemma {:induction false} UnitsStay(body: string, i: nat, quote: char, units: seq<Unit>)
    requires IsQuote(quote) && UnitsOk(quote, units) && Spells(body, i, UnitsText(units))
    ensures Gets(body, i, StringState(quote), i + |UnitsText(units)|, StringState(quote))
    decreases |units|
  {
    hide Gets;
    var st := StringState(quote);
    if units == [] {
      GetsHere(body, i, st);
    } else {
      var u := units[0];
      var text := if u.Plain? then [u.c] else ['\\', u.c];
      SpellsBoth(body, i, text, UnitsText(units[1..]));
      assert body[i] == text[0];
      UnitsStay(body, i + |text|, quote, units[1..]);
      GetsStep(body, i, st, i + |text|, st, i + |UnitsText(units)|, st);
    }
  }

  lemma ChunkStays(body: string, i: nat, c: Chunk)
    requires ChunkOk(c) && Spells(body, i, ChunkText(c))
    ensures Gets(body, i, Script, i + |ChunkText(c)|, Script)
  {
    hide Gets;
    match c
    case Code(text) => CodeStays(body, i, text, 0);
    case Quoted(quote, units) =>
      SpellsBoth(body, i, [quote] + UnitsText(units), [quote]);
      StringStarts(body, i, quote, units);
      var k := i + 1 + |UnitsText(units)|;
      GetsHere(body, k + 1, Script);
      GetsStep(body, k, StringState(quote), k + 1, Script, k + 1, Script);
      GetsThen(body, i, Script, k, StringState(quote), k + 1, Script);
  }

  lemma StringStarts(body: string, i: nat, quote: char, units: seq<Unit>)
    requires IsQuote(quote) && UnitsOk(quote, units) && Spells(body, i, [quote] + UnitsText(units))
    ensures Gets(body, i, Script, i + 1 + |UnitsText(units)|, StringState(quote))
  {
    hide Gets;
    SpellsBoth(body, i, [quote], UnitsText(units));
    UnitsStay(body, i + 1, quote, units);
    GetsStep(body, i, Script, i + 1, StringState(quote), i + 1 + |UnitsText(units)|, StringState(quote));
  }

  lemma {:induction false} CodeStays(body: string, i: nat, text: string, k: nat)
    requires ChunkOk(Code(text)) && Spells(body, i, text) && k <= |text|
    ensures Gets(body, i + k, Script, i + |text|, Script)
    decreases |text| - k
  {
    hide Gets;
    if k == |text| {
      GetsHere(body, i + k, Script);
    } else {
      assert body[i + k] == text[k];
      if text[k] == '<' {
        assert body[i + k + 1] == text[k + 1];
        assert !HasPrefixFold(body, i + k, "</script") by { assert Fold("</script"[1]) == '/'; }
      }
      CodeStays(body, i, text, k + 1);
      GetsStep(body, i + k, Script, i + k + 1, Script, i + |text|, Script);
    }
  }

  lemma {:induction false} ChunksStay(body: string, i: nat, chunks: seq<Chunk>)
    requires ChunksOk(chunks) && Spells(body, i, ChunksText(chunks))
    ensures Gets(body, i, Script, i + |ChunksText(chunks)|, Script)
    decreases |chunks|
  {
    hide Gets, ChunkOk, ChunkText;
    if chunks == [] {
      GetsHere(body, i, Script);
    } else {
      SpellsBoth(body, i, ChunkText(chunks[0]), ChunksText(chunks[1..]));
      ChunkStays(body, i, chunks[0]);
      ChunksStay(body, i + |ChunkText(chunks[0])|, chunks[1..]);
      GetsThen(body, i, Script, i + |ChunkText(chunks[0])|, Script, i + |ChunksText(chunks)|, Script);
    }
  }

  lemma {:induction false} RemarkStays(body: string, i: nat, k: nat)
    requires i <= k <= |body| && forall j: nat | i <= j < k :: !ClosesAt(body, j)
    ensures Gets(body, i, Comment, k, Comment)
    decreases k - i
  {
    hide Gets;
    if i == k {
      GetsHere(body, i, Comment);
    } else {
      if i + 3 <= |body| {
        assert body[i..i + 3] == [body[i + 0], body[i + 1], body[i + 2]];
        assert "-->" == ['-', '-', '>'] && "-->"[0] == '-' && "-->"[1] == '-' && "-->"[2] == '>';
        assert !ClosesAt(body, i);
      }
      RemarkStays(body, i + 1, k);
      GetsStep(body, i, Comment, i + 1, Comment, k, Comment);
    }
  }

  // ---------- pieces and places ----------

  lemma WordsStay(body: string, i: nat, text: string)
    requires Without(text, "<") && Spells(body, i, text)
    ensures Gets(body, i, Text, i + |text|, Text)
  {
    hide Gets;
    forall j | i <= j < i + |text| ensures Confined(Text, body[j]) { assert body[j] == text[j - i]; }
    FillerStays(body, i, i + |text|, Text);
  }

  // From '<' up to any point among the tag's parts.
  lemma TagStays(body: string, i: nat, parts: seq<Part>, rest: string)
    requires PartsOk(parts) && StartsTag("<" + PartsText(parts) + rest)
    requires Spells(body, i, "<" + PartsText(parts) + rest)
    ensures Gets(body, i, Text, i + 1 + |PartsText(parts)|, Tag)
  {
    hide Gets, StartsTag, PartsOk, PartsText;
    TagStarts(body, i, "<" + PartsText(parts) + rest);
    SpellsBoth(body, i, "<" + PartsText(parts), rest);
    SpellsBoth(body, i, "<", PartsText(parts));
    PartsStay(body, i + 1, parts);
    GetsStep(body, i, Text, i + 1, Tag, i + 1 + |PartsText(parts)|, Tag);
  }

  lemma ScriptStays(body: string, i: nat, open: string, chunks: seq<Chunk>)
    requires ScriptStart(open) && ChunksOk(chunks) && Spells(body, i, open + ChunksText(chunks))
    ensures Gets(body, i, Text, i + |open| + |ChunksText(chunks)|, Script)
  {
    hide Gets, ScriptStart, ChunksOk, ChunksText, StepState;
    SpellsBoth(body, i, open, ChunksText(chunks));
    ScriptStarts(body, i, open);
    assert |open| > 0 by { StartIsLong(open); }
    ChunksStay(body, i + |open|, chunks);
    GetsStep(body, i, Text, i + |open|, Script, i + |open| + |ChunksText(chunks)|, Script);
  }

  lemma StartIsLong(open: string)
    requires ScriptStart(open)
    ensures |open| > 0
  {
  }

  lemma RemarkOpens(body: string, i: nat)
    requires Spells(body, i, "<!--")
    ensures StepState(body, i, Text) == (Comment, 4)
  {
    var mark := "<!--";
    assert forall j | 0 <= j < 4 :: body[i + j] == mark[j];
    assert body[i + 0] == '<';
  }

  lemma RemarkCloses(body: string, i: nat)
    requires Spells(body, i, "-->")
    ensures StepState(body, i, Comment) == (Text, 3)
  {
    var mark := "-->";
    assert forall j | 0 <= j < 3 :: body[i + j] == mark[j];
  }

  // A finished piece leads from text back to text.
  lemma PieceStays(body: string, i: nat, p: Piece)
    requires PieceOk(p) && Spells(body, i, PieceText(p))
    ensures Gets(body, i, Text, i + |PieceText(p)|, Text)
  {
    hide Gets, Spells, StartsTag, PartsOk, ChunksOk, ScriptStart, ScriptEnd, Unclosed, PartsText, ChunksText, StepState;
    match p
    case Words(text) => WordsStay(body, i, text);
    case Markup(parts) => MarkupStays(body, i, parts);
    case Remark(text) => RemarkPieceStays(body, i, text);
    case Program(open, chunks, close) => ProgramStays(body, i, open, chunks, close);
  }

  lemma MarkupStays(body: string, i: nat, parts: seq<Part>)
    requires PieceOk(Markup(parts)) && Spells(body, i, PieceText(Markup(parts)))
    ensures Gets(body, i, Text, i + |PieceText(Markup(parts))|, Text)
  {
    hide Gets, StartsTag, PartsOk, PartsText;
    TagStays(body, i, parts, ">");
    SpellsBoth(body, i, "<" + PartsText(parts), ">");
    var k := i + 1 + |PartsText(parts)|;
    assert body[k] == '>';
    GetsHere(body, k + 1, Text);
    GetsStep(body, k, Tag, k + 1, Text, k + 1, Text);
    GetsThen(body, i, Text, k, Tag, k + 1, Text);
  }

  lemma RemarkPieceStays(body: string, i: nat, text: string)
    requires Unclosed(text + "--") && Spells(body, i, "<!--" + text + "-->")
    ensures Gets(body, i, Text, i + |text| + 7, Text)
  {
    hide Gets;
    SpellsBoth(body, i, "<!--" + text, "-->");
    SpellsBoth(body, i, "<!--", text);
    RemarkOpens(body, i);
    var k := i + 4 + |text|;
    NothingCloses(body, i + 4, text, "-->");
    RemarkCloses(body, k);
    hide StepState, Spells;
    RemarkStays(body, i + 4, k);
    GetsHere(body, k + 3, Text);
    GetsStep(body, k, Comment, k + 3, Text, k + 3, Text);
    GetsThen(body, i + 4, Comment, k, Comment, k + 3, Text);
    GetsStep(body, i, Text, i + 4, Comment, k + 3, Text);
  }

  // What follows does not close the remark early.
  lemma NothingCloses(body: string, i: nat, text: string, next: string)
    requires Spells(body, i, text) && Spells(body, i + |text|, next) && next != ""
    requires if next == "-->" then Unclosed(text + "--") else Unclosed(text) && next[0] != '-' && next[0] != '>'
    ensures forall j: nat | i <= j < i + |text| :: !ClosesAt(body, j)
  {
    var known := text + if next == "-->" then "--" else [next[0]];
    forall j: nat | i <= j < i + |text| ensures !ClosesAt(body, j) {
      if j - i + 3 <= |known| {
        assert body[j..j + 3] == known[j - i..j - i + 3];
        if next == "-->" {
          assert !ClosesAt(known, j - i);
        } else if j - i + 3 <= |text| {
          assert body[j..j + 3] == text[j - i..j - i + 3];
          assert !ClosesAt(text, j - i);
        } else {
          assert known[j - i..j - i + 3][2] == next[0] && "-->"[2] == '>';
        }
      } else {
        assert next != "-->" && body[i + |text|] == next[0];
        assert "-->"[1] == '-' && "-->"[0] == '-';
        assert j + 3 <= |body| ==> body[j..j + 3][i + |text| - j] == next[0];
      }
    }
  }

  lemma ProgramStays(body: string, i: nat, open: string, chunks: seq<Chunk>, close: string)
    requires PieceOk(Program(open, chunks, close)) && Spells(body, i, open + ChunksText(chunks) + close)
    ensures Gets(body, i, Text, i + |open| + |ChunksText(chunks)| + |close|, Text)
  {
    hide Gets, ScriptStart, ChunksOk, ChunksText, StepState;
    SpellsBoth(body, i, open + ChunksText(chunks), close);
    ScriptStays(body, i, open, chunks);
    var k := i + |open| + |ChunksText(chunks)|;
    ScriptEnds(body, k, close);
    GetsHere(body, k + |close|, Text);
    GetsStep(body, k, Script, k + |close|, Text, k + |close|, Text);
    GetsThen(body, i, Text, k, Script, k + |close|, Text);
  }

  predicate DocumentOk(pieces: seq<Piece>) { forall p | p in pieces :: PieceOk(p) }

  lemma {:induction false} DocumentStays(body: string, i: nat, pieces: seq<Piece>)
    requires DocumentOk(pieces) && Spells(body, i, DocumentText(pieces))
    ensures Gets(body, i, Text, i + |DocumentText(pieces)|, Text)
    decreases |pieces|
  {
    hide Gets, PieceOk, PieceText;
    if pieces == [] {
      GetsHere(body, i, Text);
    } else {
      SpellsBoth(body, i, PieceText(pieces[0]), DocumentText(pieces[1..]));
      PieceStays(body, i, pieces[0]);
      DocumentStays(body, i + |PieceText(pieces[0])|, pieces[1..]);
      GetsThen(body, i, Text, i + |PieceText(pieces[0])|, Text, i + |DocumentText(pieces)|, Text);
    }
  }

  // From text to the place, when something other than '-' or '>' follows.
  lemma PlaceReached(body: string, i: nat, p: Place)
    requires PlaceOk(p) && Spells(body, i, Lead(p)) && i + |Lead(p)| < |body| && IsAlnum(body[i + |Lead(p)|])
    ensures Gets(body, i, Text, i + |Lead(p)|, StateIn(p))
  {
    hide Gets, StartsTag, PartsOk, ChunksOk, ScriptStart, PartsText, ChunksText, StepState;
    hide UnitsText, UnitsOk, Unclosed;
    match p
    case InWords(text) => WordsStay(body, i, text);
    case InTag(parts) =>
      assert Lead(p) + "" == Lead(p);
      TagStays(body, i, parts, "");
    case InDouble(parts, text) => ValueReached(body, i, parts, '"', text, AttrDouble);
    case InSingle(parts, text) => ValueReached(body, i, parts, '\'', text, AttrSingle);
    case InRemark(text) => RemarkReached(body, i, text);
    case InProgram(open, chunks) => ScriptStays(body, i, open, chunks);
    case InString(open, chunks, quote, units) => StringReached(body, i, open, chunks, quote, units);
  }

  lemma ValueReached(body: string, i: nat, parts: seq<Part>, quote: char, text: string, st: CtxState)
    requires (quote == '"' && st == AttrDouble) || (quote == '\'' && st == AttrSingle)
    requires PartsOk(parts) && Without(text, [quote])
    requires StartsTag("<" + PartsText(parts) + [quote] + text)
    requires Spells(body, i, "<" + PartsText(parts) + [quote] + text)
    ensures Gets(body, i, Text, i + 2 + |PartsText(parts)| + |text|, st)
  {
    hide Gets, StartsTag, PartsOk, PartsText;
    assert "<" + PartsText(parts) + [quote] + text == "<" + PartsText(parts) + ([quote] + text);
    TagStays(body, i, parts, [quote] + text);
    SpellsBoth(body, i, "<" + PartsText(parts), [quote] + text);
    var k := i + 1 + |PartsText(parts)|;
    QuotedOpens(body, k, quote, text, st);
    GetsThen(body, i, Text, k, Tag, k + 1 + |text|, st);
  }

  lemma RemarkReached(body: string, i: nat, text: string)
    requires Unclosed(text) && Spells(body, i, "<!--" + text)
    requires i + 4 + |text| < |body| && IsAlnum(body[i + 4 + |text|])
    ensures Gets(body, i, Text, i + 4 + |text|, Comment)
  {
    hide Gets;
    SpellsBoth(body, i, "<!--", text);
    RemarkOpens(body, i);
    NothingCloses(body, i + 4, text, [body[i + 4 + |text|]]);
    RemarkStays(body, i + 4, i + 4 + |text|);
    GetsStep(body, i, Text, i + 4, Comment, i + 4 + |text|, Comment);
  }

  lemma StringReached(body: string, i: nat, open: string, chunks: seq<Chunk>, quote: char, units: seq<Unit>)
    requires ScriptStart(open) && ChunksOk(chunks) && IsQuote(quote) && UnitsOk(quote, units)
    requires Spells(body, i, open + ChunksText(chunks) + [quote] + UnitsText(units))
    ensures Gets(body, i, Text, i + |open| + |ChunksText(chunks)| + 1 + |UnitsText(units)|, StringState(quote))
  {
    hide Gets, ScriptStart, ChunksOk, UnitsOk, ChunksText, UnitsText;
    var head := open + ChunksText(chunks);
    assert head + [quote] + UnitsText(units) == head + ([quote] + UnitsText(units));
    SpellsBoth(body, i, head, [quote] + UnitsText(units));
    ScriptStays(body, i, open, chunks);
    var k := i + |head|;
    StringStarts(body, k, quote, units);
    GetsThen(body, i, Text, k, Script, k + 1 + |UnitsText(units)|, StringState(quote));
  }

  // ---------- what is reported ----------

  lemma TokenFollows(before: string, token: string, tail: string)
    requires IsCanary(token)
    ensures var body, k := before + token + tail, |before|;
            && OccursAt(body, token, k) && k < |body| && IsAlnum(body[k]) && Spells(body, 0, before)
  {
    CanaryIsAlnumAndUnbordered(token);
    var body := before + token + tail;
    assert body[|before|..|before| + |token|] == token;
    assert body[|before|] == token[0];
  }

  // After any well-formed document, a canary is reported with the context of
  // the place it stands in, whatever follows.
  lemma ClassifiedInDocument(pieces: seq<Piece>, place: Place, token: string, tail: string)
    requires IsCanary(token) && DocumentOk(pieces) && PlaceOk(place)
    ensures var before := DocumentText(pieces) + Lead(place);
            Reflection(ContextIn(place), |before|, "") in BulkHits(before + token + tail, token, 0, Text)
  {
    hide Gets, DocumentOk, DocumentText, PlaceOk, Lead, IsCanary, BulkHits, OccursAt, StepState;
    var n := |DocumentText(pieces)|;
    var before := DocumentText(pieces) + Lead(place);
    var body := before + token + tail;
    TokenFollows(before, token, tail);
    SpellsBoth(body, 0, DocumentText(pieces), Lead(place));
    DocumentStays(body, 0, pieces);
    PlaceReached(body, n, place);
    GetsThen(body, 0, Text, n, Text, |before|, StateIn(place));
    GotIsHit(body, token, |before|, StateIn(place));
  }

  /** The markup that leaves the place; `close` is the script end tag used. */
  function Leave(p: Place, close: string): string {
    match p
    case InWords(_) => ""
    case InTag(_) => ">"
    case InDouble(_, _) => "\">"
    case InSingle(_, _) => "'>"
    case InRemark(_) => "-->"
    case InProgram(_, _) => close
    case InString(_, _, quote, _) => [quote] + close
  }

  function Finished(p: Place, close: string): Piece {
    match p
    case InWords(text) => Words(text)
    case InTag(parts) => Markup(parts)
    case InDouble(parts, text) => Markup(parts + [Double(text)])
    case InSingle(parts, text) => Markup(parts + [Single(text)])
    case InRemark(text) => Remark(text)
    case InProgram(open, chunks) => Program(open, chunks, close)
    case InString(open, chunks, quote, units) => Program(open, chunks + [Quoted(quote, units)], close)
  }

  lemma {:induction false} PartsAppend(parts: seq<Part>, p: Part)
    ensures PartsText(parts + [p]) == PartsText(parts) + PartText(p)
  {
    if parts == [] {
      assert parts + [p] == [p] && [p][1..] == [];
    } else {
      assert (parts + [p])[1..] == parts[1..] + [p];
      PartsAppend(parts[1..], p);
    }
  }

  lemma {:induction false} ChunksAppend(chunks: seq<Chunk>, c: Chunk)
    ensures ChunksText(chunks + [c]) == ChunksText(chunks) + ChunkText(c)
  {
    if chunks == [] {
      assert chunks + [c] == [c] && [c][1..] == [];
    } else {
      assert (chunks + [c])[1..] == chunks[1..] + [c];
      ChunksAppend(chunks[1..], c);
    }
  }

  lemma FinishedIs(p: Place, close: string)
    ensures PieceText(Finished(p, close)) == Lead(p) + Leave(p, close)
  {
    hide PartsText, ChunksText, UnitsText;
    match p
    case InDouble(parts, text) =>
      PartsAppend(parts, Double(text));
      Rejoined("<", PartsText(parts), "\"", text, ">");
    case InSingle(parts, text) =>
      PartsAppend(parts, Single(text));
      Rejoined("<", PartsText(parts), "'", text, ">");
    case InString(open, chunks, quote, units) =>
      ChunksAppend(chunks, Quoted(quote, units));
      Rejoined(open, ChunksText(chunks), [quote], UnitsText(units), close);
    case _ =>
  }

  lemma Rejoined(a: string, p: string, q: string, t: string, e: string)
    ensures a + (p + (q + t + q)) + e == (a + p + q + t) + (q + e)
  {
  }

  lemma {:induction false} DocumentAppend(pieces: seq<Piece>, p: Piece)
    ensures DocumentText(pieces + [p]) == DocumentText(pieces) + PieceText(p)
  {
    if pieces == [] {
      assert pieces + [p] == [p] && [p][1..] == [];
    } else {
      assert (pieces + [p])[1..] == pieces[1..] + [p];
      DocumentAppend(pieces[1..], p);
    }
  }

  lemma StartsTagLonger(s: string, rest: string)
    requires StartsTag(s)
    ensures StartsTag(s + rest)
  {
    var t, word, mark := s + rest, "script", "<!--";
    assert forall k | 0 <= k < 6 :: 'a' <= word[k] <= 'z';
    assert forall k | 1 <= k < 4 :: mark[k] == '!' || mark[k] == '-';
    if |s| < 8 {
      var j :| 1 <= j < |s| && !IsAlnum(s[j]) && s[j] != '!' && s[j] != '-';
      assert t[1 + (j - 1)] == s[j] && t[1 + (j - 1)] != word[j - 1];
      assert j < 4 ==> t[j] != mark[j];
    } else {
      assert s == t[..|s|];
      if j :| 0 <= j < 6 && s[1 + j] != word[j] && s[1 + j] as int + 32 != word[j] as int {
        assert t[1 + j] == s[1 + j];
      }
    }
  }

  lemma FinishedOk(p: Place, close: string)
    requires PlaceOk(p) && ScriptEnd(close)
    ensures PieceOk(Finished(p, close))
  {
    hide StartsTag, ScriptStart, ScriptEnd;
    FinishedIs(p, close);
    match p
    case InTag(parts) => StartsTagLonger(Lead(p), ">");
    case InDouble(parts, text) => StartsTagLonger(Lead(p), "\">");
    case InSingle(parts, text) => StartsTagLonger(Lead(p), "'>");
    case InRemark(text) =>
      forall j: nat | j < |text + "--"| ensures !ClosesAt(text + "--", j) {
        if j + 3 <= |text| {
          assert (text + "--")[j..j + 3] == text[j..j + 3];
          assert !ClosesAt(text, j);
        } else if j + 3 <= |text| + 2 {
          assert (text + "--")[j..j + 3][2] == '-' && "-->"[2] == '>';
        }
      }
    case _ =>
  }

  // From any place of any document the markup that leaves it leads back to
  // text: a canary right after it is reported as HTML text.
  lemma BreakoutInDocument(pieces: seq<Piece>, place: Place, close: string, token: string, tail: string)
    requires IsCanary(token) && DocumentOk(pieces) && PlaceOk(place) && ScriptEnd(close)
    ensures var before := DocumentText(pieces) + Lead(place) + Leave(place, close);
            Reflection(HTMLText, |before|, "") in BulkHits(before + token + tail, token, 0, Text)
  {
    hide PieceOk, PlaceOk, ScriptEnd, IsCanary, BulkHits;
    FinishedOk(place, close);
    FinishedIs(place, close);
    DocumentAppend(pieces, Finished(place, close));
    assert PlaceOk(InWords("")) by { EmptyWords(); }
    ClassifiedInDocument(pieces + [Finished(place, close)], InWords(""), token, tail);
    var before := DocumentText(pieces) + Lead(place) + Leave(place, close);
    assert before == DocumentText(pieces) + (Lead(place) + Leave(place, close));
    assert DocumentText(pieces + [Finished(place, close)]) + Lead(InWords("")) == before;
  }

  lemma EmptyWords()
    ensures PlaceOk(InWords(""))
  {
  }
}
