/** The bulk skip of the reflection scanner is invisible, and the contexts it
    reports are the ones the markup around the token was written for. */
module ReflectionTheorems {
  import opened Chars
  import opened Reflections

  // ---------- alphanumeric bytes never move the machine ----------

  lemma AlnumIsInert(body: string, i: nat, st: CtxState)
    requires i < |body| && IsAlnum(body[i])
    ensures StepState(body, i, st) == (st, 1)
  {
    if st == Comment { assert "-->"[0] == '-'; }
  }

  predicate Alnum(token: string) { token != "" && forall i | 0 <= i < |token| :: IsAlnum(token[i]) }

  // No proper suffix of the token is also a prefix of it.
  ghost predicate Unbordered(token: string) {
    forall k | 0 < k < |token| :: token[k..] != token[..|token| - k]
  }

  lemma CanaryIsAlnumAndUnbordered(s: string)
    requires IsCanary(s)
    ensures Alnum(s) && Unbordered(s)
  {
    forall i | 0 <= i < |s| ensures IsAlnum(s[i]) {
      if i < 4 { assert s[i] == CANARY_PREFIX[i]; }
    }
    forall k | 0 < k < |s| ensures s[k..] != s[..|s| - k] {
      assert s[k..][0] == s[k] && s[..|s| - k][0] == s[0] == CANARY_PREFIX[0];
      if k < 4 { assert s[k] == CANARY_PREFIX[k]; }
    }
  }

  // An unbordered token does not occur again inside itself.
  lemma NoOverlap(body: string, token: string, i: nat, k: nat)
    requires Unbordered(token) && OccursAt(body, token, i) && 0 < k < |token|
    ensures !OccursAt(body, token, i + k)
  {
    if i + k + |token| <= |body| {
      var overlap := body[i + k..i + |token|];
      assert body[i..i + |token|][k..] == overlap;
      assert body[i + k..i + k + |token|][..|token| - k] == overlap;
    }
  }

  // ---------- the bulk skip refines the plain run ----------

  // Stepping through the rest of an occurrence finds nothing and keeps the state.
  lemma {:induction false} PlainOverToken(body: string, token: string, i: nat, k: nat, st: CtxState)
    requires Alnum(token) && Unbordered(token) && OccursAt(body, token, i) && 0 < k <= |token|
    ensures HitsAmong(body, token, Visits(body, i + k, st)) == HitsAmong(body, token, Visits(body, i + |token|, st))
    decreases |token| - k
  {
    hide StepState;
    if k < |token| {
      assert body[i + k] == body[i..i + |token|][k] == token[k];
      AlnumIsInert(body, i + k, st);
      NoOverlap(body, token, i, k);
      PlainOverToken(body, token, i, k + 1, st);
      assert Visits(body, i + k, st) == [Visit(i + k, st)] + Visits(body, i + k + 1, st);
    }
  }

  lemma {:induction false} BulkFromHere(body: string, token: string, i: nat, st: CtxState)
    requires Alnum(token) && Unbordered(token)
    ensures BulkHits(body, token, i, st) == HitsAmong(body, token, Visits(body, i, st))
    decreases |body| - i
  {
    hide StepState, Unbordered;
    if i < |body| {
      var (next, advance) := StepState(body, i, st);
      var visits := Visits(body, i, st);
      assert visits[0] == Visit(i, st) && visits[1..] == Visits(body, i + advance, next);
      if OccursAt(body, token, i) {
        assert body[i] == body[i..i + |token|][0] == token[0];
        AlnumIsInert(body, i, st);
        PlainOverToken(body, token, i, 1, st);
        BulkFromHere(body, token, i + |token|, st);
      } else {
        BulkFromHere(body, token, i + advance, next);
      }
    }
  }

  // For every body and every canary the reported body hits are those of the
  // plain run: the skip is invisible.
  lemma BulkSkipIsInvisible(body: string, token: string)
    requires IsCanary(token)
    ensures BulkHits(body, token, 0, Text) == PlainHits(body, token)
  {
    CanaryIsAlnumAndUnbordered(token);
    BulkFromHere(body, token, 0, Text);
  }

  lemma {:induction false} BulkOffsets(body: string, token: string, i: nat, st: CtxState)
    requires token != ""
    ensures forall h | h in BulkHits(body, token, i, st) :: h.offset >= i
    decreases |body| - i
  {
    if i < |body| {
      if OccursAt(body, token, i) {
        BulkOffsets(body, token, i + |token|, st);
      } else {
        var (next, advance) := StepState(body, i, st);
        BulkOffsets(body, token, i + advance, next);
      }
    }
  }

  lemma {:induction false} AlnumRunVisitsAll(body: string, i: nat, st: CtxState, k: nat)
    requires (forall j | 0 <= j < |body| :: IsAlnum(body[j])) && i <= k < |body|
    ensures Visit(k, st) in Visits(body, i, st)
    decreases k - i
  {
    AlnumIsInert(body, i, st);
    assert Visits(body, i, st) == [Visit(i, st)] + Visits(body, i + 1, st);
    if i < k { AlnumRunVisitsAll(body, i + 1, st, k); }
  }

  lemma {:induction false} HitsAreVisits(body: string, token: string, visits: seq<Visit>)
    ensures forall o: int, ctx, header :: Reflection(ctx, o, header) in HitsAmong(body, token, visits) <==>
              header == "" && exists v | v in visits ::
                  v.at == o && ContextOf(v.st) == ctx && OccursAt(body, token, v.at)
  {
    if visits != [] {
      HitsAreVisits(body, token, visits[1..]);
      assert visits == [visits[0]] + visits[1..];
    }
  }

  // Exactly when the skip is invisible for an alphanumeric token: no border.
  lemma BulkSkipCondition(token: string)
    requires Alnum(token)
    ensures (forall body :: BulkHits(body, token, 0, Text) == PlainHits(body, token)) <==> Unbordered(token)
  {
    if Unbordered(token) {
      forall body ensures BulkHits(body, token, 0, Text) == PlainHits(body, token) {
        BulkFromHere(body, token, 0, Text);
      }
    } else {
      var k :| 0 < k < |token| && token[k..] == token[..|token| - k];
      var body := token[..k] + token;
      assert body[..|token|] == token[..k] + token[..|token| - k] == token;
      assert body[k..k + |token|] == token;
      assert OccursAt(body, token, 0) && OccursAt(body, token, k);
      forall j | 0 <= j < |body| ensures IsAlnum(body[j]) {}
      AlnumRunVisitsAll(body, 0, Text, k);
      HitsAreVisits(body, token, Visits(body, 0, Text));
      assert Visit(k, Text) in Visits(body, 0, Text);
      assert Reflection(HTMLText, k, "") in PlainHits(body, token);
      BulkOffsets(body, token, |token|, Text);
      assert BulkHits(body, token, 0, Text) == [Reflection(HTMLText, 0, "")] + BulkHits(body, token, |token|, Text);
      assert Reflection(HTMLText, k, "") !in BulkHits(body, token, 0, Text);
    }
  }

  // Stated by position: a canary is reported at an offset, with a context, iff
  // the plain run stops there in that context and the canary is there.
  lemma HitsAreExact(body: string, token: string, offset: int, ctx: Context)
    requires IsCanary(token)
    ensures Reflection(ctx, offset, "") in BulkHits(body, token, 0, Text) <==>
            exists v | v in Visits(body, 0, Text) ::
                v.at == offset && ContextOf(v.st) == ctx && OccursAt(body, token, v.at)
  {
    BulkSkipIsInvisible(body, token);
    HitsAreVisits(body, token, Visits(body, 0, Text));
  }

  lemma {:induction false} VisitsAscend(body: string, i: nat, st: CtxState)
    ensures forall v | v in Visits(body, i, st) :: i <= v.at < |body|
    ensures forall a, b | 0 <= a < b < |Visits(body, i, st)| :: Visits(body, i, st)[a].at < Visits(body, i, st)[b].at
    decreases |body| - i
  {
    if i < |body| {
      var (next, advance) := StepState(body, i, st);
      VisitsAscend(body, i + advance, next);
      var rest := Visits(body, i + advance, next);
      assert Visits(body, i, st) == [Visit(i, st)] + rest;
      forall b | 0 <= b < |rest| ensures i < rest[b].at { assert rest[b] in rest; }
    }
  }

  // ---------- presence ----------

  lemma {:induction false} ValueHitsMeanContains(name: string, values: seq<string>, token: string)
    ensures ValueHits(name, values, token) != [] <==> exists v | v in values :: Contains(v, token)
  {
    if values != [] {
      var front, last := values[..|values| - 1], values[|values| - 1];
      assert values == front + [last];
      ValueHitsMeanContains(name, front, token);
    }
  }

  lemma {:induction false} HeaderHitsMeanContains(headers: Headers, token: string)
    ensures HeaderHits(headers, token) != [] <==> exists h | h in headers :: exists v | v in h.1 :: Contains(v, token)
  {
    if headers != [] {
      var front, last := headers[..|headers| - 1], headers[|headers| - 1];
      assert headers == front + [last];
      HeaderHitsMeanContains(front, token);
      ValueHitsMeanContains(last.0, last.1, token);
    }
  }

  lemma {:induction false} ValueHitsSplit(name: string, a: seq<string>, b: seq<string>, token: string)
    ensures ValueHits(name, a + b, token) == ValueHits(name, a, token) + ValueHits(name, b, token)
    decreases |b|
  {
    if b == [] {
      assert a + b == a;
    } else {
      var front := b[..|b| - 1];
      assert (a + b)[..|a + b| - 1] == a + front;
      ValueHitsSplit(name, a, front, token);
    }
  }

  lemma {:induction false} HeaderHitsSplit(a: Headers, b: Headers, token: string)
    ensures HeaderHits(a + b, token) == HeaderHits(a, token) + HeaderHits(b, token)
    decreases |b|
  {
    hide ValueHits;
    if b == [] {
      assert a + b == a;
    } else {
      var front := b[..|b| - 1];
      assert (a + b)[..|a + b| - 1] == a + front;
      HeaderHitsSplit(a, front, token);
    }
  }

  // Headers and their values are looked at in order, each for itself: a value
  // with the token gives one hit without a position, under the header's name.
  lemma HeaderHitsAre(a: Headers, b: Headers, name: string, values: seq<string>, value: string, token: string)
    ensures HeaderHits(a + [(name, values + [value])] + b, token)
         == HeaderHits(a + [(name, values)], token)
            + (if Contains(value, token) then [Reflection(HeaderValue, -1, name)] else [])
            + HeaderHits(b, token)
    ensures HeaderHits([], token) == [] && HeaderHits([(name, [])], token) == []
  {
    var h, g := (name, values + [value]), (name, values);
    HeaderHitsSplit(a + [h], b, token);
    HeaderHitsSplit(a, [h], token);
    HeaderHitsSplit(a, [g], token);
    ValueHitsSplit(name, values, [value], token);
    assert [h][..0] == [] && [g][..0] == [] && [value][..0] == [];
  }

  lemma {:induction false} BulkHitsMeanOccurs(body: string, token: string, i: nat, st: CtxState)
    requires token != ""
    ensures forall h | h in BulkHits(body, token, i, st) :: 0 <= h.offset <= |body| && OccursAt(body, token, h.offset)
    decreases |body| - i
  {
    if i < |body| {
      if OccursAt(body, token, i) {
        BulkHitsMeanOccurs(body, token, i + |token|, st);
      } else {
        var (next, advance) := StepState(body, i, st);
        BulkHitsMeanOccurs(body, token, i + advance, next);
      }
    }
  }

  // Any reported reflection implies HasReflection, for any token at all.
  lemma FoundMeansPresent(body: string, headers: Headers, token: string)
    requires token != "" && HeaderHits(headers, token) + BulkHits(body, token, 0, Text) != []
    ensures HasReflection(body, headers, token)
  {
    HeaderHitsMeanContains(headers, token);
    BulkHitsMeanOccurs(body, token, 0, Text);
    var bulk := BulkHits(body, token, 0, Text);
    if bulk != [] { assert bulk[0] in bulk && OccursAt(body, token, bulk[0].offset); }
  }

  // ---------- contexts mean what the markup says ----------

  /** Markup that opens each context, and markup that leads back out of it. */
  function Opening(st: CtxState): string {
    match st
    case Text => ""
    case Tag => "<a "
    case AttrDouble => "<a b=\""
    case AttrSingle => "<a b='"
    case Comment => "<!--"
    case Script => "<script>"
    case ScriptDouble => "<script>\""
    case ScriptSingle => "<script>'"
  }

  function Breakout(st: CtxState): string {
    match st
    case Text => ""
    case Tag => ">"
    case AttrDouble => "\">"
    case AttrSingle => "'>"
    case Comment => "-->"
    case Script => "</script>"
    case ScriptDouble => "\"</script>"
    case ScriptSingle => "'</script>"
  }

  // Characters that cannot end the context.
  predicate Confined(st: CtxState, c: char) {
    match st
    case Text => c != '<'
    case Tag => c != '>' && c != '"' && c != '\''
    case AttrDouble => c != '"'
    case AttrSingle => c != '\''
    case Comment => c != '-'
    case Script => c != '"' && c != '\'' && c != '<'
    case ScriptDouble => c != '"' && c != '\\'
    case ScriptSingle => c != '\'' && c != '\\'
  }

  // The machine, started at i in st, stops at k in state to.
  ghost predicate Gets(body: string, i: nat, st: CtxState, k: nat, to: CtxState) {
    exists pre: seq<Visit> :: Visits(body, i, st) == pre + Visits(body, k, to)
  }

  lemma GetsStep(body: string, i: nat, st: CtxState, mid: nat, via: CtxState, k: nat, to: CtxState)
    requires i < |body| && StepState(body, i, st) == (via, mid - i) && i < mid && Gets(body, mid, via, k, to)
    ensures Gets(body, i, st, k, to)
  {
    hide StepState;
    var pre :| Visits(body, mid, via) == pre + Visits(body, k, to);
    assert Visits(body, i, st) == ([Visit(i, st)] + pre) + Visits(body, k, to);
  }

  lemma GetsHere(body: string, i: nat, st: CtxState)
    ensures Gets(body, i, st, i, st)
  {
    assert Visits(body, i, st) == [] + Visits(body, i, st);
  }

  lemma GetsThen(body: string, i: nat, st: CtxState, mid: nat, via: CtxState, k: nat, to: CtxState)
    requires Gets(body, i, st, mid, via) && Gets(body, mid, via, k, to)
    ensures Gets(body, i, st, k, to)
  {
    var p :| Visits(body, i, st) == p + Visits(body, mid, via);
    var q :| Visits(body, mid, via) == q + Visits(body, k, to);
    assert Visits(body, i, st) == (p + q) + Visits(body, k, to);
  }

  lemma {:induction false} FillerStays(body: string, i: nat, k: nat, st: CtxState)
    requires i <= k <= |body| && forall j | i <= j < k :: Confined(st, body[j])
    ensures Gets(body, i, st, k, st)
    decreases k - i
  {
    if i == k {
      GetsHere(body, i, st);
    } else {
      FillerStays(body, i + 1, k, st);
      if st == Comment { assert "-->"[0] == '-'; }
      GetsStep(body, i, st, i + 1, st, k, st);
    }
  }

  ghost predicate Spells(body: string, i: nat, s: string) {
    i + |s| <= |body| && forall j | i <= j < i + |s| :: body[j] == s[j - i]
  }

  lemma FirstClose(body: string, i: nat, end: nat)
    requires i < end < |body| && body[end] == '>' && forall j | i < j < end :: body[j] != '>'
    ensures IndexByteFrom(body, i + 1, '>') == end
  {
  }

  lemma ScriptOpens(body: string, i: nat)
    requires Spells(body, i, "<script>")
    ensures StepState(body, i, Text) == (Script, 8)
  {
    var s := "<script>";
    assert forall j | 0 <= j < 8 :: body[i + j] == s[j];
    assert !HasPrefix(body, i, "<!--") by { assert body[i + 1] == 's' && "<!--"[1] == '!'; }
    assert HasPrefixFold(body, i, "<script");
    forall j | i < j < i + 7 ensures body[j] != '>' { assert body[j] == s[j - i]; }
    FirstClose(body, i, i + 7);
  }

  lemma ScriptCloses(body: string, i: nat)
    requires Spells(body, i, "</script>")
    ensures StepState(body, i, Script) == (Text, 9)
  {
    var s := "</script>";
    assert forall j | 0 <= j < 9 :: body[i + j] == s[j];
    assert HasPrefixFold(body, i, "</script");
    forall j | i < j < i + 8 ensures body[j] != '>' { assert body[j] == s[j - i]; }
    FirstClose(body, i, i + 8);
  }

  lemma TagOpens(body: string, i: nat)
    requires Spells(body, i, "<a ")
    ensures Gets(body, i, Text, i + 3, Tag)
  {
    var s := "<a ";
    assert body[i] == s[0] && body[i + 1] == s[1] && body[i + 2] == s[2];
    assert !HasPrefix(body, i, "<!--") by { assert "<!--"[1] == '!'; }
    assert !HasPrefixFold(body, i, "<script") by {
      assert Fold(body[i + 1]) == 'a' && Fold("<script"[1]) == 's';
    }
    GetsHere(body, i + 3, Tag);
    GetsStep(body, i + 2, Tag, i + 3, Tag, i + 3, Tag);
    GetsStep(body, i + 1, Tag, i + 2, Tag, i + 3, Tag);
    GetsStep(body, i, Text, i + 1, Tag, i + 3, Tag);
  }

  // After its opening markup the machine is in the context.
  lemma OpeningReaches(body: string, st: CtxState)
    requires Spells(body, 0, Opening(st))
    ensures Gets(body, 0, Text, |Opening(st)|, st)
  {
    var s := Opening(st);
    var n := |s|;
    assert forall j | 0 <= j < n :: body[0 + j] == s[j];
    GetsHere(body, n, st);
    match st
    case Text =>
    case Tag => TagOpens(body, 0);
    case AttrDouble => AttributeOpens(body, '"', st);
    case AttrSingle => AttributeOpens(body, '\'', st);
    case Comment => GetsStep(body, 0, Text, 4, Comment, 4, Comment);
    case Script => ScriptOpens(body, 0); GetsStep(body, 0, Text, 8, Script, 8, Script);
    case ScriptDouble => StringOpens(body, '"', st);
    case ScriptSingle => StringOpens(body, '\'', st);
  }

  lemma AttributeOpens(body: string, quote: char, st: CtxState)
    requires (quote == '"' && st == AttrDouble) || (quote == '\'' && st == AttrSingle)
    requires Spells(body, 0, "<a b=" + [quote])
    ensures Gets(body, 0, Text, 6, st)
  {
    var s := "<a b=" + [quote];
    assert forall j | 0 <= j < 6 :: body[0 + j] == s[j];
    assert forall j | 0 <= j < 3 :: "<a "[j] == s[j];
    TagOpens(body, 0);
    assert body[3] == 'b' && body[4] == '=' && body[5] == quote;
    GetsHere(body, 6, st);
    GetsStep(body, 5, Tag, 6, st, 6, st);
    GetsStep(body, 4, Tag, 5, Tag, 6, st);
    GetsStep(body, 3, Tag, 4, Tag, 6, st);
    GetsThen(body, 0, Text, 3, Tag, 6, st);
  }

  lemma StringOpens(body: string, quote: char, st: CtxState)
    requires (quote == '"' && st == ScriptDouble) || (quote == '\'' && st == ScriptSingle)
    requires Spells(body, 0, "<script>" + [quote])
    ensures Gets(body, 0, Text, 9, st)
  {
    var s := "<script>" + [quote];
    assert forall j | 0 <= j < 9 :: body[0 + j] == s[j];
    assert forall j | 0 <= j < 8 :: "<script>"[j] == s[j];
    ScriptOpens(body, 0);
    assert body[8] == quote;
    GetsHere(body, 9, st);
    GetsStep(body, 8, Script, 9, st, 9, st);
    GetsStep(body, 0, Text, 8, Script, 9, st);
  }

  // After its breakout markup the machine is back in text.
  lemma BreakoutLeaves(body: string, i: nat, st: CtxState)
    requires Spells(body, i, Breakout(st))
    ensures Gets(body, i, st, i + |Breakout(st)|, Text)
  {
    var s := Breakout(st);
    var n := |s|;
    assert forall j | 0 <= j < n :: body[i + j] == s[j];
    GetsHere(body, i + n, Text);
    match st
    case Text =>
    case Tag => GetsStep(body, i, Tag, i + 1, Text, i + 1, Text);
    case AttrDouble => AttributeLeaves(body, i, st);
    case AttrSingle => AttributeLeaves(body, i, st);
    case Comment => GetsStep(body, i, Comment, i + 3, Text, i + 3, Text);
    case Script => ScriptCloses(body, i); GetsStep(body, i, Script, i + 9, Text, i + 9, Text);
    case ScriptDouble => StringLeaves(body, i, st);
    case ScriptSingle => StringLeaves(body, i, st);
  }

  lemma AttributeLeaves(body: string, i: nat, st: CtxState)
    requires (st == AttrDouble && Spells(body, i, "\">")) || (st == AttrSingle && Spells(body, i, "'>"))
    ensures Gets(body, i, st, i + 2, Text)
  {
    assert body[i + 0] == body[i] && body[i + 1] == '>';
    GetsHere(body, i + 2, Text);
    GetsStep(body, i + 1, Tag, i + 2, Text, i + 2, Text);
    GetsStep(body, i, st, i + 1, Tag, i + 2, Text);
  }

  lemma StringLeaves(body: string, i: nat, st: CtxState)
    requires (st == ScriptDouble && Spells(body, i, "\"</script>"))
             || (st == ScriptSingle && Spells(body, i, "'</script>"))
    ensures Gets(body, i, st, i + 10, Text)
  {
    QuoteLeaves(body, i, st);
    hide *;
    ScriptCloses(body, i + 1);
    GetsHere(body, i + 10, Text);
    GetsStep(body, i + 1, Script, i + 10, Text, i + 10, Text);
    GetsStep(body, i, st, i + 1, Script, i + 10, Text);
  }

  lemma QuoteLeaves(body: string, i: nat, st: CtxState)
    requires (st == ScriptDouble && Spells(body, i, "\"</script>"))
             || (st == ScriptSingle && Spells(body, i, "'</script>"))
    ensures StepState(body, i, st) == (Script, 1) && Spells(body, i + 1, "</script>")
  {
    hide HasPrefix, HasPrefixFold, MatchesScriptOpen;
    var s, t := if st == ScriptDouble then "\"</script>" else "'</script>", "</script>";
    assert s[1..] == t;
    assert body[i] == s[0];
    forall j | i + 1 <= j < i + 10 ensures body[j] == t[j - i - 1] { assert body[j] == s[j - i] == s[1..][j - i - 1]; }
  }

  lemma GotIsHit(body: string, token: string, k: nat, st: CtxState)
    requires IsCanary(token) && OccursAt(body, token, k) && Gets(body, 0, Text, k, st)
    ensures Reflection(ContextOf(st), k, "") in BulkHits(body, token, 0, Text)
  {
    var pre :| Visits(body, 0, Text) == pre + Visits(body, k, st);
    assert Visits(body, k, st)[0] == Visit(k, st);
    assert Visit(k, st) in Visits(body, 0, Text);
    HitsAreExact(body, token, k, ContextOf(st));
  }

  lemma ReachesThrough(body: string, st: CtxState, m: nat)
    requires Spells(body, 0, Opening(st)) && |Opening(st)| <= m <= |body|
    requires forall j | |Opening(st)| <= j < m :: Confined(st, body[j])
    ensures Gets(body, 0, Text, m, st)
  {
    hide Gets, Confined, Spells, Opening;
    OpeningReaches(body, st);
    FillerStays(body, |Opening(st)|, m, st);
    GetsThen(body, 0, Text, |Opening(st)|, st, m, st);
  }

  // A canary written into a context, after any filler that stays in it, is
  // reported there with that context, whatever follows.
  lemma ClassifiedAsWritten(st: CtxState, filler: string, token: string, tail: string)
    requires IsCanary(token) && forall j | 0 <= j < |filler| :: Confined(st, filler[j])
    ensures var body := Opening(st) + filler + token + tail;
            Reflection(ContextOf(st), |Opening(st)| + |filler|, "") in BulkHits(body, token, 0, Text)
  {
    hide Opening, Confined, Gets, IsCanary, BulkHits, ContextOf;
    var body := Opening(st) + filler + token + tail;
    var n, k := |Opening(st)|, |Opening(st)| + |filler|;
    forall j | n <= j < k ensures Confined(st, body[j]) { assert body[j] == filler[j - n]; }
    ReachesThrough(body, st, k);
    assert body[k..k + |token|] == token;
    GotIsHit(body, token, k, st);
  }

  // The breakout bytes documented for a context lead back to plain text: a
  // canary right after them is reported as HTML text.
  lemma BreakoutReachesText(st: CtxState, filler: string, token: string, tail: string)
    requires IsCanary(token) && forall j | 0 <= j < |filler| :: Confined(st, filler[j])
    ensures var body := Opening(st) + filler + Breakout(st) + token + tail;
            Reflection(HTMLText, |Opening(st)| + |filler| + |Breakout(st)|, "") in BulkHits(body, token, 0, Text)
  {
    hide Opening, Breakout, Confined, Gets, IsCanary, BulkHits;
    var body := Opening(st) + filler + Breakout(st) + token + tail;
    var n, m := |Opening(st)|, |Opening(st)| + |filler|;
    var k := m + |Breakout(st)|;
    forall j | n <= j < m ensures Confined(st, body[j]) { assert body[j] == filler[j - n]; }
    ReachesThrough(body, st, m);
    assert Spells(body, m, Breakout(st));
    BreakoutLeaves(body, m, st);
    GetsThen(body, 0, Text, m, st, k, Text);
    assert body[k..k + |token|] == token;
    GotIsHit(body, token, k, Text);
  }
}
