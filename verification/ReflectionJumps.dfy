/** What the reflection scanner passes over, and so does not report. */
module ReflectionJumps {
  import opened Chars
  import opened Reflections
  import opened ReflectionTheorems

  // k is in the script start tag that opens at `at`, before its '>'.
  predicate InStartTag(body: string, at: nat, k: nat) {
    at < k < |body| && MatchesScriptOpen(body, at) && forall j | at < j <= k :: body[j] != '>'
  }

  // k is in the script end tag that opens at `at`, before its '>'.
  predicate InEndTag(body: string, at: nat, k: nat) {
    at < k < |body| && HasPrefixFold(body, at, "</script") && forall j | at < j <= k :: body[j] != '>'
  }

  predicate Escaped(body: string, at: nat, k: nat) { k == at + 1 < |body| && body[at] == '\\' }

  // Met by the machine at v, this hides position k: a script start tag in text,
  // a script end tag in script, a backslash in a script string.
  predicate Hides(body: string, v: Visit, k: nat) {
    || (v.st == Text && InStartTag(body, v.at, k))
    || (v.st == Script && InEndTag(body, v.at, k))
    || ((v.st == ScriptDouble || v.st == ScriptSingle) && Escaped(body, v.at, k))
  }

  predicate PassesOver(body: string, v: Visit, k: nat)
    requires v.at < |body|
  {
    v.at < k < v.at + StepState(body, v.at, v.st).1
  }

  lemma OpensWithAngle(body: string, i: nat, tag: string)
    requires HasPrefixFold(body, i, tag) && tag != "" && tag[0] == '<'
    ensures body[i] == '<'
  {
    assert Fold(body[i + 0]) == Fold(tag[0]);
  }

  lemma NoAlnumIn(body: string, i: nat, mark: string)
    requires HasPrefix(body, i, mark) && forall j | 0 <= j < |mark| :: !IsAlnum(mark[j])
    ensures forall j | i <= j < i + |mark| :: !IsAlnum(body[j])
  {
    forall j | i <= j < i + |mark| ensures !IsAlnum(body[j]) { assert body[i + (j - i)] == mark[j - i]; }
  }

  // Exactly these steps pass over an alphanumeric byte.
  lemma StepPassesOver(body: string, v: Visit, k: nat)
    requires v.at < |body| && k < |body| && IsAlnum(body[k])
    ensures PassesOver(body, v, k) <==> Hides(body, v, k)
  {
    match v.st
    case Text => TextPassesOver(body, v.at, k);
    case Script =>
      if HasPrefixFold(body, v.at, "</script") { OpensWithAngle(body, v.at, "</script"); }
    case Comment =>
      if HasPrefix(body, v.at, "-->") { NoAlnumIn(body, v.at, "-->"); }
    case _ =>
  }

  lemma TextPassesOver(body: string, at: nat, k: nat)
    requires at < |body| && k < |body| && IsAlnum(body[k])
    ensures PassesOver(body, Visit(at, Text), k) <==> InStartTag(body, at, k)
  {
    if HasPrefix(body, at, "<!--") {
      NoAlnumIn(body, at, "<!--");
      assert body[at + 1] == "<!--"[1] == '!' && "<script"[1] == 's';
      assert HasPrefixFold(body, at, "<script") ==> Fold(body[at + 1]) == Fold("<script"[1]);
    } else if MatchesScriptOpen(body, at) {
      OpensWithAngle(body, at, "<script");
    }
  }

  lemma VisitsUnfold(body: string, i: nat, st: CtxState)
    requires i < |body|
    ensures var (next, advance) := StepState(body, i, st);
            Visits(body, i, st) == [Visit(i, st)] + Visits(body, i + advance, next)
  {
    hide StepState;
  }

  // Every position is where the machine stops or inside one of its steps.
  lemma {:induction false} StepAt(body: string, i: nat, st: CtxState, k: nat) returns (v: Visit)
    requires i <= k < |body|
    ensures v in Visits(body, i, st) && v.at <= k < v.at + StepState(body, v.at, v.st).1
    decreases |body| - i
  {
    hide StepState, Visits;
    var (next, advance) := StepState(body, i, st);
    VisitsUnfold(body, i, st);
    if k < i + advance { v := Visit(i, st); } else { v := StepAt(body, i + advance, next, k); }
  }

  // The machine never stops inside one of its steps.
  lemma {:induction false} StepsDoNotNest(body: string, i: nat, st: CtxState, u: Visit)
    requires u in Visits(body, i, st)
    ensures u.at < |body| && forall w | w in Visits(body, i, st) :: !PassesOver(body, u, w.at)
    decreases |body| - i
  {
    hide StepState;
    var (next, advance) := StepState(body, i, st);
    var rest := Visits(body, i + advance, next);
    assert Visits(body, i, st) == [Visit(i, st)] + rest;
    VisitsAscend(body, i + advance, next);
    if u in rest { StepsDoNotNest(body, i + advance, next, u); }
  }

  // The machine does not stop at an alphanumeric byte exactly when markup or a
  // backslash it met hides that byte.
  lemma MissedMeansHidden(body: string, k: nat)
    requires k < |body| && IsAlnum(body[k])
    ensures (forall v | v in Visits(body, 0, Text) :: v.at != k)
       <==> exists v | v in Visits(body, 0, Text) :: Hides(body, v, k)
  {
    var v := StepAt(body, 0, Text, k);
    VisitsAscend(body, 0, Text);
    hide StepState, Hides, Visits, IsAlnum;
    StepPassesOver(body, v, k);
    if u :| u in Visits(body, 0, Text) && Hides(body, u, k) {
      StepPassesOver(body, u, k);
      StepsDoNotNest(body, 0, Text, u);
    }
  }

  // An occurrence of a canary is reported, or hidden, and not both.
  lemma ReportedOrHidden(body: string, token: string, k: nat)
    requires IsCanary(token) && OccursAt(body, token, k)
    ensures (exists ctx :: Reflection(ctx, k, "") in BulkHits(body, token, 0, Text))
       <==> !exists v | v in Visits(body, 0, Text) :: Hides(body, v, k)
  {
    CanaryIsAlnumAndUnbordered(token);
    assert body[k] == body[k..k + |token|][0] == token[0];
    MissedMeansHidden(body, k);
    hide Hides, Visits, BulkHits, IsCanary, IsAlnum, OccursAt;
    forall v | v in Visits(body, 0, Text) && v.at == k
      ensures Reflection(ContextOf(v.st), k, "") in BulkHits(body, token, 0, Text)
    {
      HitsAreExact(body, token, k, ContextOf(v.st));
    }
    forall ctx | Reflection(ctx, k, "") in BulkHits(body, token, 0, Text)
      ensures exists v | v in Visits(body, 0, Text) :: v.at == k
    {
      HitsAreExact(body, token, k, ctx);
    }
  }

  // A present canary goes unreported exactly when it is in no header value and
  // every occurrence is hidden by a script tag or a backslash the machine met.
  lemma PresentButUnreported(body: string, headers: Headers, token: string)
    requires IsCanary(token) && HasReflection(body, headers, token)
    ensures HeaderHits(headers, token) + BulkHits(body, token, 0, Text) == [] <==>
            (forall h | h in headers :: forall v | v in h.1 :: !Contains(v, token))
            && forall k: nat | OccursAt(body, token, k) :: exists v | v in Visits(body, 0, Text) :: Hides(body, v, k)
  {
    HeaderHitsMeanContains(headers, token);
    var bulk := BulkHits(body, token, 0, Text);
    forall k: nat | OccursAt(body, token, k)
      ensures (exists ctx :: Reflection(ctx, k, "") in bulk)
              <==> !exists v | v in Visits(body, 0, Text) :: Hides(body, v, k)
    {
      ReportedOrHidden(body, token, k);
    }
    BulkHitsMeanOccurs(body, token, 0, Text);
    BulkHitsAreBare(body, token, 0, Text);
    hide Hides, Visits, BulkHits, HeaderHits, Contains, IsCanary;
    if bulk != [] {
      var h := bulk[0];
      assert h in bulk && h == Reflection(h.context, h.offset, "");
    }
  }

  lemma {:induction false} BulkHitsAreBare(body: string, token: string, i: nat, st: CtxState)
    requires token != ""
    ensures forall h | h in BulkHits(body, token, i, st) :: h.header == ""
    decreases |body| - i
  {
    hide StepState;
    if i < |body| {
      if OccursAt(body, token, i) {
        BulkHitsAreBare(body, token, i + |token|, st);
      } else {
        var (next, advance) := StepState(body, i, st);
        BulkHitsAreBare(body, token, i + advance, next);
      }
    }
  }

  // ---------- what a caller can check ----------

  predicate OutsideScript(st: CtxState) { st != Script && st != ScriptDouble && st != ScriptSingle }

  // Up to the first script start tag the machine stops at every alphanumeric byte.
  lemma {:induction false} StopsBeforeScript(body: string, i: nat, st: CtxState, k: nat)
    requires i <= k < |body| && IsAlnum(body[k]) && OutsideScript(st)
    requires forall j | i <= j < k :: !MatchesScriptOpen(body, j)
    ensures exists v | v in Visits(body, i, st) :: v.at == k && OutsideScript(v.st)
    decreases |body| - i
  {
    hide StepState, MatchesScriptOpen, IsAlnum, Visits;
    var (next, advance) := StepState(body, i, st);
    VisitsUnfold(body, i, st);
    if i == k {
      assert Visit(i, st) in Visits(body, i, st);
    } else {
      StepPassesOver(body, Visit(i, st), k);
      StaysOutside(body, i, st);
      StopsBeforeScript(body, i + advance, next, k);
    }
  }

  lemma StaysOutside(body: string, i: nat, st: CtxState)
    requires i < |body| && OutsideScript(st) && !MatchesScriptOpen(body, i)
    ensures OutsideScript(StepState(body, i, st).0)
  {
  }

  // A canary with no `<script` tag before it is reported, outside any script
  // context, whatever else the body holds.
  lemma BeforeScriptsAllIsReported(body: string, token: string, k: nat)
    requires IsCanary(token) && OccursAt(body, token, k)
    requires forall j | 0 <= j < k :: !MatchesScriptOpen(body, j)
    ensures exists st :: OutsideScript(st) && Reflection(ContextOf(st), k, "") in BulkHits(body, token, 0, Text)
  {
    CanaryIsAlnumAndUnbordered(token);
    assert body[k] == body[k..k + |token|][0] == token[0];
    StopsBeforeScript(body, 0, Text, k);
    hide Visits, BulkHits, IsCanary, MatchesScriptOpen, OutsideScript, OccursAt;
    var v :| v in Visits(body, 0, Text) && v.at == k && OutsideScript(v.st);
    HitsAreExact(body, token, k, ContextOf(v.st));
  }

  // In a body without script start tags FindReflections reports every canary
  // occurrence that HasReflection sees.
  lemma WithoutScriptsPresenceIsReported(body: string, headers: Headers, token: string)
    requires IsCanary(token) && forall j | 0 <= j < |body| :: !MatchesScriptOpen(body, j)
    ensures HasReflection(body, headers, token) <==> HeaderHits(headers, token) + BulkHits(body, token, 0, Text) != []
  {
    HeaderHitsMeanContains(headers, token);
    assert token != "";
    hide BulkHits, HeaderHits, IsCanary, MatchesScriptOpen;
    if HeaderHits(headers, token) + BulkHits(body, token, 0, Text) != [] { FoundMeansPresent(body, headers, token); }
    if k: nat :| k <= |body| && OccursAt(body, token, k) { BeforeScriptsAllIsReported(body, token, k); }
  }

  // A present canary the scanner does not report: one in a script start tag.
  lemma ScriptTagIsJumped(token: string)
    requires IsCanary(token)
    ensures var body := "<script src=" + token + ">";
            HasReflection(body, [], token) && BulkHits(body, token, 0, Text) == []
  {
    var body := "<script src=" + token + ">";
    assert body[12..12 + |token|] == token;
    assert OccursAt(body, token, 12);
    CanaryIsAlnumAndUnbordered(token);
    assert forall j | 0 <= j < 12 :: body[j] == "<script src="[j];
    assert !HasPrefix(body, 0, "<!--") by { assert "<!--"[1] == '!'; }
    assert HasPrefixFold(body, 0, "<script");
    forall j | 0 < j < 28 ensures body[j] != '>' {
      if j >= 12 { assert body[j] == token[j - 12]; }
    }
    FirstClose(body, 0, 28);
    assert StepState(body, 0, Text) == (Script, 29);
    assert body[..16] != token by { assert body[0] == '<' && token[0] == CANARY_PREFIX[0]; }
    assert body[0..0 + |token|] == body[..16];
  }
}
