/** The reflection scanner and its canaries (internal/lua_engine/reflection.go,
    internal/lua_engine/canary.go). A char stands for one byte. */
module Reflections {
  import opened Chars

  // ---------- canaries ----------

  const CANARY_PREFIX := "hpzc"
  const CANARY_HEX_LEN := 12

  predicate IsCanary(s: string) {
    && CANARY_PREFIX <= s
    && |s| - |CANARY_PREFIX| == CANARY_HEX_LEN
    && forall i | |CANARY_PREFIX| <= i < |s| :: IsLowerHex(s[i])
  }

  function HexDigit(d: nat): (c: char)
    requires d < 16
    ensures IsLowerHex(c)
  {
    if d < 10 then ('0' as int + d) as char else ('a' as int + d - 10) as char
  }

  function HexValue(c: char): (d: nat)
    requires IsLowerHex(c)
    ensures d < 16 && HexDigit(d) == c
  {
    if c <= '9' then c as int - '0' as int else c as int - 'a' as int + 10
  }

  // hex.EncodeToString on the random bytes.
  function HexEncode(b: seq<nat>): (s: string)
    requires forall k | 0 <= k < |b| :: b[k] < 256
    ensures |s| == 2 * |b|
    ensures forall i | 0 <= i < |s| :: IsLowerHex(s[i])
  {
    if b == [] then "" else
      [HexDigit(b[0] / 16), HexDigit(b[0] % 16)] + HexEncode(b[1..])
  }

  // `random` is what the platform's generator returned.
  function NewCanary(random: seq<nat>): string
    requires |random| == CANARY_HEX_LEN / 2 && forall k | 0 <= k < |random| :: random[k] < 256
  {
    CANARY_PREFIX + HexEncode(random)
  }

  function HexDecode(s: string): (b: seq<nat>)
    requires |s| % 2 == 0 && forall i | 0 <= i < |s| :: IsLowerHex(s[i])
    ensures |b| == |s| / 2 && forall k | 0 <= k < |b| :: b[k] < 256
  {
    if s == "" then [] else [16 * HexValue(s[0]) + HexValue(s[1])] + HexDecode(s[2..])
  }

  lemma {:induction false} HexRoundTrip(s: string)
    requires |s| % 2 == 0 && forall i | 0 <= i < |s| :: IsLowerHex(s[i])
    ensures HexEncode(HexDecode(s)) == s
  {
    if s != "" {
      HexRoundTrip(s[2..]);
      var b := HexDecode(s);
      assert b[1..] == HexDecode(s[2..]);
      assert b[0] / 16 == HexValue(s[0]) && b[0] % 16 == HexValue(s[1]);
      assert s == [s[0], s[1]] + s[2..];
    }
  }

  // IsCanary accepts exactly what NewCanary can mint.
  lemma CanaryShapeIsExact(s: string)
    ensures IsCanary(s) <==>
            exists b: seq<nat> :: |b| == CANARY_HEX_LEN / 2 && (forall k | 0 <= k < |b| :: b[k] < 256)
                && NewCanary(b) == s
  {
    if IsCanary(s) {
      var hex := s[|CANARY_PREFIX|..];
      forall i | 0 <= i < |hex| ensures IsLowerHex(hex[i]) { assert hex[i] == s[i + |CANARY_PREFIX|]; }
      HexRoundTrip(hex);
      assert NewCanary(HexDecode(hex)) == s;
    }
  }

  // A canary spelled out.
  lemma CanarySpelled(s: string)
    ensures IsCanary(s) <==>
            && |s| == 16 && s[0] == 'h' && s[1] == 'p' && s[2] == 'z' && s[3] == 'c'
            && forall i | 4 <= i < 16 :: '0' <= s[i] <= '9' || 'a' <= s[i] <= 'f'
  {
    if |s| == 16 && s[0] == 'h' && s[1] == 'p' && s[2] == 'z' && s[3] == 'c' { assert s[..4] == "hpzc"; }
  }

  // ---------- the context machine ----------

  datatype Context =
    | HeaderValue | HTMLText | HTMLComment | AttrDoubleQuoted | AttrSingleQuoted
    | AttrUnquoted | ScriptText | ScriptStringDouble | ScriptStringSingle

  datatype Reflection = Reflection(context: Context, offset: int, header: string)

  datatype CtxState = Text | Tag | AttrDouble | AttrSingle | Comment | Script | ScriptDouble | ScriptSingle

  function ContextOf(st: CtxState): Context {
    match st
    case Text => HTMLText
    case Tag => AttrUnquoted
    case AttrDouble => AttrDoubleQuoted
    case AttrSingle => AttrSingleQuoted
    case Comment => HTMLComment
    case Script => ScriptText
    case ScriptDouble => ScriptStringDouble
    case ScriptSingle => ScriptStringSingle
  }

  predicate HasPrefix(body: string, i: nat, prefix: string) {
    i + |prefix| <= |body| && forall j | 0 <= j < |prefix| :: body[i + j] == prefix[j]
  }

  predicate HasPrefixFold(body: string, i: nat, prefix: string) {
    i + |prefix| <= |body| && forall j | 0 <= j < |prefix| :: Fold(body[i + j]) == Fold(prefix[j])
  }

  predicate MatchesScriptOpen(body: string, i: nat) {
    HasPrefixFold(body, i, "<script") && (i + 7 >= |body| || !IsAlnum(body[i + 7]))
  }

  // First position of c at or after start, or -1.
  function IndexByteFrom(body: string, start: nat, c: char): (r: int)
    ensures r == -1 || (start <= r < |body| && body[r] == c)
    ensures forall k | start <= k < (if r == -1 then |body| else r) :: body[k] != c
    decreases |body| - start
  {
    if start >= |body| then -1
    else if body[start] == c then start
    else IndexByteFrom(body, start + 1, c)
  }

  // The next state and how many bytes were consumed: at least one, never past the end.
  function StepState(body: string, i: nat, st: CtxState): (r: (CtxState, nat))
    requires i < |body|
    ensures 1 <= r.1 && i + r.1 <= |body|
  {
    var c := body[i];
    match st
    case Text =>
      if c != '<' then (Text, 1)
      else if HasPrefix(body, i, "<!--") then (Comment, 4)
      else if MatchesScriptOpen(body, i) then
        var end := IndexByteFrom(body, i + 1, '>');
        if end < 0 then (Script, |body| - i) else (Script, end - i + 1)
      else (Tag, 1)
    case Tag =>
      if c == '>' then (Text, 1) else if c == '"' then (AttrDouble, 1) else if c == '\'' then (AttrSingle, 1)
          else (Tag, 1)
    case AttrDouble => if c == '"' then (Tag, 1) else (AttrDouble, 1)
    case AttrSingle => if c == '\'' then (Tag, 1) else (AttrSingle, 1)
    case Comment => if HasPrefix(body, i, "-->") then (Text, 3) else (Comment, 1)
    case Script =>
      if c == '"' then (ScriptDouble, 1)
      else if c == '\'' then (ScriptSingle, 1)
      else if c == '<' && HasPrefixFold(body, i, "</script") then
        var end := IndexByteFrom(body, i + 1, '>');
        if end < 0 then (Text, |body| - i) else (Text, end - i + 1)
      else (Script, 1)
    case ScriptDouble =>
      if c == '\\' && i + 1 < |body| then (ScriptDouble, 2) else if c == '"' then (Script, 1) else (ScriptDouble, 1)
    case ScriptSingle =>
      if c == '\\' && i + 1 < |body| then (ScriptSingle, 2) else if c == '\'' then (Script, 1) else (ScriptSingle, 1)
  }

  // ---------- the reference: run the machine, look for the token wherever it stops ----------

  predicate OccursAt(body: string, token: string, i: nat) {
    i + |token| <= |body| && body[i..i + |token|] == token
  }

  predicate Contains(s: string, token: string) {
    exists i | 0 <= i <= |s| :: OccursAt(s, token, i)
  }

  datatype Visit = Visit(at: nat, st: CtxState)

  // The positions the plain machine stops at, with its state there.
  function Visits(body: string, i: nat, st: CtxState): seq<Visit>
    decreases |body| - i
  {
    if i >= |body| then [] else
      var (next, advance) := StepState(body, i, st);
      [Visit(i, st)] + Visits(body, i + advance, next)
  }

  function HitsAmong(body: string, token: string, visits: seq<Visit>): seq<Reflection> {
    if visits == [] then [] else
      (if OccursAt(body, token, visits[0].at) then [Reflection(ContextOf(visits[0].st), visits[0].at, "")] else [])
      + HitsAmong(body, token, visits[1..])
  }

  function PlainHits(body: string, token: string): seq<Reflection> {
    HitsAmong(body, token, Visits(body, 0, Text))
  }

  // What the loop computes: it jumps over each hit.
  function BulkHits(body: string, token: string, i: nat, st: CtxState): seq<Reflection>
    requires token != ""
    decreases |body| - i
  {
    if i >= |body| then []
    else if OccursAt(body, token, i) then
      [Reflection(ContextOf(st), i, "")] + BulkHits(body, token, i + |token|, st)
    else
      var (next, advance) := StepState(body, i, st);
      BulkHits(body, token, i + advance, next)
  }

  function ValueHits(name: string, values: seq<string>, token: string): seq<Reflection> {
    if values == [] then [] else
      ValueHits(name, values[..|values| - 1], token)
      + if Contains(values[|values| - 1], token) then [Reflection(HeaderValue, -1, name)] else []
  }

  /** The headers in the order the map iteration yields them. */
  type Headers = seq<(string, seq<string>)>

  function HeaderHits(headers: Headers, token: string): seq<Reflection> {
    if headers == [] then [] else
      var h := headers[|headers| - 1];
      HeaderHits(headers[..|headers| - 1], token) + ValueHits(h.0, h.1, token)
  }

  method ScanHeaders(headers: Headers, token: string) returns (out: seq<Reflection>)
    ensures out == HeaderHits(headers, token)
  {
    out := [];
    for h := 0 to |headers|
      invariant out == HeaderHits(headers[..h], token)
    {
      var name, values := headers[h].0, headers[h].1;
      ghost var before := out;
      for v := 0 to |values|
        invariant out == before + ValueHits(name, values[..v], token)
      {
        assert values[..v + 1][..v] == values[..v];
        if Contains(values[v], token) { out := out + [Reflection(HeaderValue, -1, name)]; }
      }
      assert values[..|values|] == values;
      assert headers[..h + 1][..h] == headers[..h];
    }
    assert headers[..|headers|] == headers;
  }

  method ScanBody(body: string, token: string) returns (out: seq<Reflection>)
    requires token != ""
    ensures out == BulkHits(body, token, 0, Text)
  {
    out := [];
    var state := Text;
    var i := 0;
    hide StepState;
    while i < |body|
      invariant out + BulkHits(body, token, i, state) == BulkHits(body, token, 0, Text)
      decreases |body| - i
    {
      if i + |token| <= |body| && body[i..i + |token|] == token {
        out := out + [Reflection(ContextOf(state), i, "")];
        i := i + |token|;
        continue;
      }
      var (next, advance) := StepState(body, i, state);
      state := next;
      i := i + advance;
    }
  }

  method FindReflections(body: string, headers: Headers, token: string) returns (out: seq<Reflection>)
    ensures token == "" ==> out == []
    ensures token != "" ==> out == HeaderHits(headers, token) + BulkHits(body, token, 0, Text)
  {
    if token == "" { return []; }
    out := ScanHeaders(headers, token);
    var hits := ScanBody(body, token);
    out := out + hits;
  }

  predicate HasReflection(body: string, headers: Headers, token: string) {
    token != "" && (Contains(body, token) || exists h | h in headers :: exists v | v in h.1 :: Contains(v, token))
  }
}
