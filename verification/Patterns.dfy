/** Identifier families and their classification
    (internal/lua_engine/checks/access/idor_patterns.go). A char stands for one byte. */
module Patterns {
  import opened Chars
  import opened Options
  import opened Shapes

  datatype Family = Numeric | Uuid | MongoId | Hex | Email | Username | Slug | Base64ish

  datatype Pattern = Builtin(family: Family) | Learned(shape: string)

  function Name(p: Pattern): string {
    match p
    case Builtin(Numeric) => "numeric"
    case Builtin(Uuid) => "uuid"
    case Builtin(MongoId) => "mongoid"
    case Builtin(Hex) => "hex"
    case Builtin(Email) => "email"
    case Builtin(Username) => "username"
    case Builtin(Slug) => "slug"
    case Builtin(Base64ish) => "base64ish"
    case Learned(shape) => "learned:" + shape
  }

  function Precedence(p: Pattern): int {
    match p
    case Builtin(Numeric) => 100
    case Builtin(Uuid) => 90
    case Builtin(MongoId) => 80
    case Builtin(Email) => 70
    case Builtin(Hex) => 60
    case Builtin(Username) => 50
    case Builtin(Slug) => 40
    case Learned(_) => 30
    case Builtin(Base64ish) => 10
  }

  // ---------- the regular expressions ----------

  predicate ReNumeric(v: string) { 1 <= |v| <= 12 && forall i | 0 <= i < |v| :: IsDigit(v[i]) }

  predicate ReUuid(v: string) {
    |v| == 36 && forall i | 0 <= i < 36 :: if i == 8 || i == 13 || i == 18 || i == 23 then v[i] == '-' else IsHex(v[i])
  }

  predicate ReMongoId(v: string) { |v| == 24 && forall i | 0 <= i < |v| :: IsHex(v[i]) }

  predicate ReHex(v: string) { |v| >= 8 && forall i | 0 <= i < |v| :: IsHex(v[i]) }

  predicate ReSlug(v: string) {
    && 1 <= |v| <= 64
    && (IsLower(v[0]) || IsDigit(v[0])) && (IsLower(v[|v| - 1]) || IsDigit(v[|v| - 1]))
    && forall i | 0 < i < |v| - 1 :: IsLower(v[i]) || IsDigit(v[i]) || v[i] == '_' || v[i] == '-'
  }

  predicate ReUsername(v: string) {
    2 <= |v| <= 32 &&
    forall i | 0 <= i < |v| :: IsLower(v[i]) || IsUpper(v[i]) || IsDigit(v[i]) || v[i] == '_' || v[i] == '.'
        || v[i] == '-'
  }

  predicate MailChar(c: char) { c != '@' && c != ' ' && c != '\t' && c != '\n' && c != '\U{0C}' && c != '\r' }

  predicate ReEmail(v: string) {
    exists at, dot | 0 < at < |v| && at + 1 < dot < |v| - 1 ::
      v[at] == '@' && v[dot] == '.' && forall i | 0 <= i < |v| && i != at :: MailChar(v[i])
  }

  predicate Base64Char(c: char) {
    IsLower(c) || IsUpper(c) || IsDigit(c) || c == '+' || c == '/' || c == '=' || c == '_' || c == '-'
  }

  predicate ReBase64ish(v: string) { |v| >= 16 && forall i | 0 <= i < |v| :: Base64Char(v[i]) }

  predicate Matches(f: Family, v: string) {
    match f
    case Numeric => ReNumeric(v)
    case Uuid => ReUuid(v)
    case MongoId => ReMongoId(v)
    case Hex => !ReMongoId(v) && ReHex(v) && !ReUuid(v)
    case Email => ReEmail(v)
    case Username => ReUsername(v)
    case Slug => !ReNumeric(v) && ReSlug(v)
    case Base64ish => !(ReUuid(v) || ReMongoId(v) || ReHex(v) || ReEmail(v)) && ReBase64ish(v)
  }

  // ---------- classification ----------

  function ToLower(s: string): (r: string)
    ensures |r| == |s|
  {
    if s == "" then "" else [Fold(s[0])] + ToLower(s[1..])
  }

  const USERNAME_HINTS := {"user", "username", "account", "owner", "handle", "login", "profile", "member", "author"}

  predicate UsernameHint(name: string) { ToLower(name) in USERNAME_HINTS }

  // The pattern takes the value of a parameter with this name.
  predicate Accepts(p: Pattern, name: string, value: string) {
    match p
    case Builtin(f) => Matches(f, value) && (f == Username ==> UsernameHint(name))
    case Learned(shape) => Signature(value) == shape
  }

  const BUILTINS: seq<Pattern> :=
    [Builtin(Numeric), Builtin(Uuid), Builtin(MongoId), Builtin(Hex),
     Builtin(Email), Builtin(Username), Builtin(Slug), Builtin(Base64ish)]

  function Consider(best: Option<Pattern>, p: Pattern, name: string, value: string): Option<Pattern> {
    if Accepts(p, name, value) && (best.None? || Precedence(p) > Precedence(best.value)) then Some(p) else best
  }

  function Best(ps: seq<Pattern>, name: string, value: string): Option<Pattern> {
    if ps == [] then None else Consider(Best(ps[..|ps| - 1], name, value), ps[|ps| - 1], name, value)
  }

  method ClassifyValue(name: string, value: string, learned: seq<Pattern>) returns (best: Option<Pattern>)
    ensures best == Best(BUILTINS + learned, name, value)
  {
    hide Accepts, Precedence;
    best := None;
    for i := 0 to |BUILTINS|
      invariant best == Best(BUILTINS[..i], name, value)
    {
      assert BUILTINS[..i + 1] == BUILTINS[..i] + [BUILTINS[i]];
      best := Consider(best, BUILTINS[i], name, value);
    }
    assert BUILTINS + learned[..0] == BUILTINS[..|BUILTINS|];
    for i := 0 to |learned|
      invariant best == Best(BUILTINS + learned[..i], name, value)
    {
      assert BUILTINS + learned[..i + 1] == BUILTINS + learned[..i] + [learned[i]];
      best := Consider(best, learned[i], name, value);
    }
    assert BUILTINS + learned[..|learned|] == BUILTINS + learned;
  }

  // The result is an accepting pattern of the highest precedence.
  lemma {:induction false} BestIsHighest(ps: seq<Pattern>, name: string, value: string)
    ensures match Best(ps, name, value)
            case None => forall q | q in ps :: !Accepts(q, name, value)
            case Some(p) => p in ps && Accepts(p, name, value)
                            && forall q | q in ps && Accepts(q, name, value) :: Precedence(q) <= Precedence(p)
  {
    if ps != [] {
      var front, last := ps[..|ps| - 1], ps[|ps| - 1];
      BestIsHighest(front, name, value);
      hide Accepts, Precedence;
      assert ps == front + [last];
    }
  }

  // At most one learned pattern matches a value, and matching patterns have
  // distinct precedences.
  lemma PrecedenceDecides(p: Pattern, q: Pattern, name: string, value: string)
    requires Accepts(p, name, value) && Accepts(q, name, value) && Precedence(p) == Precedence(q)
    ensures p == q
  {
  }

  // Any reordering of the patterns classifies alike.
  lemma OrderDoesNotMatter(ps: seq<Pattern>, qs: seq<Pattern>, name: string, value: string)
    requires forall p :: p in ps <==> p in qs
    ensures Best(ps, name, value) == Best(qs, name, value)
  {
    BestIsHighest(ps, name, value);
    BestIsHighest(qs, name, value);
    hide Accepts, Precedence, Best;
    var x, y := Best(ps, name, value), Best(qs, name, value);
    if x.Some? && y.Some? { PrecedenceDecides(x.value, y.value, name, value); }
  }

  // Which built-in family a value gets when several would take it: the first of
  // these rules that applies.
  function FamilyByRule(name: string, value: string): Option<Pattern> {
    var digits := forall i | 0 <= i < |value| :: '0' <= value[i] <= '9';
    var hex := forall i | 0 <= i < |value| :: IsHex(value[i]);
    if digits && 1 <= |value| <= 12 then Some(Builtin(Numeric))
    else if ReUuid(value) then Some(Builtin(Uuid))
    else if hex && |value| == 24 then Some(Builtin(MongoId))
    else if hex && |value| >= 8 then Some(Builtin(Hex))
    else if ReEmail(value) then Some(Builtin(Email))
    else if UsernameHint(name) && ReUsername(value) then Some(Builtin(Username))
    else if ReSlug(value) then Some(Builtin(Slug))
    else if ReBase64ish(value) then Some(Builtin(Base64ish))
    else None
  }

  lemma BestBuiltinIsByRule(name: string, value: string)
    ensures Best(BUILTINS, name, value) == FamilyByRule(name, value)
  {
    BestIsHighest(BUILTINS, name, value);
    hide Best;
    var rule := FamilyByRule(name, value);
    if rule.Some? { assert rule.value in BUILTINS && Accepts(rule.value, name, value); }
  }

  // ---------- learned patterns against the built-in ones ----------

  predicate SomeBuiltin(name: string, value: string) { exists p | p in BUILTINS :: Accepts(p, name, value) }

  // Text of the catch-all's alphabet always has a built-in family.
  lemma CatchAllHasFamily(name: string, value: string)
    requires ReBase64ish(value)
    ensures SomeBuiltin(name, value)
  {
    var f := if ReUuid(value) then Uuid else if ReMongoId(value) then MongoId
             else if ReHex(value) then Hex else if ReEmail(value) then Email else Base64ish;
    hide ReBase64ish, ReUuid, ReMongoId, ReHex, ReEmail;
    assert Accepts(Builtin(f), name, value);
  }

  // Membership in that alphabet is a matter of shape.
  lemma CatchAllIsShaped(v: string, w: string)
    requires Signature(v) == Signature(w)
    ensures ReBase64ish(v) <==> ReBase64ish(w)
  {
    SameSignature(v, w);
    forall i | 0 <= i < |v| ensures Base64Char(v[i]) <==> Base64Char(w[i]) {
      assert Base64Char(v[i]) <==> Base64Char(ClassOf(v[i]));
      assert Base64Char(w[i]) <==> Base64Char(ClassOf(w[i]));
    }
  }

  // No learned shape is one the catch-all could match.
  predicate ClearOfCatchAll(learned: seq<Pattern>) {
    forall p | p in learned :: p.Learned? && !ReBase64ish(p.shape)
  }

  // Then a value has a built-in family, whatever has been learned, exactly
  // when a built-in pattern takes it.
  lemma BuiltinsComeFirst(name: string, value: string, learned: seq<Pattern>)
    requires ClearOfCatchAll(learned)
    ensures var best := Best(BUILTINS + learned, name, value);
            && (SomeBuiltin(name, value) ==> best == Best(BUILTINS, name, value) && best.Some? && best.value.Builtin?)
            && (!SomeBuiltin(name, value) ==> best == if Learned(Signature(value)) in learned
                then Some(Learned(Signature(value))) else None)
  {
    var best := Best(BUILTINS + learned, name, value);
    BestIsHighest(BUILTINS + learned, name, value);
    BestIsHighest(BUILTINS, name, value);
    SignatureIdempotent(value);
    CatchAllIsShaped(value, Signature(value));
    assert forall p | p in BUILTINS :: p.Builtin?;
    hide Best, Matches, UsernameHint;
    if SomeBuiltin(name, value) {
      var p :| p in BUILTINS && Accepts(p, name, value);
      assert p in BUILTINS + learned;
      forall q | q in learned && Accepts(q, name, value) ensures Precedence(q) < Precedence(p) {
        LearnedLosesToAll(p, q, name, value, learned);
      }
      PrecedenceDecides(best.value, Best(BUILTINS, name, value).value, name, value);
    } else {
      var l := Learned(Signature(value));
      assert Accepts(l, name, value);
      assert l in learned ==> l in BUILTINS + learned;
      assert best.Some? ==> best.value in learned;
    }
  }

  lemma LearnedLosesToAll(p: Pattern, q: Pattern, name: string, value: string, learned: seq<Pattern>)
    requires ClearOfCatchAll(learned) && q in learned && Accepts(q, name, value)
    requires p in BUILTINS && Accepts(p, name, value)
    ensures Precedence(p) > Precedence(q)
  {
    SignatureIdempotent(value);
    CatchAllIsShaped(value, Signature(value));
  }
}
