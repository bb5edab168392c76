/** Shape signatures and the values made from them
    (internal/lua_engine/checks/access/idor_patterns.go). A char stands for one byte. */
module Shapes {
  import opened Chars

  function ClassOf(c: char): char {
    if IsDigit(c) then '9' else if IsLower(c) then 'a' else if IsUpper(c) then 'A' else c
  }

  function Signature(v: string): (s: string)
    ensures |s| == |v|
  {
    if v == "" then "" else [ClassOf(v[0])] + Signature(v[1..])
  }

  lemma {:induction false} SignatureAt(v: string, i: nat)
    requires i < |v|
    ensures Signature(v)[i] == ClassOf(v[i])
  {
    if i > 0 { SignatureAt(v[1..], i - 1); }
  }

  // Two strings have one signature exactly when they agree class by class.
  lemma SameSignature(v: string, w: string)
    ensures Signature(v) == Signature(w) <==> |v| == |w| && forall i | 0 <= i < |v| :: ClassOf(v[i]) == ClassOf(w[i])
  {
    hide Signature, ClassOf;
    if Signature(v) == Signature(w) {
      forall i | 0 <= i < |v| ensures ClassOf(v[i]) == ClassOf(w[i]) {
        SignatureAt(v, i);
        SignatureAt(w, i);
      }
    }
    if |v| == |w| && forall i | 0 <= i < |v| :: ClassOf(v[i]) == ClassOf(w[i]) {
      forall i | 0 <= i < |v| ensures Signature(v)[i] == Signature(w)[i] {
        SignatureAt(v, i);
        SignatureAt(w, i);
      }
    }
  }

  method ShapeSignature(v: string) returns (s: string)
    ensures s == Signature(v)
  {
    if v == "" { return ""; }
    var out := new char[|v|];
    for i := 0 to |v|
      invariant forall k | 0 <= k < i :: out[k] == ClassOf(v[k])
    {
      var c := v[i];
      if IsDigit(c) {
        out[i] := '9';
      } else if IsLower(c) {
        out[i] := 'a';
      } else if IsUpper(c) {
        out[i] := 'A';
      } else {
        out[i] := c;
      }
    }
    s := out[..];
    forall i | 0 <= i < |v| ensures Signature(v)[i] == s[i] { SignatureAt(v, i); }
  }

  // A draw holds one random number per position; randIntn(n) keeps it below n.
  type Draw = seq<nat>

  function Pick(low: char, n: nat, drawn: nat): char
    requires 0 < n && low as int + n <= 128
  {
    (low as int + drawn % n) as char
  }

  function RenderChar(c: char, drawn: nat): char {
    if c == '9' then Pick('0', 10, drawn) else if c == 'a' then Pick('a', 26, drawn)
    else if c == 'A' then Pick('A', 26, drawn) else c
  }

  function Render(shape: string, draw: Draw): (v: string)
    requires |draw| == |shape|
    ensures |v| == |shape| && forall i | 0 <= i < |v| :: v[i] == RenderChar(shape[i], draw[i])
  {
    seq(|shape|, i requires 0 <= i < |shape| => RenderChar(shape[i], draw[i]))
  }

  method RenderShape(shape: string, draw: Draw) returns (v: string)
    requires |draw| == |shape|
    ensures v == Render(shape, draw)
  {
    var out := new char[|shape|];
    for i := 0 to |shape|
      invariant forall k | 0 <= k < i :: out[k] == RenderChar(shape[k], draw[k])
    {
      match shape[i]
      case '9' => out[i] := Pick('0', 10, draw[i]);
      case 'a' => out[i] := Pick('a', 26, draw[i]);
      case 'A' => out[i] := Pick('A', 26, draw[i]);
      case c => out[i] := c;
    }
    v := out[..];
  }

  predicate IsSignature(s: string) { Signature(s) == s }

  lemma SignatureIdempotent(v: string)
    ensures IsSignature(Signature(v))
  {
    forall i | 0 <= i < |v| ensures ClassOf(Signature(v)[i]) == ClassOf(v[i]) { SignatureAt(v, i); }
    SameSignature(Signature(v), v);
  }

  // Rendering a signature gives a value with that signature, whatever is drawn.
  lemma RenderKeepsShape(s: string, draw: Draw)
    requires |draw| == |s| && IsSignature(s)
    ensures Signature(Render(s, draw)) == s
  {
    var v := Render(s, draw);
    forall i | 0 <= i < |s| ensures ClassOf(v[i]) == ClassOf(s[i]) { SignatureAt(s, i); }
    SameSignature(v, s);
  }

  function DrawnFor(c: char): nat {
    if IsDigit(c) then c as int - '0' as int
    else if IsLower(c) then c as int - 'a' as int
    else if IsUpper(c) then c as int - 'A' as int else 0
  }

  lemma DrawnBack(c: char)
    ensures RenderChar(ClassOf(c), DrawnFor(c)) == c
  {
  }

  // The draw that renders v.
  function DrawOf(v: string): (d: Draw)
    ensures |d| == |v|
  {
    seq(|v|, i requires 0 <= i < |v| => DrawnFor(v[i]))
  }

  // Every value can come up as a rendering of its signature.
  lemma RenderReachesAll(v: string)
    ensures Render(Signature(v), DrawOf(v)) == v
  {
    hide RenderChar, ClassOf, DrawnFor, Signature;
    forall i | 0 <= i < |v| ensures Render(Signature(v), DrawOf(v))[i] == v[i] {
      SignatureAt(v, i);
      DrawnBack(v[i]);
    }
  }

  predicate Rigid(s: string) { forall i | 0 <= i < |s| :: s[i] != '9' && s[i] != 'a' && s[i] != 'A' }

  // A signature stands for a single value exactly when no character of it is a class.
  lemma RigidIsAlone(s: string)
    requires IsSignature(s)
    ensures Rigid(s) <==> forall v :: Signature(v) == s ==> v == s
  {
    if Rigid(s) {
      forall v | Signature(v) == s ensures v == s {
        forall i | 0 <= i < |s| ensures v[i] == s[i] { SignatureAt(v, i); }
      }
    } else {
      var i :| 0 <= i < |s| && (s[i] == '9' || s[i] == 'a' || s[i] == 'A');
      var other := if s[i] == '9' then '0' else if s[i] == 'a' then 'b' else 'B';
      var v := s[i := other];
      SameSignature(v, s);
      assert Signature(v) == s && v[i] != s[i];
    }
  }

  // ---------- a learned pattern's Generate ----------

  datatype Generated = Returned(out: seq<string>) | StillDrawing(soFar: seq<string>)

  // The values seen elsewhere, until enough are taken; true when that was enough.
  function TakeKnown(values: seq<string>, seed: string, want: int, out: seq<string>): (seq<string>, bool) {
    if values == [] then (out, false)
    else if values[0] == seed || values[0] in out then TakeKnown(values[1..], seed, want, out)
    else if |out| + 1 >= want then (out + [values[0]], true)
    else TakeKnown(values[1..], seed, want, out + [values[0]])
  }

  // Render until there are enough, as long as there are draws.
  function DrawMore(shape: string, draws: seq<Draw>, seed: string, want: int, out: seq<string>): Generated
    requires forall d | d in draws :: |d| == |shape|
  {
    if |out| >= want then Returned(out)
    else if draws == [] then StillDrawing(out)
    else
      assert draws[0] in draws;
      var v := Render(shape, draws[0]);
      DrawMore(shape, draws[1..], seed, want, if v == seed || v in out then out else out + [v])
  }

  function Generation(shape: string, values: seq<string>, draws: seq<Draw>, seed: string, want: int): Generated
    requires forall d | d in draws :: |d| == |shape|
  {
    var known := TakeKnown(values, seed, want, []);
    if known.1 then Returned(known.0) else DrawMore(shape, draws, seed, want, known.0)
  }

  // The set seen holds the seed and what is in out.
  ghost predicate Tracks(seen: set<string>, seed: string, out: seq<string>) {
    forall v :: v in seen <==> v == seed || v in out
  }

  method KeepDrawing(shape: string, draws: seq<Draw>, seed: string, want: int, known: seq<string>, taken: set<string>)
      returns (r: Generated)
    requires (forall d | d in draws :: |d| == |shape|) && Tracks(taken, seed, known)
    ensures r == DrawMore(shape, draws, seed, want, known)
  {
    hide Render;
    var out, seen := known, taken;
    var d := 0;
    while |out| < want && d < |draws|
      invariant d <= |draws| && Tracks(seen, seed, out)
      invariant DrawMore(shape, draws[d..], seed, want, out) == DrawMore(shape, draws, seed, want, known)
    {
      assert draws[d..][0] == draws[d] && draws[d..][1..] == draws[d + 1..];
      assert draws[d] in draws;
      var v := RenderShape(shape, draws[d]);
      d := d + 1;
      if v in seen { continue; }
      seen := seen + {v};
      out := out + [v];
    }
    r := if |out| >= want then Returned(out) else StillDrawing(out);
  }

  // values are the corpus's values of the shape. The loop over random
  // renderings need not end: draws are those made so far.
  method Generate(shape: string, values: seq<string>, draws: seq<Draw>, seed: string, want: int) returns (r: Generated)
    requires forall d | d in draws :: |d| == |shape|
    ensures r == Generation(shape, values, draws, seed, want)
  {
    hide DrawMore;
    var out: seq<string> := [];
    var seen := {seed};
    for k := 0 to |values|
      invariant Tracks(seen, seed, out)
      invariant TakeKnown(values[k..], seed, want, out) == TakeKnown(values, seed, want, [])
    {
      var v := values[k];
      assert values[k..][0] == v && values[k..][1..] == values[k + 1..];
      if v in seen { continue; }
      seen := seen + {v};
      out := out + [v];
      if |out| >= want { return Returned(out); }
    }
    r := KeepDrawing(shape, draws, seed, want, out, seen);
  }

  // The values other than the seed, each where it comes first.
  function Distinct(values: seq<string>, seed: string): (r: seq<string>)
    ensures forall v :: v in r <==> v in values && v != seed
    ensures forall i, j | 0 <= i < j < |r| :: r[i] != r[j]
  {
    if values == [] then [] else
      var front, last := values[..|values| - 1], values[|values| - 1];
      assert values == front + [last];
      var r := Distinct(front, seed);
      if last == seed || last in r then r else r + [last]
  }

  lemma DistinctSnoc(values: seq<string>, v: string, seed: string)
    ensures Distinct(values + [v], seed) ==
            var r := Distinct(values, seed); if v == seed || v in r then r else r + [v]
  {
    assert (values + [v])[..|values|] == values;
  }

  // Taking values one by one, with those of `before` taken already.
  lemma {:induction false} TakeKnownIsDistinct(before: seq<string>, values: seq<string>, seed: string, want: nat)
    requires |Distinct(before, seed)| < want
    ensures var all := Distinct(before + values, seed);
            var known := TakeKnown(values, seed, want, Distinct(before, seed));
            && (known.1 <==> |all| >= want)
            && known.0 == if |all| >= want then all[..want] else all
    ensures Distinct(before, seed) <= Distinct(before + values, seed)
    decreases |values|
  {
    if values == [] {
      assert before + [] == before;
    } else {
      var next := before + [values[0]];
      assert next[..|next| - 1] == before && before + values == next + values[1..];
      DistinctGrows(next, values[1..], seed);
      if |Distinct(next, seed)| < want { TakeKnownIsDistinct(next, values[1..], seed, want); }
    }
  }

  lemma {:induction false} DistinctGrows(a: seq<string>, b: seq<string>, seed: string)
    ensures Distinct(a, seed) <= Distinct(a + b, seed)
    decreases |b|
  {
    if b == [] {
      assert a + b == a;
    } else {
      var front, last := b[..|b| - 1], b[|b| - 1];
      assert a + b == (a + front) + [last] && (a + b)[..|a + b| - 1] == a + front;
      DistinctGrows(a, front, seed);
    }
  }

  function Renderings(shape: string, draws: seq<Draw>): (r: seq<string>)
    requires forall d | d in draws :: |d| == |shape|
    ensures |r| == |draws| && forall k | 0 <= k < |r| :: r[k] == Render(shape, draws[k])
  {
    seq(|draws|, k requires 0 <= k < |draws| => Render(shape, draws[k]))
  }

  lemma {:induction false} DrawMoreIsDistinct(
    shape: string, before: seq<string>, draws: seq<Draw>, seed: string, want: nat)
    requires (forall d | d in draws :: |d| == |shape|) && |Distinct(before, seed)| <= want
    ensures var all := Distinct(before + Renderings(shape, draws), seed);
            DrawMore(shape, draws, seed, want, Distinct(before, seed))
            == if |all| >= want then Returned(all[..want]) else StillDrawing(all)
    decreases |draws|
  {
    hide Render, Distinct;
    var made := Renderings(shape, draws);
    DistinctGrows(before, made, seed);
    if draws == [] {
      assert before + made == before;
    } else if |Distinct(before, seed)| < want {
      assert draws[0] in draws;
      var next := before + [made[0]];
      assert before + made == next + Renderings(shape, draws[1..]);
      DistinctSnoc(before, made[0], seed);
      DrawMoreIsDistinct(shape, next, draws[1..], seed, want);
    }
  }

  // What Generate gives is settled by what it goes through: the stored values in
  // their order, then one rendering per draw. Of these it takes the distinct ones
  // other than the seed, and returns as soon as there are enough.
  lemma GenerationIsDistinct(shape: string, values: seq<string>, draws: seq<Draw>, seed: string, want: nat)
    requires (forall d | d in draws :: |d| == |shape|) && want > 0
    ensures var all := Distinct(values + Renderings(shape, draws), seed);
            Generation(shape, values, draws, seed, want)
            == if |all| >= want then Returned(all[..want]) else StillDrawing(all)
  {
    hide DrawMore, Render;
    assert [] + values == values;
    TakeKnownIsDistinct([], values, seed, want);
    DistinctGrows(values, Renderings(shape, draws), seed);
    if |Distinct(values, seed)| < want { DrawMoreIsDistinct(shape, values, draws, seed, want); }
  }

  // Distinct values of the shape, none the seed.
  predicate Variants(out: seq<string>, shape: string, seed: string) {
    && (forall i, j | 0 <= i < j < |out| :: out[i] != out[j])
    && forall v | v in out :: v != seed && Signature(v) == shape
  }

  lemma VariantsSnoc(out: seq<string>, shape: string, seed: string, v: string)
    requires Variants(out, shape, seed) && v != seed && v !in out && Signature(v) == shape
    ensures Variants(out + [v], shape, seed)
  {
  }

  lemma {:induction false} TakeKnownVariants(
    values: seq<string>, shape: string, seed: string, want: int, out: seq<string>)
    requires Variants(out, shape, seed) && (forall v | v in values :: Signature(v) == shape)
             && (want > 0 ==> |out| < want)
    ensures var r := TakeKnown(values, seed, want, out);
            Variants(r.0, shape, seed) && (want > 0 ==> if r.1 then |r.0| == want else |r.0| < want)
    decreases |values|
  {
    if values != [] {
      assert values[0] in values;
      if values[0] == seed || values[0] in out {
        TakeKnownVariants(values[1..], shape, seed, want, out);
      } else {
        VariantsSnoc(out, shape, seed, values[0]);
        if |out| + 1 < want { TakeKnownVariants(values[1..], shape, seed, want, out + [values[0]]); }
      }
    }
  }

  lemma {:induction false} DrawMoreVariants(shape: string, draws: seq<Draw>, seed: string, want: int, out: seq<string>)
    requires (forall d | d in draws :: |d| == |shape|) && IsSignature(shape)
    requires Variants(out, shape, seed) && |out| <= want
    ensures match DrawMore(shape, draws, seed, want, out)
            case Returned(r) => Variants(r, shape, seed) && |r| == want
            case StillDrawing(r) => |r| < want
    decreases |draws|
  {
    hide Render, IsSignature, Signature, Variants;
    if |out| < want && draws != [] {
      assert draws[0] in draws;
      var v := Render(shape, draws[0]);
      RenderKeepsShape(shape, draws[0]);
      if v == seed || v in out {
        DrawMoreVariants(shape, draws[1..], seed, want, out);
      } else {
        VariantsSnoc(out, shape, seed, v);
        DrawMoreVariants(shape, draws[1..], seed, want, out + [v]);
      }
    }
  }

  // What Generate returns, whenever it returns: exactly want distinct values
  // of the shape, none of them the seed.
  lemma GenerateIsExact(shape: string, values: seq<string>, draws: seq<Draw>, seed: string, want: int)
    requires (forall d | d in draws :: |d| == |shape|) && IsSignature(shape)
    requires want > 0 && forall v | v in values :: Signature(v) == shape
    ensures match Generation(shape, values, draws, seed, want)
            case Returned(out) => Variants(out, shape, seed) && |out| == want
            case StillDrawing(out) => |out| < want
  {
    TakeKnownVariants(values, shape, seed, want, []);
    var known := TakeKnown(values, seed, want, []);
    if !known.1 { DrawMoreVariants(shape, draws, seed, want, known.0); }
  }

  // ---------- when it can return at all ----------

  function DrawsOf(values: seq<string>, n: nat): (r: seq<Draw>)
    requires forall v | v in values :: |v| == n
    ensures |r| == |values| && forall d | d in r :: |d| == n
  {
    if values == [] then [] else
      assert values[0] in values;
      [DrawOf(values[0])] + DrawsOf(values[1..], n)
  }

  lemma SubsetSize(small: seq<string>, large: seq<string>)
    requires (forall i, j | 0 <= i < j < |small| :: small[i] != small[j]) && forall v | v in small :: v in large
    ensures |small| <= |large|
    decreases |small|
  {
    if small != [] {
      var v := small[0];
      assert v in small;
      var k :| 0 <= k < |large| && large[k] == v;
      var rest := large[..k] + large[k + 1..];
      forall w | w in small[1..] ensures w in rest {
        var i :| 0 <= i < |small[1..]| && small[1..][i] == w;
        assert small[i + 1] == w && w in small;
        var j :| 0 <= j < |large| && large[j] == w;
        assert if j < k then rest[j] == w else rest[j - 1] == w;
      }
      SubsetSize(small[1..], rest);
    }
  }

  // Drawing each of a list of values in turn takes all of them or returns.
  lemma {:induction false} DrawingCollects(
    shape: string, values: seq<string>, seed: string, want: int, out: seq<string>)
    requires (forall v | v in values :: Signature(v) == shape && v != seed)
    ensures (forall v | v in values :: |v| == |shape|)
    ensures match DrawMore(shape, DrawsOf(values, |shape|), seed, want, out)
            case Returned(_) => true
            case StillDrawing(r) => (forall v | v in out :: v in r) && (forall v | v in values :: v in r)
    decreases |values|
  {
    hide Render, Signature;
    if values == [] {
      assert DrawsOf(values, |shape|) == [];
    } else {
      var v := values[0];
      assert v in values;
      RenderReachesAll(v);
      forall w | w in values[1..] ensures w in values {}
      var next := if v in out then out else out + [v];
      DrawingCollects(shape, values[1..], seed, want, next);
      if |out| < want {
        assert DrawsOf(values, |shape|)[1..] == DrawsOf(values[1..], |shape|);
        assert v in next;
        assert values == [v] + values[1..];
      }
    }
  }

  // Generate can return, for some run of the random source, exactly when the
  // shape has want distinct values besides the seed. Otherwise it never does:
  // a rigid shape's pattern, asked for a variant of its only value, spins.
  lemma GenerateCanReturn(shape: string, values: seq<string>, seed: string, want: int)
    requires IsSignature(shape) && want > 0 && forall v | v in values :: Signature(v) == shape
    ensures (exists draws: seq<Draw> ::
            (forall d | d in draws :: |d| == |shape|) && Generation(shape, values, draws, seed, want).Returned?)
            <==> exists list :: Variants(list, shape, seed) && |list| == want
  {
    if draws: seq<Draw> :|
      (forall d | d in draws :: |d| == |shape|) && Generation(shape, values, draws, seed, want).Returned? {
      GenerateIsExact(shape, values, draws, seed, want);
    }
    if list :| Variants(list, shape, seed) && |list| == want {
      var known := TakeKnown(values, seed, want, []);
      TakeKnownVariants(values, shape, seed, want, []);
      DrawingCollects(shape, list, seed, want, known.0);
      var draws := DrawsOf(list, |shape|);
      GenerateIsExact(shape, values, draws, seed, want);
      var r := Generation(shape, values, draws, seed, want);
      if r.StillDrawing? { SubsetSize(list, r.soFar); }
      assert r.Returned?;
    }
  }

  // ---------- how many values a shape has ----------

  function Choices(c: char): nat { if c == '9' then 10 else if c == 'a' || c == 'A' then 26 else 1 }

  // 10 to the digit classes times 26 to the letter classes.
  function ValueCount(shape: string): nat {
    if shape == "" then 1 else Choices(shape[0]) * ValueCount(shape[1..])
  }

  function Range(low: char, n: nat): (cs: set<char>)
    requires low as int + n <= 128
    ensures |cs| == n && forall c :: c in cs <==> low <= c && c as int < low as int + n
  {
    if n == 0 then {} else
      var rest := Range(low, n - 1);
      var last := (low as int + n - 1) as char;
      assert last !in rest;
      rest + {last}
  }

  // The characters of a class, or the character itself.
  function CharsOf(c: char): (cs: set<char>)
    ensures |cs| == Choices(c)
  {
    if c == '9' then Range('0', 10) else if c == 'a' then Range('a', 26) else if c == 'A' then Range('A', 26) else {c}
  }

  lemma CharsOfClass(c: char, x: char)
    requires ClassOf(c) == c
    ensures x in CharsOf(c) <==> ClassOf(x) == c
  {
  }

  function Conses(cs: set<char>, vs: set<string>): set<string> { set c, v | c in cs && v in vs :: [c] + v }

  function ValuesOf(shape: string): set<string> {
    if shape == "" then {""} else Conses(CharsOf(shape[0]), ValuesOf(shape[1..]))
  }

  lemma ConsIn(cs: set<char>, vs: set<string>, v: string)
    ensures v in Conses(cs, vs) <==> v != "" && v[0] in cs && v[1..] in vs
  {
    if v != "" { assert v == [v[0]] + v[1..]; }
    forall c, w | c in cs && w in vs ensures ([c] + w)[0] == c && ([c] + w)[1..] == w {}
  }

  lemma SignatureCons(v: string, shape: string)
    requires v != "" && shape != ""
    ensures Signature(v) == shape <==> ClassOf(v[0]) == shape[0] && Signature(v[1..]) == shape[1..]
  {
    assert Signature(v)[0] == ClassOf(v[0]) && Signature(v)[1..] == Signature(v[1..]);
    assert shape == [shape[0]] + shape[1..];
  }

  // They are all the values with the signature.
  lemma {:induction false} ValuesAreAll(shape: string, v: string)
    requires IsSignature(shape)
    ensures v in ValuesOf(shape) <==> Signature(v) == shape
  {
    if shape != "" {
      SignatureCons(shape, shape);
      ConsIn(CharsOf(shape[0]), ValuesOf(shape[1..]), v);
      if v != "" {
        SignatureCons(v, shape);
        CharsOfClass(shape[0], v[0]);
        ValuesAreAll(shape[1..], v[1..]);
      }
      hide Conses, CharsOf, ClassOf;
    }
  }

  lemma ConsSplit(cs: set<char>, vs: set<string>, x: char)
    requires x in cs
    ensures |Conses(cs, vs)| == |Conses({x}, vs)| + |Conses(cs - {x}, vs)| && |cs| == |cs - {x}| + 1
  {
    hide Conses;
    forall v
      ensures v in Conses(cs, vs) <==> v in Conses({x}, vs) || v in Conses(cs - {x}, vs)
      ensures !(v in Conses({x}, vs) && v in Conses(cs - {x}, vs))
    {
      ConsIn(cs, vs, v);
      ConsIn({x}, vs, v);
      ConsIn(cs - {x}, vs, v);
    }
    assert Conses(cs, vs) == Conses({x}, vs) + Conses(cs - {x}, vs) && Conses({x}, vs) !! Conses(cs - {x}, vs);
  }

  function Times(n: nat, k: nat): nat { if n == 0 then 0 else k + Times(n - 1, k) }

  lemma {:induction false} TimesIsProduct(n: nat, k: nat)
    ensures Times(n, k) == n * k
  {
    if n > 0 {
      TimesIsProduct(n - 1, k);
      assert n * k == (n - 1) * k + k;
    }
  }

  lemma {:induction false} ConsCount(cs: set<char>, vs: set<string>)
    ensures |Conses(cs, vs)| == Times(|cs|, |vs|)
  {
    if x :| x in cs {
      hide Conses;
      var rest := cs - {x};
      ConsSplit(cs, vs, x);
      RowCount(x, vs);
      ConsCount(rest, vs);
    } else {
      assert Conses(cs, vs) == {};
    }
  }

  lemma {:induction false} RowCount(x: char, vs: set<string>)
    ensures |Conses({x}, vs)| == |vs|
  {
    if w :| w in vs {
      RowCount(x, vs - {w});
      forall v ensures v in Conses({x}, vs) <==> v in Conses({x}, vs - {w}) || v == [x] + w {
        ConsIn({x}, vs, v);
        ConsIn({x}, vs - {w}, v);
        assert v != "" && v[0] == x ==> v == [x] + v[1..];
        assert ([x] + w)[1..] == w;
      }
      ConsIn({x}, vs - {w}, [x] + w);
      hide Conses;
      assert Conses({x}, vs) == Conses({x}, vs - {w}) + {[x] + w};
    } else {
      assert Conses({x}, vs) == {};
    }
  }

  lemma {:induction false} ValuesCounted(shape: string)
    ensures |ValuesOf(shape)| == ValueCount(shape)
  {
    if shape != "" {
      hide CharsOf, Conses;
      ValuesCounted(shape[1..]);
      ConsCount(CharsOf(shape[0]), ValuesOf(shape[1..]));
      TimesIsProduct(Choices(shape[0]), ValueCount(shape[1..]));
    }
  }

  // A list of want of the elements of a set.
  lemma {:induction false} ListFrom(vs: set<string>, want: nat) returns (list: seq<string>)
    requires want <= |vs|
    ensures |list| == want && (forall v | v in list :: v in vs)
    ensures forall i, j | 0 <= i < j < |list| :: list[i] != list[j]
  {
    list := [];
    if want > 0 {
      assert vs != {};
      if v :| v in vs {
        var rest := ListFrom(vs - {v}, want - 1);
        list := rest + [v];
      }
    }
  }

  lemma {:induction false} DistinctFits(list: seq<string>, vs: set<string>)
    requires (forall i, j | 0 <= i < j < |list| :: list[i] != list[j]) && forall v | v in list :: v in vs
    ensures |list| <= |vs|
  {
    if list != [] {
      var front, last := list[..|list| - 1], list[|list| - 1];
      assert last in list;
      forall v | v in front ensures v in vs - {last} {
        var i :| 0 <= i < |front| && front[i] == v;
        assert list[i] == v && v in list;
      }
      DistinctFits(front, vs - {last});
    }
  }

  // The same, counted: Generate can return exactly when 10^digits * 26^letters,
  // less one if the seed has the shape, is at least the number wanted.
  lemma GenerateReturnsWhenEnough(shape: string, values: seq<string>, seed: string, want: int)
    requires IsSignature(shape) && want > 0 && forall v | v in values :: Signature(v) == shape
    ensures (exists draws: seq<Draw> ::
              (forall d | d in draws :: |d| == |shape|) && Generation(shape, values, draws, seed, want).Returned?)
       <==> ValueCount(shape) - (if Signature(seed) == shape then 1 else 0) >= want
  {
    GenerateCanReturn(shape, values, seed, want);
    hide Generation, IsSignature, Signature, ValueCount, ValuesOf;
    EnoughValues(shape, seed, want);
  }

  lemma EnoughValues(shape: string, seed: string, want: nat)
    requires IsSignature(shape)
    ensures (exists list :: Variants(list, shape, seed) && |list| == want)
       <==> ValueCount(shape) - (if Signature(seed) == shape then 1 else 0) >= want
  {
    var others := ValuesOf(shape) - {seed};
    ValuesCounted(shape);
    ValuesAreAll(shape, seed);
    forall v ensures v in ValuesOf(shape) <==> Signature(v) == shape { ValuesAreAll(shape, v); }
    hide IsSignature, Signature, ValueCount, ValuesOf;
    if list :| Variants(list, shape, seed) && |list| == want { DistinctFits(list, others); }
    if |others| >= want {
      var list := ListFrom(others, want);
      assert Variants(list, shape, seed);
    }
  }

  lemma RigidShapeSpins(shape: string, draws: seq<Draw>, want: int)
    requires IsSignature(shape) && Rigid(shape) && want > 0 && forall d | d in draws :: |d| == |shape|
    ensures Generation(shape, [shape], draws, shape, want) == StillDrawing([])
  {
    assert [shape][1..] == [];
    assert TakeKnown([shape], shape, want, []) == TakeKnown([], shape, want, []);
    DrawingStuck(shape, draws, want);
  }

  lemma {:induction false} DrawingStuck(shape: string, draws: seq<Draw>, want: int)
    requires IsSignature(shape) && Rigid(shape) && want > 0 && forall d | d in draws :: |d| == |shape|
    ensures DrawMore(shape, draws, shape, want, []) == StillDrawing([])
  {
    if draws != [] {
      assert draws[0] in draws;
      assert Render(shape, draws[0]) == shape;
      DrawingStuck(shape, draws[1..], want);
    }
  }
}
