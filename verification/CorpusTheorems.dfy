/** What the corpus holds after any sequence of ingested values. */
module CorpusTheorems {
  import opened Options
  import opened Pigeonhole
  import opened Shapes
  import opened Patterns
  import opened Corpora

  datatype Input = Input(name: string, value: string)

  function Run(inputs: seq<Input>): State {
    if inputs == [] then EMPTY else
      var last := inputs[|inputs| - 1];
      Ingested(Run(inputs[..|inputs| - 1]), last.name, last.value)
  }

  // ---------- rings ----------

  function Pushes(vs: seq<string>, cap: nat): seq<string>
    requires cap > 0
  {
    if vs == [] then [] else Pushed(Pushes(vs[..|vs| - 1], cap), cap, vs[|vs| - 1])
  }

  // The values that were let in: not empty, and not in the ring at the time.
  function Admitted(vs: seq<string>, cap: nat): seq<string>
    requires cap > 0
  {
    if vs == [] then [] else
      var front, v := vs[..|vs| - 1], vs[|vs| - 1];
      if v == "" || v in Pushes(front, cap) then Admitted(front, cap) else Admitted(front, cap) + [v]
  }

  function LastOf(s: seq<string>, n: nat): seq<string> { if |s| <= n then s else s[|s| - n..] }

  lemma LastOfSnoc(s: seq<string>, n: nat, v: string)
    requires n > 0
    ensures LastOf(s + [v], n) == (if |LastOf(s, n)| >= n then LastOf(s, n)[1..] else LastOf(s, n)) + [v]
  {
  }

  lemma RingHoldsPushed(vs: seq<string>, cap: nat)
    requires cap > 0
    ensures IsRing(Pushes(vs, cap), cap) && forall v | v in Pushes(vs, cap) :: v in vs
  {
    PushesAreRing(vs, cap);
    hide IsRing;
    PushesFrom(vs, cap);
  }

  lemma {:induction false} PushesAreRing(vs: seq<string>, cap: nat)
    requires cap > 0
    ensures IsRing(Pushes(vs, cap), cap)
  {
    if vs != [] {
      PushesAreRing(vs[..|vs| - 1], cap);
      PushedIsRing(Pushes(vs[..|vs| - 1], cap), cap, vs[|vs| - 1]);
      hide IsRing, Pushed;
    }
  }

  lemma {:induction false} PushesFrom(vs: seq<string>, cap: nat)
    requires cap > 0
    ensures forall v | v in Pushes(vs, cap) :: v in vs
  {
    if vs != [] {
      var front, v := vs[..|vs| - 1], vs[|vs| - 1];
      PushesFrom(front, cap);
      PushedFrom(Pushes(front, cap), cap, v);
      assert vs == front + [v];
      hide Pushed;
    }
  }

  lemma PushedFrom(data: seq<string>, cap: nat, v: string)
    requires cap > 0
    ensures forall w | w in Pushed(data, cap, v) :: w == v || w in data
  {
  }

  // A ring holds the last cap values let in, oldest first.
  lemma {:induction false} RingIsRecent(vs: seq<string>, cap: nat)
    requires cap > 0
    ensures Pushes(vs, cap) == LastOf(Admitted(vs, cap), cap)
  {
    if vs == [] {
      assert Admitted(vs, cap) == [];
    } else {
      var front, v := vs[..|vs| - 1], vs[|vs| - 1];
      RingIsRecent(front, cap);
      LastOfSnoc(Admitted(front, cap), cap, v);
      hide LastOf;
      assert Pushes(vs, cap) == Pushed(Pushes(front, cap), cap, v);
    }
  }

  // ---------- clusters ----------

  // The value is one no built-in family takes. This does not depend on what
  // has been learned.
  predicate Clusters(i: Input) { i.value != "" && !SomeBuiltin(ToLower(i.name), i.value) }

  function Members(inputs: seq<Input>, shape: string): seq<Input> {
    if inputs == [] then [] else
      var front, last := inputs[..|inputs| - 1], inputs[|inputs| - 1];
      Members(front, shape) + if Clusters(last) && Signature(last.value) == shape then [last] else []
  }

  function ParamsOf(members: seq<Input>): set<string> { set i | i in members :: ToLower(i.name) }

  function RecordOf(inputs: seq<Input>, shape: string): ShapeRecord {
    var members := Members(inputs, shape);
    ShapeRecord(|members|, ParamsOf(members), Ripe(|members|, ParamsOf(members)))
  }

  // The records are what the inputs say, and so is the learned list.
  ghost predicate RecordsAre(records: map<string, ShapeRecord>, inputs: seq<Input>) {
    && (forall shape :: shape in records <==> Members(inputs, shape) != [])
    && forall shape :: RecordAt(records, shape) == RecordOf(inputs, shape)
  }

  ghost predicate LearnedAre(learned: seq<Pattern>, inputs: seq<Input>) {
    && (forall shape :: Learned(shape) in learned <==> RecordOf(inputs, shape).promoted)
    && (forall p | p in learned :: p.Learned?)
    && forall i, j | 0 <= i < j < |learned| :: learned[i] != learned[j]
  }

  ghost predicate Characterized(st: State, inputs: seq<Input>) {
    RecordsAre(st.records, inputs) && LearnedAre(st.learned, inputs)
  }

  lemma {:induction false} MembersAre(inputs: seq<Input>, shape: string)
    ensures forall i | i in Members(inputs, shape) :: i in inputs && Clusters(i) && Signature(i.value) == shape
  {
    if inputs != [] { MembersAre(inputs[..|inputs| - 1], shape); }
  }

  // A learned shape is never one the catch-all family could match.
  lemma LearnedIsClear(st: State, inputs: seq<Input>)
    requires Characterized(st, inputs)
    ensures ClearOfCatchAll(st.learned)
  {
    hide Clusters, SomeBuiltin, Signature, ReBase64ish, Members;
    forall p | p in st.learned ensures !ReBase64ish(p.shape) {
      var members := Members(inputs, p.shape);
      MembersAre(inputs, p.shape);
      assert RecordOf(inputs, p.shape).promoted;
      assert |members| >= LEARN_MIN_SAMPLES;
      var i := members[0];
      assert i in members;
      NotCatchAll(i);
      SignatureIdempotent(i.value);
      CatchAllIsShaped(i.value, p.shape);
    }
  }

  lemma NotCatchAll(i: Input)
    requires Clusters(i)
    ensures !ReBase64ish(i.value)
  {
    hide ReBase64ish;
    if ReBase64ish(i.value) { CatchAllHasFamily(ToLower(i.name), i.value); }
  }

  lemma MembersSnoc(inputs: seq<Input>, last: Input, shape: string)
    ensures Members(inputs + [last], shape) ==
            if Clusters(last) && Signature(last.value) == shape then Members(inputs, shape) + [last]
                else Members(inputs, shape)
  {
    assert (inputs + [last])[..|inputs|] == inputs;
  }

  lemma ParamsSnoc(members: seq<Input>, last: Input)
    ensures ParamsOf(members + [last]) == ParamsOf(members) + {ToLower(last.name)}
  {
    hide ToLower;
    assert forall i :: i in members + [last] <==> i in members || i == last;
  }

  // What is ripe stays ripe.
  lemma RipeGrows(count: nat, params: set<string>, name: string)
    requires Ripe(count, params)
    ensures Ripe(count + 1, params + {name})
  {
    assert params + {name} == params + ({name} - params);
  }

  // One more clustered value changes the record of its shape only.
  lemma RecordGrows(inputs: seq<Input>, last: Input, shape: string)
    requires Clusters(last)
    ensures var before := RecordOf(inputs, shape);
            var params := before.params + {ToLower(last.name)};
            RecordOf(inputs + [last], shape) ==
            if Signature(last.value) == shape
                then ShapeRecord(before.count + 1, params, Ripe(before.count + 1, params)) else before
    ensures Members(inputs + [last], shape) != [] <==> Members(inputs, shape) != [] || Signature(last.value) == shape
    ensures RecordOf(inputs, shape).promoted ==> RecordOf(inputs + [last], shape).promoted
  {
    hide Clusters, Signature, ToLower, Members, ParamsOf, Ripe;
    MembersSnoc(inputs, last, shape);
    ParamsSnoc(Members(inputs, shape), last);
    var before := RecordOf(inputs, shape);
    if before.promoted { RipeGrows(before.count, before.params, ToLower(last.name)); }
  }

  lemma CountedIs(st: State, inputs: seq<Input>, last: Input)
    requires Characterized(st, inputs) && Clusters(last)
    ensures Characterized(Counted(st, Signature(last.value), ToLower(last.name)), inputs + [last])
  {
    hide Clusters, Signature, ToLower, Members, RecordOf, Ripe;
    var shape, more := Signature(last.value), inputs + [last];
    var after := Counted(st, shape, ToLower(last.name));
    forall s
      ensures s in after.records <==> Members(more, s) != []
      ensures RecordAt(after.records, s) == RecordOf(more, s)
      ensures Learned(s) in after.learned <==> RecordOf(more, s).promoted
    {
      RecordGrows(inputs, last, s);
      assert RecordAt(st.records, s) == RecordOf(inputs, s);
      assert Learned(s) in st.learned <==> RecordOf(inputs, s).promoted;
    }
  }

  // One ingest, given that no learned shape competes with the catch-all.
  lemma IngestedIs(st: State, i: Input)
    requires ClearOfCatchAll(st.learned)
    ensures var r, lower, shape := Ingested(st, i.name, i.value), ToLower(i.name), Signature(i.value);
            var counted := Counted(st, shape, lower);
            && r.records == (if Clusters(i) then counted.records else st.records)
            && r.learned == (if Clusters(i) then counted.learned else st.learned)
            && r.byParam == (if i.value == "" then st.byParam else Filed(st.byParam, lower, PARAM_CAP, i.value))
            && r.byShape == (if Clusters(i) then Filed(st.byShape, shape, SHAPE_CAP, i.value) else st.byShape)
  {
    hide Counted, Signature, ToLower, SomeBuiltin, ClearOfCatchAll, Best, Filed, Name;
    BuiltinsComeFirst(ToLower(i.name), i.value, st.learned);
    var lower, shape := ToLower(i.name), Signature(i.value);
    var p := Best(BUILTINS + st.learned, lower, i.value);
    var first := st.(byParam := Filed(st.byParam, lower, PARAM_CAP, i.value));
    var second := if p.None? then first
        else first.(byPattern := Filed(first.byPattern, Name(p.value), PATTERN_CAP, i.value));
    CountedFrame(second.(byShape := Filed(second.byShape, shape, SHAPE_CAP, i.value)), st, shape, lower);
  }

  lemma CountedFrame(a: State, b: State, shape: string, name: string)
    requires a.records == b.records && a.learned == b.learned
    ensures Counted(a, shape, name)
            == a.(records := Counted(b, shape, name).records, learned := Counted(b, shape, name).learned)
  {
  }

  lemma CharacterizedFrame(a: State, b: State, inputs: seq<Input>)
    requires Characterized(a, inputs) && a.records == b.records && a.learned == b.learned
    ensures Characterized(b, inputs)
  {
  }

  // The shape records and the learned patterns after any run are those its
  // inputs describe: a shape is promoted exactly when at least three of the
  // values no built-in family takes have it, under at least two parameter
  // names, and the learned list has one entry for each promoted shape.
  lemma {:induction false} RunIsCharacterized(inputs: seq<Input>)
    ensures Characterized(Run(inputs), inputs)
  {
    hide Clusters, Signature, ToLower, Counted, Ingested, RecordAt, RecordOf;
    if inputs == [] {
      EmptyIsCharacterized();
    } else {
      var front, last := inputs[..|inputs| - 1], inputs[|inputs| - 1];
      var st := Run(front);
      RunIsCharacterized(front);
      LearnedIsClear(st, front);
      IngestedIs(st, last);
      assert inputs == front + [last];
      hide Characterized, Run;
      if Clusters(last) {
        CountedIs(st, front, last);
        CharacterizedFrame(Counted(st, Signature(last.value), ToLower(last.name)),
            Ingested(st, last.name, last.value), inputs);
      } else {
        SameMembers(st, front, last);
        CharacterizedFrame(st, Ingested(st, last.name, last.value), inputs);
      }
    }
  }

  // A shape is learned exactly when at least three values that no built-in rule
  // takes had it, under at least two parameter names, letter case aside.
  lemma LearnedExactly(inputs: seq<Input>, shape: string)
    ensures Learned(shape) in Run(inputs).learned <==>
            |Members(inputs, shape)| >= 3 && |ParamsOf(Members(inputs, shape))| >= 2
    ensures forall i | i in Members(inputs, shape) ::
              && i in inputs && i.value != "" && Signature(i.value) == shape
              && FamilyByRule(ToLower(i.name), i.value) == None
  {
    RunIsCharacterized(inputs);
    MembersAre(inputs, shape);
    hide Members, Run, FamilyByRule, ToLower, Signature, SomeBuiltin, ParamsOf;
    forall i | i in Members(inputs, shape) ensures FamilyByRule(ToLower(i.name), i.value) == None {
      NoRuleMeansNone(ToLower(i.name), i.value);
    }
  }

  lemma NoRuleMeansNone(name: string, value: string)
    ensures SomeBuiltin(name, value) <==> FamilyByRule(name, value) != None
  {
    BestBuiltinIsByRule(name, value);
    BestIsHighest(BUILTINS, name, value);
    hide Best, FamilyByRule, Accepts;
  }

  lemma EmptyIsCharacterized()
    ensures Characterized(EMPTY, [])
  {
    assert forall shape :: Members([], shape) == [];
  }

  lemma SameMembers(st: State, inputs: seq<Input>, last: Input)
    requires Characterized(st, inputs) && !Clusters(last)
    ensures Characterized(st, inputs + [last])
  {
    hide Clusters, Members;
    forall shape ensures Members(inputs + [last], shape) == Members(inputs, shape) { MembersSnoc(inputs, last, shape); }
  }

  lemma RunIsClear(inputs: seq<Input>)
    ensures ClearOfCatchAll(Run(inputs).learned)
  {
    RunIsCharacterized(inputs);
    LearnedIsClear(Run(inputs), inputs);
  }

  // ---------- what the rings hold ----------

  function ValuesUnder(inputs: seq<Input>, param: string): seq<string> {
    if inputs == [] then [] else
      var front, last := inputs[..|inputs| - 1], inputs[|inputs| - 1];
      if last.value != "" && ToLower(last.name) == param then ValuesUnder(front, param) + [last.value]
      else ValuesUnder(front, param)
  }

  function ValuesOf(members: seq<Input>): (r: seq<string>)
    ensures |r| == |members| && forall i | 0 <= i < |members| :: r[i] == members[i].value
  {
    seq(|members|, i requires 0 <= i < |members| => members[i].value)
  }

  lemma PushesSnoc(vs: seq<string>, cap: nat, v: string)
    requires cap > 0
    ensures Pushes(vs + [v], cap) == Pushed(Pushes(vs, cap), cap, v)
  {
    assert (vs + [v])[..|vs|] == vs;
  }

  // A parameter's ring is the history of the values ingested under its name.
  lemma {:induction false} ParamRingIs(inputs: seq<Input>, param: string)
    ensures RingAt(Run(inputs).byParam, param) == Pushes(ValuesUnder(inputs, param), PARAM_CAP)
  {
    hide Pushed, ToLower, Ingested;
    if inputs != [] {
      var front, last := inputs[..|inputs| - 1], inputs[|inputs| - 1];
      ParamRingIs(front, param);
      RunIsClear(front);
      IngestedIs(Run(front), last);
      PushesSnoc(ValuesUnder(front, param), PARAM_CAP, last.value);
      hide Pushes;
    }
  }

  // The values classified as the family; what has been learned plays no part.
  predicate InFamily(i: Input, f: Family) {
    i.value != "" && Best(BUILTINS, ToLower(i.name), i.value) == Some(Builtin(f))
  }

  function ValuesIn(inputs: seq<Input>, f: Family): seq<string> {
    if inputs == [] then [] else
      var front, last := inputs[..|inputs| - 1], inputs[|inputs| - 1];
      if InFamily(last, f) then ValuesIn(front, f) + [last.value] else ValuesIn(front, f)
  }

  lemma NamesDiffer(f: Family, p: Pattern)
    requires p != Builtin(f)
    ensures Name(p) != Name(Builtin(f))
  {
    var n := Name(Builtin(f));
    assert n[0] != 'l';
    match p
    case Learned(shape) => assert Name(p)[0] == 'l';
    case Builtin(g) => assert |Name(p)| != |n| || Name(p)[0] != n[0];
  }

  lemma FamilyFiled(st: State, i: Input, f: Family)
    requires ClearOfCatchAll(st.learned)
    ensures RingAt(Ingested(st, i.name, i.value).byPattern, Name(Builtin(f))) ==
            if InFamily(i, f) then Pushed(RingAt(st.byPattern, Name(Builtin(f))), PATTERN_CAP, i.value)
            else RingAt(st.byPattern, Name(Builtin(f)))
  {
    hide Counted, ToLower, Best, Pushed, Name, Signature, SomeBuiltin, ClearOfCatchAll, BUILTINS;
    var lower := ToLower(i.name);
    BuiltinsComeFirst(lower, i.value, st.learned);
    NoBuiltinMeansNone(lower, i.value);
    var p := Best(BUILTINS + st.learned, lower, i.value);
    if p.Some? && p.value != Builtin(f) { NamesDiffer(f, p.value); }
    CountedKeepsPatterns(lower);
  }

  lemma CountedKeepsPatterns(name: string)
    ensures forall a, shape :: Counted(a, shape, name).byPattern == a.byPattern
  {
  }

  lemma NoBuiltinMeansNone(name: string, value: string)
    ensures Best(BUILTINS, name, value).None? <==> !SomeBuiltin(name, value)
  {
    BestIsHighest(BUILTINS, name, value);
  }

  // A built-in family's ring is the history of the values of that family.
  lemma {:induction false} FamilyRingIs(inputs: seq<Input>, f: Family)
    ensures RingAt(Run(inputs).byPattern, Name(Builtin(f))) == Pushes(ValuesIn(inputs, f), 64)
  {
    hide Pushed, Ingested, InFamily, Name;
    if inputs != [] {
      var front, last := inputs[..|inputs| - 1], inputs[|inputs| - 1];
      FamilyRingIs(front, f);
      RunIsClear(front);
      FamilyFiled(Run(front), last, f);
      PushesSnoc(ValuesIn(front, f), PATTERN_CAP, last.value);
      hide Pushes;
    }
  }

  // The values of a shape that came after it was learned.
  function ValuesSince(inputs: seq<Input>, shape: string): seq<string> {
    if inputs == [] then [] else
      var front, last := inputs[..|inputs| - 1], inputs[|inputs| - 1];
      if Clusters(last) && Signature(last.value) == shape && RecordOf(front, shape).promoted
      then ValuesSince(front, shape) + [last.value]
      else ValuesSince(front, shape)
  }

  lemma LearnedNamesDiffer(shape: string, p: Pattern)
    requires p != Learned(shape)
    ensures Name(p) != Name(Learned(shape))
  {
    match p
    case Learned(other) =>
      assert Name(p)[8..] == other && Name(Learned(shape))[8..] == shape;
    case Builtin(f) => NamesDiffer(f, Learned(shape));
  }

  lemma LearnedFiled(inputs: seq<Input>, i: Input, shape: string)
    ensures var st := Run(inputs);
            RingAt(Ingested(st, i.name, i.value).byPattern, Name(Learned(shape))) ==
            if Clusters(i) && Signature(i.value) == shape && RecordOf(inputs, shape).promoted
            then Pushed(RingAt(st.byPattern, Name(Learned(shape))), PATTERN_CAP, i.value)
            else RingAt(st.byPattern, Name(Learned(shape)))
  {
    hide Run, Counted, ToLower, Best, Pushed, Name, Signature, SomeBuiltin, ClearOfCatchAll, BUILTINS, RecordOf;
    var st, lower := Run(inputs), ToLower(i.name);
    RunIsCharacterized(inputs);
    RunIsClear(inputs);
    BuiltinsComeFirst(lower, i.value, st.learned);
    var p := Best(BUILTINS + st.learned, lower, i.value);
    if p.Some? && p.value != Learned(shape) { LearnedNamesDiffer(shape, p.value); }
    CountedKeepsPatterns(lower);
  }

  // The ring of a learned pattern is the history of those values.
  lemma {:induction false} LearnedRingIs(inputs: seq<Input>, shape: string)
    ensures RingAt(Run(inputs).byPattern, Name(Learned(shape))) == Pushes(ValuesSince(inputs, shape), 64)
  {
    hide Pushed, Ingested, Clusters, Signature, RecordOf, Name;
    if inputs != [] {
      var front, last := inputs[..|inputs| - 1], inputs[|inputs| - 1];
      LearnedRingIs(front, shape);
      LearnedFiled(front, last, shape);
      PushesSnoc(ValuesSince(front, shape), PATTERN_CAP, last.value);
      hide Pushes;
    }
  }

  lemma ClusteredValues(inputs: seq<Input>, last: Input, shape: string)
    ensures Pushes(ValuesOf(Members(inputs + [last], shape)), SHAPE_CAP) ==
            if Clusters(last) && Signature(last.value) == shape
            then Pushed(Pushes(ValuesOf(Members(inputs, shape)), SHAPE_CAP), SHAPE_CAP, last.value)
            else Pushes(ValuesOf(Members(inputs, shape)), SHAPE_CAP)
  {
    hide Pushed, Pushes, Members, Clusters, Signature;
    MembersSnoc(inputs, last, shape);
    PushesSnoc(ValuesOf(Members(inputs, shape)), SHAPE_CAP, last.value);
    assert ValuesOf(Members(inputs, shape) + [last]) == ValuesOf(Members(inputs, shape)) + [last.value];
  }

  // A shape's ring is the history of the values clustered under it.
  lemma {:induction false} ShapeRingIs(inputs: seq<Input>, shape: string)
    ensures RingAt(Run(inputs).byShape, shape) == Pushes(ValuesOf(Members(inputs, shape)), 32)
  {
    hide Pushed, Signature, Ingested, Clusters, ValuesOf;
    if inputs == [] {
      assert ValuesOf(Members(inputs, shape)) == [];
    } else {
      var front, last := inputs[..|inputs| - 1], inputs[|inputs| - 1];
      ShapeRingIs(front, shape);
      RunIsClear(front);
      IngestedIs(Run(front), last);
      assert Run(inputs) == Ingested(Run(front), last.name, last.value);
      hide Run, Pushes, Members;
      assert inputs == front + [last];
      ClusteredValues(front, last, shape);
    }
  }

  // Every value stored under a shape has it.
  lemma ShapeRingMatches(inputs: seq<Input>, shape: string)
    ensures IsRing(RingAt(Run(inputs).byShape, shape), SHAPE_CAP)
    ensures forall v | v in RingAt(Run(inputs).byShape, shape) :: Signature(v) == shape
  {
    var members := Members(inputs, shape);
    ShapeRingIs(inputs, shape);
    RingHoldsPushed(ValuesOf(members), SHAPE_CAP);
    MembersAre(inputs, shape);
    hide Run, Members, Pushes, Signature;
    forall v | v in RingAt(Run(inputs).byShape, shape) ensures Signature(v) == shape {
      var i :| 0 <= i < |members| && members[i].value == v;
      assert members[i] in members;
    }
  }

  lemma ParamRingIsRecent(inputs: seq<Input>, param: string)
    ensures RingAt(Run(inputs).byParam, param) == LastOf(Admitted(ValuesUnder(inputs, param), 32), 32)
    ensures IsRing(RingAt(Run(inputs).byParam, param), 32)
  {
    ParamRingIs(inputs, param);
    RingIsRecent(ValuesUnder(inputs, param), PARAM_CAP);
    RingHoldsPushed(ValuesUnder(inputs, param), PARAM_CAP);
  }

  // ---------- classification and generation in a reachable corpus ----------

  // The patterns of a reachable corpus, in any order, classify alike; a value a
  // built-in takes keeps its built-in family whatever has been learned.
  lemma ClassificationIsStable(inputs: seq<Input>, patterns: seq<Pattern>, name: string, value: string)
    requires forall p :: p in patterns <==> p in BUILTINS + Run(inputs).learned
    ensures Best(patterns, name, value) ==
            if SomeBuiltin(name, value) then Best(BUILTINS, name, value)
            else if RecordOf(inputs, Signature(value)).promoted then Some(Learned(Signature(value))) else None
  {
    hide Best, SomeBuiltin, Signature, RecordOf, Run, BUILTINS;
    OrderDoesNotMatter(patterns, BUILTINS + Run(inputs).learned, name, value);
    RunIsCharacterized(inputs);
    RunIsClear(inputs);
    BuiltinsComeFirst(name, value, Run(inputs).learned);
  }

  // A learned pattern of a reachable corpus generates what it says.
  lemma LearnedGenerates(inputs: seq<Input>, shape: string, draws: seq<Draw>, seed: string, want: int)
    requires Learned(shape) in Run(inputs).learned && want > 0 && forall d | d in draws :: |d| == |shape|
    ensures match Generation(shape, RingAt(Run(inputs).byShape, shape), draws, seed, want)
            case Returned(out) => |out| == want && Variants(out, shape, seed)
                                  && forall v | v in out :: Accepts(Learned(shape), "", v)
            case StillDrawing(out) => |out| < want
  {
    RunIsCharacterized(inputs);
    var members := Members(inputs, shape);
    MembersAre(inputs, shape);
    assert |members| >= LEARN_MIN_SAMPLES;
    assert members[0] in members;
    SignatureIdempotent(members[0].value);
    ShapeRingMatches(inputs, shape);
    GenerateIsExact(shape, RingAt(Run(inputs).byShape, shape), draws, seed, want);
  }

  // ---------- the order of ingestion ----------

  lemma {:induction false} MembersCounted(inputs: seq<Input>, shape: string, i: Input)
    ensures multiset(Members(inputs, shape))[i] ==
            if Clusters(i) && Signature(i.value) == shape then multiset(inputs)[i] else 0
  {
    hide Clusters, Signature;
    if inputs != [] {
      var front, last := inputs[..|inputs| - 1], inputs[|inputs| - 1];
      MembersCounted(front, shape, i);
      assert inputs == front + [last];
      MembersSnoc(front, last, shape);
    }
  }

  lemma SameMultiset(a: seq<Input>, b: seq<Input>, shape: string)
    requires multiset(a) == multiset(b)
    ensures multiset(Members(a, shape)) == multiset(Members(b, shape))
  {
    forall i ensures multiset(Members(a, shape))[i] == multiset(Members(b, shape))[i] {
      MembersCounted(a, shape, i);
      MembersCounted(b, shape, i);
    }
  }

  lemma SameRecord(a: seq<Input>, b: seq<Input>, shape: string)
    requires multiset(a) == multiset(b)
    ensures RecordOf(a, shape) == RecordOf(b, shape) && (Members(a, shape) != [] <==> Members(b, shape) != [])
  {
    SameMultiset(a, b, shape);
    hide Members, Ripe, ParamsOf;
    SameMembership(Members(a, shape), Members(b, shape));
  }

  lemma SameMembership(m: seq<Input>, n: seq<Input>)
    requires multiset(m) == multiset(n)
    ensures |m| == |n| && ParamsOf(m) == ParamsOf(n)
  {
    hide ToLower;
    assert |m| == |multiset(m)| && |n| == |multiset(n)|;
    forall i ensures i in m <==> i in n {
      assert i in m <==> i in multiset(m);
      assert i in n <==> i in multiset(n);
    }
    forall p ensures p in ParamsOf(m) <==> p in ParamsOf(n) {}
  }

  // Whatever order the pages are processed in, the same shapes are learned and
  // every value is classified alike afterwards.
  lemma IngestionOrderDoesNotMatter(a: seq<Input>, b: seq<Input>)
    requires multiset(a) == multiset(b)
    ensures Run(a).records == Run(b).records
    ensures forall p :: p in Run(a).learned <==> p in Run(b).learned
    ensures |Run(a).learned| == |Run(b).learned|
    ensures forall name, value ::
            Best(BUILTINS + Run(a).learned, name, value) == Best(BUILTINS + Run(b).learned, name, value)
  {
    hide Run, RecordOf, Members, Best, BUILTINS;
    RunIsCharacterized(a);
    RunIsCharacterized(b);
    forall shape
      ensures RecordOf(a, shape) == RecordOf(b, shape) && (Members(a, shape) != [] <==> Members(b, shape) != [])
    {
      SameRecord(a, b, shape);
    }
    SameState(Run(a), Run(b), a, b);
    forall name, value
      ensures Best(BUILTINS + Run(a).learned, name, value) == Best(BUILTINS + Run(b).learned, name, value)
    {
      OrderDoesNotMatter(BUILTINS + Run(a).learned, BUILTINS + Run(b).learned, name, value);
    }
  }

  lemma SameState(s: State, t: State, a: seq<Input>, b: seq<Input>)
    requires Characterized(s, a) && Characterized(t, b)
    requires forall shape ::
               RecordOf(a, shape) == RecordOf(b, shape) && (Members(a, shape) != [] <==> Members(b, shape) != [])
    ensures s.records == t.records && (forall p :: p in s.learned <==> p in t.learned) && |s.learned| == |t.learned|
  {
    hide RecordOf, Members;
    forall shape | shape in s.records ensures s.records[shape] == t.records[shape] {
      assert RecordAt(s.records, shape) == RecordAt(t.records, shape);
    }
    forall p ensures p in s.learned <==> p in t.learned {
      if p.Learned? { assert Learned(p.shape) in s.learned <==> Learned(p.shape) in t.learned; }
    }
    DistinctSize(s.learned, t.learned);
  }

  lemma DistinctSize(x: seq<Pattern>, y: seq<Pattern>)
    requires forall p :: p in x <==> p in y
    requires (forall i, j | 0 <= i < j < |x| :: x[i] != x[j]) && forall i, j | 0 <= i < j < |y| :: y[i] != y[j]
    ensures |x| == |y|
  {
    DistinctCard(x);
    DistinctCard(y);
    assert (set p | p in x) == (set p | p in y);
  }

  lemma {:induction false} DistinctCard(x: seq<Pattern>)
    requires forall i, j | 0 <= i < j < |x| :: x[i] != x[j]
    ensures |set p | p in x| == |x|
  {
    if x != [] {
      var front, last := x[..|x| - 1], x[|x| - 1];
      DistinctCard(front);
      assert x == front + [last];
      assert (set p | p in x) == (set p | p in front) + {last};
      assert last !in front;
    }
  }

  // ---------- a learned pattern that cannot generate ----------

  const DASHES: seq<Input> := [Input("a", "--"), Input("b", "--"), Input("a", "--")]

  lemma DashesAreMembers()
    ensures Members(DASHES, "--") == DASHES
  {
    DashesCluster("a");
    DashesCluster("b");
    DashesAreRigid();
    AllMembers(DASHES[0], DASHES[1], "--");
  }

  lemma AllMembers(x: Input, y: Input, shape: string)
    requires Clusters(x) && Clusters(y) && Signature(x.value) == Signature(y.value) == shape
    ensures Members([x, y, x], shape) == [x, y, x]
  {
    assert Members([], shape) == [];
    hide Clusters, Signature, Members;
    assert Members([x], shape) == [x] by {
      MembersSnoc([], x, shape);
      assert [] + [x] == [x];
    }
    assert Members([x, y], shape) == [x, y] by {
      MembersSnoc([x], y, shape);
      assert [x] + [y] == [x, y];
    }
    MembersSnoc([x, y], x, shape);
    assert [x, y] + [x] == [x, y, x];
  }

  lemma DashesAreRipe()
    ensures Ripe(|DASHES|, ParamsOf(DASHES))
  {
    assert ToLower("a") == "a" && ToLower("b") == "b";
    assert DASHES[0] in DASHES && DASHES[1] in DASHES;
    hide ToLower;
    var params := ParamsOf(DASHES);
    assert {"a", "b"} <= params;
    SubsetCount({"a", "b"}, params);
    assert "a"[0] != "b"[0];
    assert |{"a", "b"}| == 2;
  }

  // Three separator-only values under two names teach a shape with a single
  // value; asked for a variant of that value, its pattern draws for ever.
  lemma RigidShapeCanBeLearned(draws: seq<Draw>, want: int)
    requires want > 0 && forall d | d in draws :: |d| == 2
    ensures Learned("--") in Run(DASHES).learned
    ensures Generation("--", RingAt(Run(DASHES).byShape, "--"), draws, "--", want) == StillDrawing([])
  {
    DashesAreLearned();
    DashesRing();
    hide *;
    DashesAreRigid();
    RigidShapeSpins("--", draws, want);
  }

  lemma DashesRing()
    ensures RingAt(Run(DASHES).byShape, "--") == ["--"]
  {
    hide Run, Members, RingAt, Pushes;
    ShapeRingIs(DASHES, "--");
    DashesAreMembers();
    DashValues();
    hide ValuesOf;
    SameValueThrice("--", SHAPE_CAP);
  }

  lemma DashValues()
    ensures ValuesOf(DASHES) == ["--", "--", "--"]
  {
  }

  lemma SameValueThrice(v: string, cap: nat)
    requires v != "" && cap > 0
    ensures Pushes([v, v, v], cap) == [v]
  {
    assert Pushes([], cap) == [];
    hide Pushes;
    PushesSnoc([], cap, v);
    PushesSnoc([v], cap, v);
    PushesSnoc([v, v], cap, v);
    assert [] + [v] == [v] && [v] + [v] == [v, v] && [v, v] + [v] == [v, v, v];
  }

  lemma DashesAreRigid()
    ensures IsSignature("--") && Rigid("--")
  {
    SignatureAt("--", 0);
    SignatureAt("--", 1);
  }

  lemma DashesAreLearned()
    ensures Learned("--") in Run(DASHES).learned
  {
    hide Run, Members, ParamsOf, Ripe, Signature;
    DashesAreMembers();
    DashesAreRipe();
    RunIsCharacterized(DASHES);
    assert RecordOf(DASHES, "--").promoted;
  }

  lemma DashesCluster(name: string)
    requires name == "a" || name == "b"
    ensures Clusters(Input(name, "--"))
  {
    var v := "--";
    assert v[0] == '-' && |v| == 2;
    assert ToLower(name) == name;
    assert !UsernameHint(name) by { assert |ToLower(name)| == 1; }
    forall p | p in BUILTINS ensures !Accepts(p, ToLower(name), v) {
      assert p.Builtin?;
      assert p.family == Username ==> !UsernameHint(name);
    }
  }
}
