/** The scan-lifetime store of seen values (internal/lua_engine/checks/access/idor_corpus.go).
    The mutex makes each Ingest one atomic step. */
module Corpora {
  import opened Options
  import opened Shapes
  import opened Patterns

  // ---------- rings ----------

  // One push on the contents of a ring, oldest first.
  function Pushed(data: seq<string>, cap: nat, v: string): seq<string>
    requires cap > 0
  {
    if v == "" || v in data then data else (if |data| >= cap then data[1..] else data) + [v]
  }

  predicate IsRing(data: seq<string>, cap: nat) {
    && |data| <= cap && "" !in data
    && forall i, j | 0 <= i < j < |data| :: data[i] != data[j]
  }

  lemma PushedIsRing(data: seq<string>, cap: nat, v: string)
    requires cap > 0 && IsRing(data, cap)
    ensures IsRing(Pushed(data, cap, v), cap)
  {
  }

  class RingBuf {
    const cap: nat
    var data: seq<string>
    var seen: set<string>

    ghost predicate Valid()
      reads this
    {
      cap > 0 && IsRing(data, cap) && seen == set v | v in data
    }

    constructor (cap: nat)
      requires cap > 0
      ensures Valid() && this.cap == cap && data == []
    {
      this.cap := cap;
      data, seen := [], {};
    }

    method Push(v: string)
      requires Valid()
      modifies this
      ensures Valid() && data == Pushed(old(data), cap, v)
    {
      if v == "" { return; }
      if v in seen { return; }
      PushedIsRing(data, cap, v);
      if |data| >= cap {
        var drop := data[0];
        data := data[1..];
        seen := seen - {drop};
        assert old(data) == [drop] + data;
      }
      data := data + [v];
      seen := seen + {v};
    }

    method Snapshot() returns (out: seq<string>)
      ensures out == data
    {
      out := data;
    }
  }

  // ---------- keyed rings ----------

  type Rings = map<string, RingBuf>
  type Views = map<string, seq<string>>

  function RingAt(m: Views, key: string): seq<string> { if key in m then m[key] else [] }

  function Filed(m: Views, key: string, cap: nat, v: string): Views
    requires cap > 0
  {
    m[key := Pushed(RingAt(m, key), cap, v)]
  }

  // Each key has a ring of its own.
  ghost predicate Holds(m: Rings, cap: nat)
    reads m.Values
  {
    && (forall k | k in m :: m[k].Valid() && m[k].cap == cap)
    && forall k, l | k in m && l in m && k != l :: m[k] != m[l]
  }

  ghost function View(m: Rings): Views
    reads m.Values
  {
    map k | k in m :: m[k].data
  }

  method File(m: Rings, key: string, cap: nat, v: string) returns (r: Rings)
    requires cap > 0 && Holds(m, cap)
    modifies m.Values
    ensures Holds(r, cap) && fresh(r.Values - m.Values)
    ensures View(r) == old(Filed(View(m), key, cap, v))
  {
    r := m;
    if key !in r {
      var ring := new RingBuf(cap);
      r := r[key := ring];
    }
    r[key].Push(v);
  }

  // ---------- the corpus ----------

  const PARAM_CAP := 32
  const PATTERN_CAP := 64
  const SHAPE_CAP := 32
  const LEARN_MIN_SAMPLES := 3
  const LEARN_MIN_DISTINCT_PARAMS := 2

  datatype ShapeRecord = ShapeRecord(count: nat, params: set<string>, promoted: bool)

  datatype State = State(byParam: Views, byPattern: Views, byShape: Views,
                         records: map<string, ShapeRecord>, learned: seq<Pattern>)

  const EMPTY := State(map[], map[], map[], map[], [])

  function RecordAt(records: map<string, ShapeRecord>, shape: string): ShapeRecord {
    if shape in records then records[shape] else ShapeRecord(0, {}, false)
  }

  predicate Ripe(count: nat, params: set<string>) {
    count >= LEARN_MIN_SAMPLES && |params| >= LEARN_MIN_DISTINCT_PARAMS
  }

  function Counted(st: State, shape: string, name: string): State {
    var before := RecordAt(st.records, shape);
    var rec := before.(count := before.count + 1, params := before.params + {name});
    var promote := !rec.promoted && Ripe(rec.count, rec.params);
    st.(records := st.records[shape := if promote then rec.(promoted := true) else rec],
        learned := if promote then st.learned + [Learned(shape)] else st.learned)
  }

  // A value no built-in pattern took joins the cluster of its shape.
  function Clustered(st: State, name: string, value: string): State {
    var shape := Signature(value);
    Counted(st.(byShape := Filed(st.byShape, shape, SHAPE_CAP, value)), shape, name)
  }

  function Classified(st: State, name: string, value: string): State {
    var p := Best(BUILTINS + st.learned, name, value);
    var filed := if p.None? then st else st.(byPattern := Filed(st.byPattern, Name(p.value), PATTERN_CAP, value));
    if p.Some? && p.value.Builtin? then filed else Clustered(filed, name, value)
  }

  // One call of ingestLocked.
  function Ingested(st: State, name: string, value: string): State {
    if value == "" then st else
      var lower := ToLower(name);
      Classified(st.(byParam := Filed(st.byParam, lower, PARAM_CAP, value)), lower, value)
  }

  class Corpus {
    var valuesByParam: Rings
    var valuesByPattern: Rings
    var valuesByShape: Rings
    var shapeRecords: map<string, ShapeRecord>
    var learned: seq<Pattern>

    ghost function Repr(): set<object>
      reads this
    {
      {this} + valuesByParam.Values + valuesByPattern.Values + valuesByShape.Values
    }

    // Every ring belongs to one key of one map.
    ghost predicate Valid()
      reads this, Repr()
    {
      && Holds(valuesByParam, PARAM_CAP) && Holds(valuesByPattern, PATTERN_CAP) && Holds(valuesByShape, SHAPE_CAP)
      && valuesByParam.Values !! valuesByPattern.Values !! valuesByShape.Values
    }

    ghost function Contents(): State
      reads this, Repr()
    {
      State(View(valuesByParam), View(valuesByPattern), View(valuesByShape), shapeRecords, learned)
    }

    constructor ()
      ensures Valid() && fresh(Repr()) && Contents() == EMPTY
    {
      valuesByParam, valuesByPattern, valuesByShape := map[], map[], map[];
      shapeRecords, learned := map[], [];
    }

    method FileParam(key: string, value: string)
      requires Valid()
      modifies Repr()
      ensures Valid() && fresh(Repr() - old(Repr()))
      ensures Contents() == old(Contents().(byParam := Filed(Contents().byParam, key, PARAM_CAP, value)))
    {
      hide Holds, View, Filed;
      valuesByParam := File(valuesByParam, key, PARAM_CAP, value);
    }

    method FilePattern(key: string, value: string)
      requires Valid()
      modifies Repr()
      ensures Valid() && fresh(Repr() - old(Repr()))
      ensures Contents() == old(Contents().(byPattern := Filed(Contents().byPattern, key, PATTERN_CAP, value)))
    {
      hide Holds, View, Filed;
      valuesByPattern := File(valuesByPattern, key, PATTERN_CAP, value);
    }

    method FileShape(key: string, value: string)
      requires Valid()
      modifies Repr()
      ensures Valid() && fresh(Repr() - old(Repr()))
      ensures Contents() == old(Contents().(byShape := Filed(Contents().byShape, key, SHAPE_CAP, value)))
    {
      hide Holds, View, Filed;
      valuesByShape := File(valuesByShape, key, SHAPE_CAP, value);
    }

    // Count the value under its shape, and promote the shape when it is ripe.
    method Count(shape: string, name: string)
      requires Valid()
      modifies this`shapeRecords, this`learned
      ensures Valid() && Repr() == old(Repr())
      ensures Contents() == old(Counted(Contents(), shape, name))
    {
      hide Holds, View;
      var rec := if shape in shapeRecords then shapeRecords[shape] else ShapeRecord(0, {}, false);
      rec := rec.(count := rec.count + 1, params := rec.params + {name});
      if !rec.promoted && rec.count >= LEARN_MIN_SAMPLES && |rec.params| >= LEARN_MIN_DISTINCT_PARAMS {
        learned := learned + [Learned(shape)];
        rec := rec.(promoted := true);
      }
      shapeRecords := shapeRecords[shape := rec];
    }

    method Cluster(name: string, value: string)
      requires Valid()
      modifies Repr()
      ensures Valid() && fresh(Repr() - old(Repr()))
      ensures Contents() == old(Clustered(Contents(), name, value))
    {
      hide Holds, View, Filed, Signature, Counted;
      var shape := ShapeSignature(value);
      FileShape(shape, value);
      Count(shape, name);
    }

    method Classify(name: string, value: string) returns (best: Option<Pattern>)
      ensures best == Best(BUILTINS + learned, ToLower(name), value)
    {
      best := ClassifyValue(ToLower(name), value, learned);
    }

    method Ingest(name: string, value: string)
      requires Valid()
      modifies Repr()
      ensures Valid() && fresh(Repr() - old(Repr()))
      ensures Contents() == old(Ingested(Contents(), name, value))
    {
      hide Holds, View, Filed, Best, Clustered, Name, ToLower;
      if value == "" { return; }
      var lower := ToLower(name);
      FileParam(lower, value);
      var p := ClassifyValue(lower, value, learned);
      if p.Some? {
        FilePattern(Name(p.value), value);
        if p.value.Builtin? { return; }
      }
      Cluster(lower, value);
    }

    method ValuesForParam(name: string) returns (values: seq<string>)
      requires Valid()
      ensures values == RingAt(Contents().byParam, ToLower(name))
    {
      if ToLower(name) in valuesByParam { values := valuesByParam[ToLower(name)].Snapshot(); } else { values := []; }
    }

    method ValuesForPattern(name: string) returns (values: seq<string>)
      requires Valid()
      ensures values == RingAt(Contents().byPattern, name)
    {
      if name in valuesByPattern { values := valuesByPattern[name].Snapshot(); } else { values := []; }
    }

    method ValuesForShape(shape: string) returns (values: seq<string>)
      requires Valid()
      ensures values == RingAt(Contents().byShape, shape)
    {
      if shape in valuesByShape { values := valuesByShape[shape].Snapshot(); } else { values := []; }
    }
  }
}
