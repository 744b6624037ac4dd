/**
  The result addressing scheme shared by the three callers: a pipeline run
  yields a flat map from string keys to strings, and a caller reads one unit's
  verdict or explanation from the key it computes ahead of time.

  A key is `<Pipeline>_root.block`, then `.layer[i]` when the unit sits in a
  layer (absent for a unit attached straight to the pipeline), then
  `.unit[CategoricalJudge <Name>]`, then `_choice` or `_explanation`.
  How the `verdict` library itself generates these keys is not part of this
  model; the callers' convention is.
*/
module Addressing {
  import opened Wrappers

  /** What `pipeline.run` returns as its first component. */
  type ResultMap = map<string, string>

  /** `result.get(key, '')`: empty exactly when the key is missing or stored empty; a non-empty value is the stored one. */
  function Get(result: ResultMap, key: string): (value: string)
    ensures value == "" <==> (key !in result || result[key] == "")
    ensures value != "" ==> key in result && result[key] == value
  {
    if key in result then result[key] else ""
  }

  /** Which of a unit's two outputs a key names. */
  datatype Field = Choice | Explanation

  function Suffix(field: Field): string
  {
    match field
    case Choice => "_choice"
    case Explanation => "_explanation"
  }

  // ---------------------------------------------------------------------------
  // Decimal rendering of a layer index
  // ---------------------------------------------------------------------------

  predicate IsDigit(c: char)
  {
    '0' <= c <= '9'
  }

  function DigitChar(d: nat): (c: char)
    requires d < 10
    ensures IsDigit(c)
  {
    (('0' as int) + d) as char
  }

  function DigitValue(c: char): nat
  {
    if IsDigit(c) then (c as int) - ('0' as int) else 0
  }

  /** The decimal digits of `n`, most significant first, as an f-string renders it. */
  function Decimal(n: nat): (s: string)
    ensures |s| >= 1
    ensures forall k :: 0 <= k < |s| ==> IsDigit(s[k])
  {
    if n < 10 then [DigitChar(n)] else Decimal(n / 10) + [DigitChar(n % 10)]
  }

  /** Reads a string of decimal digits back as a number. */
  function ParseDecimal(s: string): nat
  {
    if s == [] then 0 else ParseDecimal(s[..|s| - 1]) * 10 + DigitValue(s[|s| - 1])
  }

  lemma {:induction false} DecimalRoundTrip(n: nat)
    ensures ParseDecimal(Decimal(n)) == n
  {
    if n >= 10 {
      var s := Decimal(n);
      assert s[..|s| - 1] == Decimal(n / 10);
      DecimalRoundTrip(n / 10);
    }
  }

  /** Distinct layer indices render as distinct strings. */
  lemma DecimalInjective(a: nat, b: nat)
    ensures Decimal(a) == Decimal(b) ==> a == b
  {
    DecimalRoundTrip(a);
    DecimalRoundTrip(b);
  }

  // ---------------------------------------------------------------------------
  // Keys
  // ---------------------------------------------------------------------------

  function LayerSegment(layer: Option<nat>): string
  {
    match layer
    case None => ""
    case Some(i) => ".layer[" + Decimal(i) + "]"
  }

  /** The `.unit[...]` segment naming a unit. */
  function UnitSegment(unitName: string): string
  {
    ".unit[CategoricalJudge " + unitName + "]"
  }

  /** The key base of a unit: everything but the `_choice`/`_explanation` suffix. It starts at the pipeline's root block and ends with the unit segment. */
  function UnitBase(pipeline: string, layer: Option<nat>, unitName: string): (base: string)
    ensures pipeline + "_root.block" <= base
    ensures |base| >= |UnitSegment(unitName)| && base[|base| - |UnitSegment(unitName)|..] == UnitSegment(unitName)
  {
    var base := pipeline + "_root.block" + (LayerSegment(layer) + UnitSegment(unitName));
    assert base == (pipeline + "_root.block" + LayerSegment(layer)) + UnitSegment(unitName);
    base
  }

  /** The key under which a run stores `field` of the unit `unitName`: the unit's base, then the field's suffix. */
  function KeyFor(pipeline: string, layer: Option<nat>, unitName: string, field: Field): (key: string)
    ensures UnitBase(pipeline, layer, unitName) <= key
    ensures key[|UnitBase(pipeline, layer, unitName)|..] == Suffix(field)
  {
    UnitBase(pipeline, layer, unitName) + Suffix(field)
  }

  /** The layer segments of the first two layers, as the callers write them. */
  lemma FirstLayerSegments()
    ensures LayerSegment(Some(0)) == ".layer[0]"
    ensures LayerSegment(Some(1)) == ".layer[1]"
  {
  }

  /**
    A key spelled out from its pieces: once the root block, the layer segment
    and the unit segment are known as literals, so are the base and both keys.
  */
  lemma SpelledKeys(pipeline: string, layer: Option<nat>, unitName: string, head: string, segment: string, unit: string)
    requires pipeline + "_root.block" == head
    requires LayerSegment(layer) == segment
    requires UnitSegment(unitName) == unit
    ensures UnitBase(pipeline, layer, unitName) == head + segment + unit
    ensures KeyFor(pipeline, layer, unitName, Choice) == head + segment + unit + "_choice"
    ensures KeyFor(pipeline, layer, unitName, Explanation) == head + segment + unit + "_explanation"
  {
  }

  /**
    Within one pipeline, a key determines the unit's position, its name and
    the field: no two units, and no two fields of one unit, share a key.
  */
  lemma KeyForInjective(pipeline: string, layer1: Option<nat>, name1: string, field1: Field,
                        layer2: Option<nat>, name2: string, field2: Field)
    requires KeyFor(pipeline, layer1, name1, field1) == KeyFor(pipeline, layer2, name2, field2)
    ensures layer1 == layer2 && name1 == name2 && field1 == field2
  {
    var base1, base2 := UnitBase(pipeline, layer1, name1), UnitBase(pipeline, layer2, name2);
    // The two suffixes end in different letters, so the last character fixes the field.
    LastOfConcat(base1, Suffix(field1));
    LastOfConcat(base2, Suffix(field2));
    assert field1 == field2;
    CancelSuffix(base1, base2, Suffix(field1));
    var head := pipeline + "_root.block";
    assert base1 == head + (LayerSegment(layer1) + UnitSegment(name1));
    assert base2 == head + (LayerSegment(layer2) + UnitSegment(name2));
    CancelPrefix(head, LayerSegment(layer1) + UnitSegment(name1), LayerSegment(layer2) + UnitSegment(name2));
    LayerSegmentsAgree(layer1, layer2, name1, name2);
    CancelPrefix(LayerSegment(layer1), UnitSegment(name1), UnitSegment(name2));
    UnitSegmentInjective(name1, name2);
  }

  lemma LastOfConcat(a: string, b: string)
    requires |b| > 0
    ensures (a + b)[|a + b| - 1] == b[|b| - 1]
  {
  }

  lemma Regroup(a: string, b: string, c: string, d: string)
    ensures a + b + c + d == a + (b + (c + d))
  {
  }

  lemma CancelSuffix(a: string, b: string, s: string)
    requires a + s == b + s
    ensures a == b
  {
    assert a == (a + s)[..|a|];
    assert b == (b + s)[..|b|];
  }

  lemma CancelPrefix(p: string, a: string, b: string)
    requires p + a == p + b
    ensures a == b
  {
    assert a == (p + a)[|p|..];
    assert b == (p + b)[|p|..];
  }

  lemma UnitSegmentInjective(name1: string, name2: string)
    requires UnitSegment(name1) == UnitSegment(name2)
    ensures name1 == name2
  {
    var front := ".unit[CategoricalJudge ";
    assert UnitSegment(name1) == front + (name1 + "]");
    assert UnitSegment(name2) == front + (name2 + "]");
    CancelPrefix(front, name1 + "]", name2 + "]");
    CancelSuffix(name1, name2, "]");
  }

  /** Helper: a layer segment followed by a unit segment is read back unambiguously. */
  lemma LayerSegmentsAgree(layer1: Option<nat>, layer2: Option<nat>, name1: string, name2: string)
    requires LayerSegment(layer1) + UnitSegment(name1) == LayerSegment(layer2) + UnitSegment(name2)
    ensures layer1 == layer2
  {
    if layer1.None? && layer2.Some? {
      LayerNeverUnit(layer2.value, name2, name1);
    } else if layer1.Some? && layer2.None? {
      LayerNeverUnit(layer1.value, name1, name2);
    } else if layer1.Some? {
      LayerIndexAgree(layer1.value, layer2.value, name1, name2);
    }
  }

  lemma LayerIndexAgree(i: nat, j: nat, name1: string, name2: string)
    requires LayerSegment(Some(i)) + UnitSegment(name1) == LayerSegment(Some(j)) + UnitSegment(name2)
    ensures i == j
  {
    var r1, r2 := Decimal(i) + ("]" + UnitSegment(name1)), Decimal(j) + ("]" + UnitSegment(name2));
    Regroup(".layer[", Decimal(i), "]", UnitSegment(name1));
    Regroup(".layer[", Decimal(j), "]", UnitSegment(name2));
    CancelPrefix(".layer[", r1, r2);
    DigitsBeforeBracket(Decimal(i), Decimal(j), "]" + UnitSegment(name1), "]" + UnitSegment(name2));
    DecimalInjective(i, j);
  }

  /** A key with a layer segment differs from one without: ".layer[" against ".unit[". */
  lemma LayerNeverUnit(i: nat, name: string, other: string)
    ensures LayerSegment(Some(i)) + UnitSegment(name) != UnitSegment(other)
  {
    var t := LayerSegment(Some(i)) + UnitSegment(name);
    assert t[1] == 'l';
    assert UnitSegment(other)[1] == 'u';
  }

  /** Two digit strings each followed by `]` are equal when the whole strings are. */
  lemma DigitsBeforeBracket(d1: string, d2: string, rest1: string, rest2: string)
    requires forall k :: 0 <= k < |d1| ==> IsDigit(d1[k])
    requires forall k :: 0 <= k < |d2| ==> IsDigit(d2[k])
    requires |rest1| > 0 && rest1[0] == ']' && |rest2| > 0 && rest2[0] == ']'
    requires d1 + rest1 == d2 + rest2
    ensures d1 == d2
  {
    assert (d1 + rest1)[|d1|] == ']' && (d2 + rest2)[|d2|] == ']';
    if |d1| < |d2| {
      assert false;
    } else if |d2| < |d1| {
      assert false;
    }
    assert d1 == (d1 + rest1)[..|d1|];
    assert d2 == (d2 + rest2)[..|d2|];
  }

  // ---------------------------------------------------------------------------
  // Pipeline configuration
  // ---------------------------------------------------------------------------

  /** A `CategoricalJudgeUnit`: its name, its allowed labels and whether it explains itself. */
  datatype JudgeUnit = JudgeUnit(name: string, categories: seq<string>, explanation: bool)

  /** A stage is a unit attached straight to the pipeline or a `Layer` of units. */
  datatype Stage = Direct(unit: JudgeUnit) | Layer(units: seq<JudgeUnit>)

  datatype Pipeline = Pipeline(name: string, stages: seq<Stage>)

  /** `pipeline >> stage`. */
  function Then(pipeline: Pipeline, stage: Stage): Pipeline
  {
    pipeline.(stages := pipeline.stages + [stage])
  }

  /** The callers' convention: a layer at stage `i` is addressed as `.layer[i]`, a direct unit without a layer segment. */
  function StageLayer(pipeline: Pipeline, i: nat): Option<nat>
    requires i < |pipeline.stages|
  {
    if pipeline.stages[i].Layer? then Some(i) else None
  }

  /** The key of `field` of the unit at stage `i` (for a layer, its member `unit`). */
  function StageKey(pipeline: Pipeline, i: nat, unit: JudgeUnit, field: Field): string
    requires i < |pipeline.stages|
  {
    KeyFor(pipeline.name, StageLayer(pipeline, i), unit.name, field)
  }

  /** Two layer stages of one pipeline are never addressed alike, whatever their units are called. */
  lemma DistinctLayersDistinctKeys(pipeline: Pipeline, i: nat, j: nat, u: JudgeUnit, v: JudgeUnit, f: Field, g: Field)
    requires i < j < |pipeline.stages|
    requires pipeline.stages[i].Layer? && pipeline.stages[j].Layer?
    ensures StageKey(pipeline, i, u, f) != StageKey(pipeline, j, v, g)
  {
    if StageKey(pipeline, i, u, f) == StageKey(pipeline, j, v, g) {
      KeyForInjective(pipeline.name, Some(i), u.name, f, Some(j), v.name, g);
    }
  }
}
