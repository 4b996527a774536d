/** The risk scorer: a checklist payload maps to a score in [0, 10], lower is
    better. Scores are exact integers in hundredths (1.25 is 125), which is
    what rounding the clamped quotient to two decimals yields, since the raw
    sum is an integer and the divisor is 20. */
module RiskScore {
  import opened Checklist

  /** One entry of the weight table: a factor name and its signed weight. */
  type Weight = (string, int)

  /** The fixed table, in the order the job walks it. */
  const RiskWeights: seq<Weight> :=
    [("handwashing", -5), ("pests", 10), ("waste_disposal", 8), ("stagnant_water", 12)]

  /** The raw sum is divided by this before clamping. */
  const Divisor: int := 20

  /** 10.00, the upper clamp bound and the score given to unscorable data. */
  const MaxRisk: int := 1000

  /** The factor names a weight table knows. */
  function FactorNames(weights: seq<Weight>): set<string> {
    set i | 0 <= i < |weights| :: weights[i].0
  }

  /** What one factor adds: its full weight unless it is present. */
  function Contribution(fields: map<string, JsonValue>, w: Weight): int {
    if Present(fields, w.0) then 0 else w.1
  }

  /** The sum of the contributions of every factor of the table. */
  function RawSum(weights: seq<Weight>, fields: map<string, JsonValue>): int {
    if weights == [] then 0 else Contribution(fields, weights[0]) + RawSum(weights[1..], fields)
  }

  /** raw / 20 clamped to [0, 10], in hundredths. */
  function Normalize(raw: int): (r: int)
    ensures 0 <= r <= MaxRisk
    ensures r == 0 <==> raw <= 0
    ensures r == MaxRisk <==> raw >= 10 * Divisor
    ensures 0 < raw < 10 * Divisor ==> r * Divisor == raw * 100
  {
    var hundredths := raw * 5;
    if hundredths < 0 then 0 else if hundredths > MaxRisk then MaxRisk else hundredths
  }

  /** The score a payload gets under a weight table. Text that does not decode
      takes the fail-safe maximum; so does a decoded document that is not an
      object, as soon as the walk over a non-empty table asks it for a factor.
      An empty table asks nothing, so every decoded document then scores 0. */
  function ScoreWith(weights: seq<Weight>, payload: Payload): (r: int)
    ensures 0 <= r <= MaxRisk
    ensures !payload.Decoded? ==> r == MaxRisk
    ensures weights != [] && !payload.IsObject() ==> r == MaxRisk
    ensures weights == [] && payload.Decoded? ==> r == 0
  {
    if !payload.Decoded? then MaxRisk
    else if payload.IsObject() then Normalize(RawSum(weights, payload.value.fields))
    else if weights == [] then Normalize(0)
    else MaxRisk
  }

  /** The score under the job's fixed table. */
  function RiskScore(payload: Payload): int {
    ScoreWith(RiskWeights, payload)
  }

  // ---------------------------------------------------------------------
  // Sums over weight tables

  function WeightTotal(weights: seq<Weight>): int {
    if weights == [] then 0 else weights[0].1 + WeightTotal(weights[1..])
  }

  function PositiveTotal(weights: seq<Weight>): int {
    if weights == [] then 0
    else (if weights[0].1 > 0 then weights[0].1 else 0) + PositiveTotal(weights[1..])
  }

  function NegativeTotal(weights: seq<Weight>): int {
    if weights == [] then 0
    else (if weights[0].1 < 0 then weights[0].1 else 0) + NegativeTotal(weights[1..])
  }

  lemma {:induction false} RawSumAppend(a: seq<Weight>, b: seq<Weight>, fields: map<string, JsonValue>)
    ensures RawSum(a + b, fields) == RawSum(a, fields) + RawSum(b, fields)
  {
    if a != [] {
      assert (a + b)[1..] == a[1..] + b;
      RawSumAppend(a[1..], b, fields);
    } else {
      assert a + b == b;
    }
  }

  /** Extending the walked prefix of the table by one entry adds that entry's contribution. */
  lemma RawSumPrefix(weights: seq<Weight>, i: nat, fields: map<string, JsonValue>)
    requires i < |weights|
    ensures RawSum(weights[..i + 1], fields) == RawSum(weights[..i], fields) + Contribution(fields, weights[i])
  {
    assert weights[..i + 1] == weights[..i] + [weights[i]];
    RawSumAppend(weights[..i], [weights[i]], fields);
  }

  /** The raw sum lies between the sum of the negative and the sum of the positive weights. */
  lemma {:induction false} RawSumBetween(weights: seq<Weight>, fields: map<string, JsonValue>)
    ensures NegativeTotal(weights) <= RawSum(weights, fields) <= PositiveTotal(weights)
  {
    if weights != [] {
      RawSumBetween(weights[1..], fields);
    }
  }

  /** With no factor present, every weight counts in full. */
  lemma {:induction false} NothingPresentSumsAllWeights(weights: seq<Weight>, fields: map<string, JsonValue>)
    requires forall i :: 0 <= i < |weights| ==> !Present(fields, weights[i].0)
    ensures RawSum(weights, fields) == WeightTotal(weights)
  {
    if weights != [] {
      assert !Present(fields, weights[0].0);
      NothingPresentSumsAllWeights(weights[1..], fields);
    }
  }

  /** With every factor present, nothing counts. */
  lemma {:induction false} EverythingPresentSumsToZero(weights: seq<Weight>, fields: map<string, JsonValue>)
    requires forall i :: 0 <= i < |weights| ==> Present(fields, weights[i].0)
    ensures RawSum(weights, fields) == 0
  {
    if weights != [] {
      assert Present(fields, weights[0].0);
      EverythingPresentSumsToZero(weights[1..], fields);
    }
  }

  /** Only the presence of the table's own factors matters to the raw sum. */
  lemma {:induction false} RawSumDependsOnlyOnFactors(weights: seq<Weight>, f1: map<string, JsonValue>, f2: map<string, JsonValue>)
    requires forall i :: 0 <= i < |weights| ==> Present(f1, weights[i].0) == Present(f2, weights[i].0)
    ensures RawSum(weights, f1) == RawSum(weights, f2)
  {
    if weights != [] {
      assert Present(f1, weights[0].0) == Present(f2, weights[0].0);
      RawSumDependsOnlyOnFactors(weights[1..], f1, f2);
    }
  }

  /** Taking one entry out of the table takes out exactly its contribution. */
  lemma RawSumWithout(b: seq<Weight>, k: nat, fields: map<string, JsonValue>)
    requires k < |b|
    ensures RawSum(b, fields) == Contribution(fields, b[k]) + RawSum(b[..k] + b[k + 1..], fields)
  {
    assert b == b[..k] + ([b[k]] + b[k + 1..]);
    RawSumAppend(b[..k], [b[k]] + b[k + 1..], fields);
    RawSumAppend([b[k]], b[k + 1..], fields);
    RawSumAppend(b[..k], b[k + 1..], fields);
  }

  lemma MultisetWithout(b: seq<Weight>, k: nat)
    requires k < |b|
    ensures multiset(b[..k] + b[k + 1..]) == multiset(b) - multiset{b[k]}
  {
    assert b == b[..k] + [b[k]] + b[k + 1..];
  }

  /** The order in which the table is walked does not matter. */
  lemma {:induction false} RawSumOrderIrrelevant(a: seq<Weight>, b: seq<Weight>, fields: map<string, JsonValue>)
    requires multiset(a) == multiset(b)
    ensures RawSum(a, fields) == RawSum(b, fields)
    decreases |a|
  {
    if a == [] {
      assert |b| == |multiset(b)| == 0;
    } else {
      assert a[0] in multiset(b);
      var k :| 0 <= k < |b| && b[k] == a[0];
      MultisetWithout(b, k);
      assert a == [a[0]] + a[1..];
      assert multiset(a[1..]) == multiset(a) - multiset{a[0]};
      RawSumOrderIrrelevant(a[1..], b[..k] + b[k + 1..], fields);
      RawSumWithout(b, k, fields);
    }
  }

  // ---------------------------------------------------------------------
  // Properties of the score under any weight table

  /** Keys outside the table never change the score. */
  lemma ScoreIgnoresOtherKeys(weights: seq<Weight>, fields: map<string, JsonValue>, key: string, v: JsonValue)
    requires key !in FactorNames(weights)
    ensures ScoreWith(weights, Decoded(JObject(fields[key := v]))) == ScoreWith(weights, Decoded(JObject(fields)))
  {
    forall i | 0 <= i < |weights|
      ensures Present(fields[key := v], weights[i].0) == Present(fields, weights[i].0)
    {
      assert weights[i].0 in FactorNames(weights);
    }
    RawSumDependsOnlyOnFactors(weights, fields[key := v], fields);
  }

  /** Reordering the table does not change any score. */
  lemma ScoreOrderIrrelevant(a: seq<Weight>, b: seq<Weight>, payload: Payload)
    requires multiset(a) == multiset(b)
    ensures ScoreWith(a, payload) == ScoreWith(b, payload)
  {
    if payload.IsObject() {
      RawSumOrderIrrelevant(a, b, payload.value.fields);
    }
  }

  // ---------------------------------------------------------------------
  // Properties of the score under the fixed table

  /** The fixed table names four distinct factors, as the keys of a dictionary;
      its weights sum to 25, its positive weights to 30 and its negative ones to -5. */
  lemma RiskWeightsTable()
    ensures FactorNames(RiskWeights) == {"handwashing", "pests", "waste_disposal", "stagnant_water"}
    ensures forall i, j :: 0 <= i < j < |RiskWeights| ==> RiskWeights[i].0 != RiskWeights[j].0
    ensures WeightTotal(RiskWeights) == 25
    ensures PositiveTotal(RiskWeights) == 30 && NegativeTotal(RiskWeights) == -5
  {
    assert RiskWeights[0].0 == "handwashing" && RiskWeights[1].0 == "pests";
    assert RiskWeights[2].0 == "waste_disposal" && RiskWeights[3].0 == "stagnant_water";
  }

  /** Any decodable checklist object scores at most 1.50. */
  lemma DecodedObjectScoresAtMost150(payload: Payload)
    requires payload.IsObject()
    ensures 0 <= RiskScore(payload) <= 150
  {
    RawSumBetween(RiskWeights, payload.value.fields);
    assert PositiveTotal(RiskWeights) == 30;
  }

  /** The maximum score arises exactly from the bad-data branch. */
  lemma MaxRiskIffBadData(payload: Payload)
    ensures RiskScore(payload) == MaxRisk <==> !payload.IsObject()
  {
    if payload.IsObject() {
      DecodedObjectScoresAtMost150(payload);
    }
  }

  /** A checklist object in which no factor is present scores 1.25. */
  lemma NothingPresentScores125(fields: map<string, JsonValue>)
    requires forall f :: f in FactorNames(RiskWeights) ==> !Present(fields, f)
    ensures RiskScore(Decoded(JObject(fields))) == 125
  {
    forall i | 0 <= i < |RiskWeights| ensures !Present(fields, RiskWeights[i].0) {
      assert RiskWeights[i].0 in FactorNames(RiskWeights);
    }
    NothingPresentSumsAllWeights(RiskWeights, fields);
    assert WeightTotal(RiskWeights) == 25;
  }

  /** The empty checklist object scores 1.25: every factor defaults to absent. */
  lemma EmptyChecklistScores125()
    ensures RiskScore(Decoded(JObject(map[]))) == 125
  {
  }

  /** A checklist object in which every factor is present scores 0.00. */
  lemma EverythingPresentScoresZero(fields: map<string, JsonValue>)
    requires forall f :: f in FactorNames(RiskWeights) ==> Present(fields, f)
    ensures RiskScore(Decoded(JObject(fields))) == 0
  {
    forall i | 0 <= i < |RiskWeights| ensures Present(fields, RiskWeights[i].0) {
      assert RiskWeights[i].0 in FactorNames(RiskWeights);
    }
    EverythingPresentSumsToZero(RiskWeights, fields);
  }

  /** handwashing and waste_disposal present, pests and stagnant_water not: raw 22, score 1.10. */
  lemma SampleChecklistScores110()
    ensures RiskScore(Decoded(JObject(map[
      "handwashing" := JBool(true), "pests" := JBool(false),
      "waste_disposal" := JBool(true), "stagnant_water" := JBool(false)]))) == 110
  {
  }
}
