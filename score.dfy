/**
 * The validation `score` endpoint: the enabled dimensions' weights, which must sum to exactly
 * 100; the request's scores clamped to [0, 100] over those dimensions; the weighted overall
 * score; and the three-sentence rationale. The `validation_dimensions` query's rows are a
 * parameter, and the two writes are kept as maps keyed by idea id.
 */
module Scoring {
  import opened Wrappers
  import opened Text
  import opened Keyed
  import JsValue

  /** An enabled row of `validation_dimensions`. */
  datatype DimensionRow = DimensionRow(key: string, weight: real)

  datatype ScoreResponse = ScoreResponse(dims: seq<Slot<real>>, overall: real, rationale: string)

  /** `configuredDims` after the rows loop: a later row with the same key overwrites the earlier one. */
  function Configured(rows: seq<DimensionRow>): (r: seq<Slot<real>>)
    ensures DistinctKeys(r)
  {
    if rows == [] then []
    else
      var init := Configured(rows[..|rows| - 1]);
      var last := rows[|rows| - 1];
      PutKeepsDistinct(init, last.key, last.weight);
      Put(init, last.key, last.weight)
  }

  /** `totalWeight` after the rows loop: every row counts, repeated keys included. */
  function TotalWeight(rows: seq<DimensionRow>): real {
    if rows == [] then 0.0 else TotalWeight(rows[..|rows| - 1]) + rows[|rows| - 1].weight
  }

  function WeightsMessage(total: real): string {
    "Dimension weights must sum to 100, got " + JsValue.NumberToString(total)
  }

  /** `Math.max(0, Math.min(100, value))`. */
  function Clamp(v: real): (r: real)
    ensures 0.0 <= r <= 100.0
    ensures 0.0 <= v <= 100.0 ==> r == v
    ensures v < 0.0 ==> r == 0.0
    ensures v > 100.0 ==> r == 100.0
  {
    var m := if v < 100.0 then v else 100.0;
    if m > 0.0 then m else 0.0
  }

  /** The value the request's `dimensions` object holds for `key`: its last entry with that key. */
  function Supplied(supplied: seq<Slot<real>>, key: string): Option<real> {
    if supplied == [] then None
    else if supplied[|supplied| - 1].key == key then Some(supplied[|supplied| - 1].val)
    else Supplied(supplied[..|supplied| - 1], key)
  }

  /** The score a configured dimension ends with: the clamped supplied value, or else its weight. */
  function Chosen(supplied: seq<Slot<real>>, key: string, weight: real): real {
    match Supplied(supplied, key)
    case Some(v) => Clamp(v)
    case None => weight
  }

  /** `dims`: a copy of `configuredDims`, then each supplied entry whose key is configured, clamped. */
  function Adjusted(configured: seq<Slot<real>>, supplied: seq<Slot<real>>): seq<Slot<real>> {
    if supplied == [] then configured
    else
      var a := Adjusted(configured, supplied[..|supplied| - 1]);
      var last := supplied[|supplied| - 1];
      if IndexOf(configured, last.key).Some? then Put(a, last.key, Clamp(last.val)) else a
  }

  /** `configuredDims[key] || 0`. */
  function WeightOf(configured: seq<Slot<real>>, key: string): real {
    match IndexOf(configured, key)
    case Some(i) => configured[i].val
    case None => 0.0
  }

  /** What one dimension adds to the overall score. */
  function Share(score: real, weight: real): real {
    score * weight / 100.0
  }

  /** `overall` after the loop over the entries of `dims`. */
  function Overall(dims: seq<Slot<real>>, configured: seq<Slot<real>>): real {
    if dims == [] then 0.0
    else
      var last := dims[|dims| - 1];
      Overall(dims[..|dims| - 1], configured) + Share(last.val, WeightOf(configured, last.key))
  }

  const StrongOpener := "This idea shows strong potential across multiple dimensions."
  const ModerateOpener := "This idea has moderate potential with some areas for improvement."
  const WeakOpener := "This idea faces significant challenges that should be addressed."

  function Opener(overall: real): string {
    if overall >= 75.0 then StrongOpener
    else if overall >= 50.0 then ModerateOpener
    else WeakOpener
  }

  /** `key.replace(/_/g, ' ')`. */
  function Label(key: string): string {
    ReplaceChar(key, '_', ' ')
  }

  function Labels(s: seq<Slot<real>>): (r: seq<string>)
    ensures |r| == |s| && forall i :: 0 <= i < |r| ==> r[i] == Label(s[i].key)
  {
    seq(|s|, i requires 0 <= i < |s| => Label(s[i].key))
  }

  /** The rank of a dimension is its score. */
  function ScoreRank(v: real): real { v }

  /** `Object.entries(dims).sort((a, b) => b[1] - a[1])`. */
  function Ranked(dims: seq<Slot<real>>): (r: seq<Slot<real>>)
    ensures |r| == |dims| && multiset(r) == multiset(dims) && SortedBy(r, ScoreRank)
  {
    SortBy(dims, ScoreRank)
  }

  function Min(a: nat, b: nat): nat { if a <= b then a else b }

  /** `slice(0, 3)`. */
  function Top(s: seq<Slot<real>>): seq<Slot<real>> {
    if |s| <= 3 then s else s[..3]
  }

  /** `slice(-3)`: the whole sequence when it has at most three entries. */
  function Bottom(s: seq<Slot<real>>): seq<Slot<real>> {
    if |s| <= 3 then s else s[|s| - 3..]
  }

  function StrongestSentence(dims: seq<Slot<real>>): string {
    "Strongest dimensions: " + Join(Labels(Top(Ranked(dims))), ", ") + "."
  }

  function AttentionSentence(dims: seq<Slot<real>>): string {
    "Areas needing attention: " + Join(Labels(Bottom(Ranked(dims))), ", ") + "."
  }

  /** The specification of `GenerateRationale`. */
  function Rationale(dims: seq<Slot<real>>, overall: real): string {
    Join([Opener(overall), StrongestSentence(dims), AttentionSentence(dims)], " ")
  }

  /** The specification of `score` when the weights sum to 100. */
  function Scored(rows: seq<DimensionRow>, supplied: seq<Slot<real>>): ScoreResponse {
    var configured := Configured(rows);
    var dims := Adjusted(configured, supplied);
    var overall := OverallOf(rows, supplied);
    ScoreResponse(dims, overall, Rationale(dims, overall))
  }

  /** The overall score `score` computes from the rows and the request. */
  function OverallOf(rows: seq<DimensionRow>, supplied: seq<Slot<real>>): real {
    Overall(Adjusted(Configured(rows), supplied), Configured(rows))
  }

  /** The rows loop: `configuredDims` and `totalWeight`. */
  method ConfigureDimensions(rows: seq<DimensionRow>) returns (configured: seq<Slot<real>>, totalWeight: real)
    ensures configured == Configured(rows) && totalWeight == TotalWeight(rows)
  {
    configured := [];
    totalWeight := 0.0;
    for k := 0 to |rows|
      invariant configured == Configured(rows[..k]) && totalWeight == TotalWeight(rows[..k])
    {
      assert rows[..k + 1][..k] == rows[..k];
      configured := Put(configured, rows[k].key, rows[k].weight);
      totalWeight := totalWeight + rows[k].weight;
    }
    assert rows[..|rows|] == rows;
  }

  /** The loop over `Object.entries(req.dimensions)` that builds `dims`. */
  method AdjustDimensions(configured: seq<Slot<real>>, supplied: seq<Slot<real>>) returns (dims: seq<Slot<real>>)
    ensures dims == Adjusted(configured, supplied)
  {
    dims := configured;
    for k := 0 to |supplied|
      invariant dims == Adjusted(configured, supplied[..k])
    {
      assert supplied[..k + 1][..k] == supplied[..k];
      if IndexOf(configured, supplied[k].key).Some? {
        dims := Put(dims, supplied[k].key, Clamp(supplied[k].val));
      }
    }
    assert supplied[..|supplied|] == supplied;
  }

  /** The loop that sums `overall`. */
  method OverallScore(dims: seq<Slot<real>>, configured: seq<Slot<real>>) returns (overall: real)
    ensures overall == Overall(dims, configured)
  {
    overall := 0.0;
    for k := 0 to |dims|
      invariant overall == Overall(dims[..k], configured)
    {
      assert dims[..k + 1][..k] == dims[..k];
      var weight := WeightOf(configured, dims[k].key);
      overall := overall + dims[k].val * weight / 100.0;
      assert dims[..k + 1][k] == dims[k];
    }
    assert dims[..|dims|] == dims;
  }

  /** `generateRationale`: the opener, then the two sentences pushed onto `parts`, joined by spaces. */
  method GenerateRationale(dims: seq<Slot<real>>, overall: real) returns (r: string)
    ensures r == Rationale(dims, overall)
  {
    var parts: seq<string> := [];
    if overall >= 75.0 {
      parts := parts + [StrongOpener];
    } else if overall >= 50.0 {
      parts := parts + [ModerateOpener];
    } else {
      parts := parts + [WeakOpener];
    }
    var sorted := Ranked(dims);
    var top3 := Labels(Top(sorted));
    var bottom3 := Labels(Bottom(sorted));
    parts := parts + ["Strongest dimensions: " + Join(top3, ", ") + "."];
    parts := parts + ["Areas needing attention: " + Join(bottom3, ", ") + "."];
    assert parts == [Opener(overall), StrongestSentence(dims), AttentionSentence(dims)];
    r := Join(parts, " ");
  }

  /**
   * `dims` has the configured keys, in their order, and nothing else: a supplied key that is
   * not configured is ignored, a supplied one is clamped, and an unsupplied one keeps its weight.
   */
  lemma {:induction false} AdjustedDims(configured: seq<Slot<real>>, supplied: seq<Slot<real>>)
    requires DistinctKeys(configured)
    ensures var dims := Adjusted(configured, supplied);
      && |dims| == |configured|
      && (forall i :: 0 <= i < |dims| ==> dims[i].key == configured[i].key)
      && (forall i :: 0 <= i < |dims| ==> dims[i].val == Chosen(supplied, configured[i].key, configured[i].val))
    decreases |supplied|
  {
    if supplied != [] {
      var init := supplied[..|supplied| - 1];
      var last := supplied[|supplied| - 1];
      AdjustedDims(configured, init);
      var a := Adjusted(configured, init);
      match IndexOf(configured, last.key)
      case None =>
      case Some(j) =>
        IndexOfFirst(a, last.key, j);
        forall i | 0 <= i < |configured| && i != j
          ensures configured[i].key != last.key
        {
        }
    }
  }

  /** `Σ score · weight / 100` over the first `n` configured dimensions. */
  function WeightedSum(configured: seq<Slot<real>>, supplied: seq<Slot<real>>, n: nat): real
    requires n <= |configured|
  {
    if n == 0 then 0.0
    else
      var d := configured[n - 1];
      WeightedSum(configured, supplied, n - 1) + Share(Chosen(supplied, d.key, d.val), d.val)
  }

  /** The overall score is the weighted sum of the dimension scores over the configured dimensions. */
  lemma OverallIsWeightedSum(rows: seq<DimensionRow>, supplied: seq<Slot<real>>)
    ensures var c := Configured(rows); OverallOf(rows, supplied) == WeightedSum(c, supplied, |c|)
  {
    var c := Configured(rows);
    var dims := Adjusted(c, supplied);
    AdjustedDims(c, supplied);
    OverallPrefix(dims, c, supplied, |dims|);
    assert dims[..|dims|] == dims;
  }

  lemma {:induction false} OverallPrefix(dims: seq<Slot<real>>, c: seq<Slot<real>>, supplied: seq<Slot<real>>, n: nat)
    requires DistinctKeys(c) && |dims| == |c| && n <= |c|
    requires forall i :: 0 <= i < |dims| ==> dims[i].key == c[i].key
    requires forall i :: 0 <= i < |dims| ==> dims[i].val == Chosen(supplied, c[i].key, c[i].val)
    ensures Overall(dims[..n], c) == WeightedSum(c, supplied, n)
  {
    if n > 0 {
      assert dims[..n][..n - 1] == dims[..n - 1];
      OverallPrefix(dims, c, supplied, n - 1);
      IndexOfFirst(c, dims[n - 1].key, n - 1);
    }
  }

  /** With distinct keys every row becomes one configured dimension, in row order. */
  lemma {:induction false} ConfiguredRows(rows: seq<DimensionRow>)
    requires forall i, j :: 0 <= i < j < |rows| ==> rows[i].key != rows[j].key
    ensures |Configured(rows)| == |rows|
    ensures forall i :: 0 <= i < |rows| ==> Configured(rows)[i] == Slot(rows[i].key, rows[i].weight)
  {
    if rows != [] {
      var init := rows[..|rows| - 1];
      ConfiguredRows(init);
      PutNew(Configured(init), rows[|rows| - 1].key, rows[|rows| - 1].weight);
    }
  }

  /** A score in [0, 100] times a non-negative weight, over 100, lies between 0 and the weight. */
  lemma TermBound(score: real, weight: real)
    requires 0.0 <= score <= 100.0 && weight >= 0.0
    ensures 0.0 <= Share(score, weight) <= weight
  {
    assert (100.0 - score) * weight >= 0.0;
    assert 0.0 <= score * weight <= 100.0 * weight;
  }

  /** The sum of the first `n` configured weights. */
  function WeightTotal(c: seq<Slot<real>>, n: nat): real
    requires n <= |c|
  {
    if n == 0 then 0.0 else WeightTotal(c, n - 1) + c[n - 1].val
  }

  lemma {:induction false} WeightedSumBound(c: seq<Slot<real>>, supplied: seq<Slot<real>>, n: nat)
    requires n <= |c|
    requires forall i :: 0 <= i < |c| ==> 0.0 <= c[i].val <= 100.0
    ensures 0.0 <= WeightedSum(c, supplied, n) <= WeightTotal(c, n)
  {
    if n > 0 {
      WeightedSumBound(c, supplied, n - 1);
      var t := Chosen(supplied, c[n - 1].key, c[n - 1].val);
      TermBound(t, c[n - 1].val);
    }
  }

  lemma {:induction false} RowsTotal(rows: seq<DimensionRow>, c: seq<Slot<real>>, n: nat)
    requires n <= |rows| == |c|
    requires forall i :: 0 <= i < |rows| ==> c[i].val == rows[i].weight
    ensures TotalWeight(rows[..n]) == WeightTotal(c, n)
  {
    if n > 0 {
      RowsTotal(rows, c, n - 1);
      assert rows[..n][..n - 1] == rows[..n - 1];
    } else {
      assert rows[..n] == [];
    }
  }

  /**
   * With distinct dimension keys, non-negative weights and the sum of 100 that `score`
   * demands, the overall score lies in [0, 100].
   */
  lemma OverallBounded(rows: seq<DimensionRow>, supplied: seq<Slot<real>>)
    requires forall i, j :: 0 <= i < j < |rows| ==> rows[i].key != rows[j].key
    requires forall i :: 0 <= i < |rows| ==> rows[i].weight >= 0.0
    requires TotalWeight(rows) == 100.0
    ensures 0.0 <= OverallOf(rows, supplied) <= 100.0
  {
    var c := Configured(rows);
    ConfiguredTotal(rows);
    WeightsBounded(c);
    WeightedSumBound(c, supplied, |c|);
    OverallIsWeightedSum(rows, supplied);
  }

  /** With distinct keys the configured weights are the rows' weights, so they have the same total. */
  lemma ConfiguredTotal(rows: seq<DimensionRow>)
    requires forall i, j :: 0 <= i < j < |rows| ==> rows[i].key != rows[j].key
    ensures var c := Configured(rows);
      && |c| == |rows|
      && (forall i :: 0 <= i < |rows| ==> c[i].val == rows[i].weight)
      && TotalWeight(rows) == WeightTotal(c, |c|)
  {
    ConfiguredRows(rows);
    RowsTotal(rows, Configured(rows), |rows|);
    assert rows[..|rows|] == rows;
  }

  /** Non-negative weights summing to 100 are each at most 100. */
  lemma WeightsBounded(c: seq<Slot<real>>)
    requires forall i :: 0 <= i < |c| ==> c[i].val >= 0.0
    requires WeightTotal(c, |c|) == 100.0
    ensures forall i :: 0 <= i < |c| ==> c[i].val <= 100.0
  {
    forall i | 0 <= i < |c|
      ensures c[i].val <= WeightTotal(c, |c|)
    {
      PartAtMostTotal(c, i, |c|);
    }
  }

  lemma {:induction false} PartAtMostTotal(c: seq<Slot<real>>, i: nat, n: nat)
    requires i < n <= |c| && forall j :: 0 <= j < |c| ==> c[j].val >= 0.0
    ensures c[i].val <= WeightTotal(c, n)
  {
    WeightTotalNonNegative(c, n - 1);
    if i < n - 1 {
      PartAtMostTotal(c, i, n - 1);
    }
  }

  lemma {:induction false} WeightTotalNonNegative(c: seq<Slot<real>>, n: nat)
    requires n <= |c| && forall j :: 0 <= j < |c| ==> c[j].val >= 0.0
    ensures WeightTotal(c, n) >= 0.0
  {
    if n > 0 {
      WeightTotalNonNegative(c, n - 1);
    }
  }

  /** The opener names the band of the overall score: at least 75, at least 50, or below. */
  lemma OpenerBands(overall: real)
    ensures Opener(overall) == StrongOpener <==> overall >= 75.0
    ensures Opener(overall) == ModerateOpener <==> 50.0 <= overall < 75.0
    ensures Opener(overall) == WeakOpener <==> overall < 50.0
  {
    assert |StrongOpener| != |ModerateOpener| && |ModerateOpener| != |WeakOpener| && |StrongOpener| != |WeakOpener|;
  }

  /** The rationale is the opener and the two dimension sentences, separated by single spaces. */
  lemma RationaleSentences(dims: seq<Slot<real>>, overall: real)
    ensures Rationale(dims, overall) == Opener(overall) + " " + StrongestSentence(dims) + " " + AttentionSentence(dims)
  {
    var parts := [Opener(overall), StrongestSentence(dims), AttentionSentence(dims)];
    assert parts[1..] == [StrongestSentence(dims), AttentionSentence(dims)];
    assert parts[1..][1..] == [AttentionSentence(dims)];
    assert Join(parts[1..], " ") == StrongestSentence(dims) + " " + AttentionSentence(dims);
  }

  /**
   * The strongest list holds the three highest-scoring dimensions (all of them when there are
   * at most three), the attention list the three lowest, and both list only dimensions of `dims`.
   */
  lemma TopAndBottom(dims: seq<Slot<real>>)
    ensures var s := Ranked(dims);
      && |Top(s)| == Min(3, |dims|) && |Bottom(s)| == Min(3, |dims|)
      && (forall x :: x in Top(s) ==> x in dims)
      && (forall x :: x in Bottom(s) ==> x in dims)
      && (forall x, i :: x in dims && x !in Top(s) && 0 <= i < |Top(s)| ==> x.val <= Top(s)[i].val)
      && (forall x, i :: x in dims && x !in Bottom(s) && 0 <= i < |Bottom(s)| ==> Bottom(s)[i].val <= x.val)
  {
    var s := Ranked(dims);
    SortedEnds(s, dims);
  }

  /** The same facts about any sorted rearrangement `s` of `dims`. */
  lemma SortedEnds(s: seq<Slot<real>>, dims: seq<Slot<real>>)
    requires multiset(s) == multiset(dims) && SortedBy(s, ScoreRank)
    ensures (forall x :: x in Top(s) ==> x in dims) && (forall x :: x in Bottom(s) ==> x in dims)
    ensures forall x, i :: x in dims && x !in Top(s) && 0 <= i < |Top(s)| ==> x.val <= Top(s)[i].val
    ensures forall x, i :: x in dims && x !in Bottom(s) && 0 <= i < |Bottom(s)| ==> Bottom(s)[i].val <= x.val
  {
    forall x | x in Top(s) || x in Bottom(s)
      ensures x in dims
    {
      assert x in multiset(s);
    }
    forall x, i | x in dims && x !in Top(s) && 0 <= i < |Top(s)|
      ensures x.val <= Top(s)[i].val
    {
      assert x in multiset(s);
      var j :| 0 <= j < |s| && s[j] == x;
      assert ScoreRank(s[i].val) >= ScoreRank(s[j].val);
    }
    forall x, i | x in dims && x !in Bottom(s) && 0 <= i < |Bottom(s)|
      ensures Bottom(s)[i].val <= x.val
    {
      assert x in multiset(s);
      var j :| 0 <= j < |s| && s[j] == x;
      var b := |s| - |Bottom(s)| + i;
      assert s[b] == Bottom(s)[i];
      assert ScoreRank(s[j].val) >= ScoreRank(s[b].val);
    }
  }

  /** A dimension label keeps the key's length and has no underscore left. */
  lemma LabelHasNoUnderscore(key: string)
    ensures |Label(key)| == |key| && '_' !in Label(key)
  {
  }

  /** The two tables `score` writes: `idea_validation` rows and the `score` column of `ideas`. */
  class ScoreStore {
    var validations: map<int, ScoreResponse>
    var ideaScores: map<int, real>

    constructor (ideas: map<int, real>)
      ensures validations == map[] && ideaScores == ideas
    {
      validations := map[];
      ideaScores := ideas;
    }

    /**
     * `score`: unless the weights sum to exactly 100 it throws before writing anything;
     * otherwise it upserts the validation and sets the idea's score, which changes no row
     * when the idea does not exist.
     */
    method Score(ideaId: int, rows: seq<DimensionRow>, supplied: seq<Slot<real>>) returns (r: Result<ScoreResponse>)
      modifies this
      ensures TotalWeight(rows) != 100.0 ==>
        r == Err(WeightsMessage(TotalWeight(rows))) && validations == old(validations) && ideaScores == old(ideaScores)
      ensures TotalWeight(rows) == 100.0 ==>
        && r == Ok(Scored(rows, supplied))
        && validations == old(validations)[ideaId := Scored(rows, supplied)]
        && ideaScores == if ideaId in old(ideaScores) then old(ideaScores)[ideaId := Scored(rows, supplied).overall] else old(ideaScores)
    {
      var configured, totalWeight := ConfigureDimensions(rows);
      if totalWeight != 100.0 {
        return Err(WeightsMessage(totalWeight));
      }
      var dims := AdjustDimensions(configured, supplied);
      var overall := OverallScore(dims, configured);
      var rationale := GenerateRationale(dims, overall);
      var response := ScoreResponse(dims, overall, rationale);
      validations := validations[ideaId := response];
      if ideaId in ideaScores {
        ideaScores := ideaScores[ideaId := overall];
      }
      return Ok(response);
    }
  }
}
