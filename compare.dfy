/**
 * The `compare` endpoint: the requested ideas' rows of `idea_comparison_metrics`, each turned
 * into an idea with twelve named metrics, and, when at least two ideas come back, the max,
 * min, average and range of four of those metrics. The query's rows are a parameter.
 */
module Compare {
  import opened Wrappers
  import opened Keyed
  import JsValue

  /** A row of `idea_comparison_metrics`; the four scored columns are numbers or null. */
  datatype MetricsRow = MetricsRow(
    id: int, title: string,
    score: Option<real>, validationScore: Option<real>, overallScore: Option<real>, marketPotential: Option<real>,
    competitionLevel: JsValue.Value, technicalFeasibility: JsValue.Value,
    monetizationPotential: JsValue.Value, startupViability: JsValue.Value,
    marketVerdict: JsValue.Value, competitiveVerdict: JsValue.Value,
    tagCount: JsValue.Value, exportCount: JsValue.Value)

  datatype Idea = Idea(id: int, title: string, metrics: seq<JsValue.Field>)

  datatype Delta = Delta(max: real, min: real, avg: real, range: real)

  datatype Comparison = Comparison(ideas: seq<Idea>, deltas: seq<Slot<Delta>>)

  const NoIds := "No idea IDs provided"

  const MetricKeys := ["score", "validationScore", "overallScore", "marketPotential",
    "competitionLevel", "technicalFeasibility", "monetizationPotential", "startupViability",
    "marketVerdict", "competitiveVerdict", "tagCount", "exportCount"]

  const DeltaMetrics := ["score", "validationScore", "overallScore", "marketPotential"]

  /** A numeric column as the driver returns it: a number, or `null`. */
  function Column(v: Option<real>): JsValue.Value {
    match v
    case Some(n) => JsValue.Num(n)
    case None => JsValue.Null
  }

  /** The `metrics` object built for one row. */
  function MetricsOf(row: MetricsRow): seq<JsValue.Field> {
    [ JsValue.Field("score", Column(row.score)),
      JsValue.Field("validationScore", Column(row.validationScore)),
      JsValue.Field("overallScore", Column(row.overallScore)),
      JsValue.Field("marketPotential", Column(row.marketPotential)),
      JsValue.Field("competitionLevel", row.competitionLevel),
      JsValue.Field("technicalFeasibility", row.technicalFeasibility),
      JsValue.Field("monetizationPotential", row.monetizationPotential),
      JsValue.Field("startupViability", row.startupViability),
      JsValue.Field("marketVerdict", row.marketVerdict),
      JsValue.Field("competitiveVerdict", row.competitiveVerdict),
      JsValue.Field("tagCount", row.tagCount),
      JsValue.Field("exportCount", row.exportCount) ]
  }

  /** `result.rows.map(...)`. */
  function Ideas(rows: seq<MetricsRow>): (r: seq<Idea>)
    ensures |r| == |rows|
    ensures forall i :: 0 <= i < |r| ==> r[i] == Idea(rows[i].id, rows[i].title, MetricsOf(rows[i]))
  {
    seq(|rows|, i requires 0 <= i < |rows| => Idea(rows[i].id, rows[i].title, MetricsOf(rows[i])))
  }

  /** `i.metrics[metric] || 0`, read as a number. */
  function MetricValue(idea: Idea, metric: string): real {
    match JsValue.Or(JsValue.Lookup(idea.metrics, metric), JsValue.Num(0.0))
    case Num(n) => n
    case _ => 0.0
  }

  function Values(ideas: seq<Idea>, metric: string): (r: seq<real>)
    ensures |r| == |ideas| && forall i :: 0 <= i < |r| ==> r[i] == MetricValue(ideas[i], metric)
  {
    seq(|ideas|, i requires 0 <= i < |ideas| => MetricValue(ideas[i], metric))
  }

  /** `Math.max(...values)`. */
  function MaxOf(values: seq<real>): (r: real)
    requires values != []
    ensures forall i :: 0 <= i < |values| ==> values[i] <= r
  {
    if |values| == 1 then values[0]
    else
      var m := MaxOf(values[1..]);
      assert forall i :: 1 <= i < |values| ==> values[i] == values[1..][i - 1];
      if values[0] >= m then values[0] else m
  }

  /** `Math.min(...values)`. */
  function MinOf(values: seq<real>): (r: real)
    requires values != []
    ensures forall i :: 0 <= i < |values| ==> r <= values[i]
  {
    if |values| == 1 then values[0]
    else
      var m := MinOf(values[1..]);
      assert forall i :: 1 <= i < |values| ==> values[i] == values[1..][i - 1];
      if values[0] <= m then values[0] else m
  }

  /** `Math.max` and `Math.min` pick one of the values. */
  lemma {:induction false} MaxMinIn(values: seq<real>)
    requires values != []
    ensures MaxOf(values) in values && MinOf(values) in values
  {
    if |values| > 1 {
      MaxMinIn(values[1..]);
    }
  }

  /** `values.reduce((sum, v) => sum + v, 0)`. */
  function Sum(values: seq<real>): real {
    if values == [] then 0.0 else Sum(values[..|values| - 1]) + values[|values| - 1]
  }

  function DeltaOf(values: seq<real>): Delta
    requires values != []
  {
    var max := MaxOf(values);
    var min := MinOf(values);
    Delta(max, min, Sum(values) / |values| as real, max - min)
  }

  /** One delta per metric of `metrics`, in order. */
  function DeltasFor(ideas: seq<Idea>, metrics: seq<string>): (r: seq<Slot<Delta>>)
    requires ideas != []
    ensures |r| == |metrics|
  {
    if metrics == [] then []
    else
      var m := metrics[|metrics| - 1];
      DeltasFor(ideas, metrics[..|metrics| - 1]) + [Slot(m, DeltaOf(Values(ideas, m)))]
  }

  /** The specification of the deltas loop: the four metrics, only for two or more ideas. */
  function Deltas(ideas: seq<Idea>): seq<Slot<Delta>> {
    if |ideas| >= 2 then DeltasFor(ideas, DeltaMetrics) else []
  }

  /** `compare`: an empty id list throws; otherwise the ideas and their deltas. */
  method CompareIdeas(ideaIds: seq<int>, rows: seq<MetricsRow>) returns (r: Result<Comparison>)
    ensures ideaIds == [] ==> r == Err(NoIds)
    ensures ideaIds != [] ==> r == Ok(Comparison(Ideas(rows), Deltas(Ideas(rows))))
  {
    if |ideaIds| == 0 {
      return Err(NoIds);
    }
    var ideas := Ideas(rows);
    var deltas: seq<Slot<Delta>> := [];
    if |ideas| >= 2 {
      deltas := ComputeDeltas(ideas, DeltaMetrics);
    }
    return Ok(Comparison(ideas, deltas));
  }

  /** The loop over the scored metrics (`DeltaMetrics` in `compare`) that fills `deltas`. */
  method ComputeDeltas(ideas: seq<Idea>, metrics: seq<string>) returns (deltas: seq<Slot<Delta>>)
    requires |ideas| >= 2
    ensures deltas == DeltasFor(ideas, metrics)
  {
    deltas := [];
    for k := 0 to |metrics|
      invariant deltas == DeltasFor(ideas, metrics[..k])
    {
      DeltasForStep(ideas, metrics, k);
      var metric := metrics[k];
      var values := Values(ideas, metric);
      var max := MaxOf(values);
      var min := MinOf(values);
      var avg := Sum(values) / |values| as real;
      deltas := deltas + [Slot(metric, Delta(max, min, avg, max - min))];
    }
    assert metrics[..|metrics|] == metrics;
  }

  /** Every idea carries the same twelve metric keys, whatever its row holds. */
  lemma SameMetricKeys(rows: seq<MetricsRow>)
    ensures forall i :: 0 <= i < |Ideas(rows)| ==> JsValue.Keys(Ideas(rows)[i].metrics) == MetricKeys
  {
    forall i | 0 <= i < |rows|
      ensures JsValue.Keys(MetricsOf(rows[i])) == MetricKeys
    {
      MetricKeysOf(rows[i]);
    }
  }

  lemma MetricKeysOf(row: MetricsRow)
    ensures JsValue.Keys(MetricsOf(row)) == MetricKeys
  {
    var k := JsValue.Keys(MetricsOf(row));
    assert |k| == 12;
    assert k[0] == MetricKeys[0] && k[1] == MetricKeys[1] && k[2] == MetricKeys[2] && k[3] == MetricKeys[3];
    assert k[4] == MetricKeys[4] && k[5] == MetricKeys[5] && k[6] == MetricKeys[6] && k[7] == MetricKeys[7];
    assert k[8] == MetricKeys[8] && k[9] == MetricKeys[9] && k[10] == MetricKeys[10] && k[11] == MetricKeys[11];
  }

  /** A null column counts as 0 in the deltas; a number counts as itself. */
  lemma NullCountsAsZero(row: MetricsRow)
    ensures var idea := Idea(row.id, row.title, MetricsOf(row));
      && MetricValue(idea, "score") == row.score.UnwrapOr(0.0)
      && MetricValue(idea, "validationScore") == row.validationScore.UnwrapOr(0.0)
      && MetricValue(idea, "overallScore") == row.overallScore.UnwrapOr(0.0)
      && MetricValue(idea, "marketPotential") == row.marketPotential.UnwrapOr(0.0)
  {
    ScoreColumn(row);
    ValidationColumn(row);
    OverallColumn(row);
    MarketColumn(row);
  }

  lemma ScoreColumn(row: MetricsRow)
    ensures MetricValue(Idea(row.id, row.title, MetricsOf(row)), "score") == row.score.UnwrapOr(0.0)
  {
    ColumnValue(Idea(row.id, row.title, MetricsOf(row)), 0, row.score);
  }

  lemma ValidationColumn(row: MetricsRow)
    ensures MetricValue(Idea(row.id, row.title, MetricsOf(row)), "validationScore") == row.validationScore.UnwrapOr(0.0)
  {
    ColumnValue(Idea(row.id, row.title, MetricsOf(row)), 1, row.validationScore);
  }

  lemma OverallColumn(row: MetricsRow)
    ensures MetricValue(Idea(row.id, row.title, MetricsOf(row)), "overallScore") == row.overallScore.UnwrapOr(0.0)
  {
    ColumnValue(Idea(row.id, row.title, MetricsOf(row)), 2, row.overallScore);
  }

  lemma MarketColumn(row: MetricsRow)
    ensures MetricValue(Idea(row.id, row.title, MetricsOf(row)), "marketPotential") == row.marketPotential.UnwrapOr(0.0)
  {
    ColumnValue(Idea(row.id, row.title, MetricsOf(row)), 3, row.marketPotential);
  }

  /** A numeric column read through `|| 0`, when no earlier metric has its name. */
  lemma ColumnValue(idea: Idea, i: nat, v: Option<real>)
    requires i < |idea.metrics| && idea.metrics[i].val == Column(v)
    requires forall j :: 0 <= j < i ==> idea.metrics[j].key != idea.metrics[i].key
    ensures MetricValue(idea, idea.metrics[i].key) == v.UnwrapOr(0.0)
  {
    JsValue.LookupAt(idea.metrics, idea.metrics[i].key, i);
  }

  /** Deltas exist for exactly the four scored metrics, and only when two or more ideas were found. */
  lemma DeltaKeys(ideas: seq<Idea>)
    ensures |ideas| >= 2 ==> KeysOf(Deltas(ideas)) == DeltaMetrics
    ensures |ideas| < 2 ==> Deltas(ideas) == []
  {
    if |ideas| >= 2 {
      forall k | 0 <= k < |DeltaMetrics|
        ensures Deltas(ideas)[k].key == DeltaMetrics[k]
      {
        DeltasForAt(ideas, DeltaMetrics, k);
      }
    }
  }

  lemma {:induction false} SumAtMost(values: seq<real>, hi: real)
    requires forall i :: 0 <= i < |values| ==> values[i] <= hi
    ensures Sum(values) <= |values| as real * hi
  {
    if values != [] {
      var n := |values|;
      SumAtMost(values[..n - 1], hi);
      assert (n - 1) as real * hi + hi == n as real * hi;
    }
  }

  lemma {:induction false} SumAtLeast(values: seq<real>, lo: real)
    requires forall i :: 0 <= i < |values| ==> lo <= values[i]
    ensures |values| as real * lo <= Sum(values)
  {
    if values != [] {
      var n := |values|;
      SumAtLeast(values[..n - 1], lo);
      assert (n - 1) as real * lo + lo == n as real * lo;
    }
  }

  /** For each delta, min ≤ avg ≤ max and range = max − min ≥ 0, with max and min among the values. */
  lemma DeltaBounds(values: seq<real>)
    requires values != []
    ensures var d := DeltaOf(values);
      && d.min <= d.avg <= d.max
      && d.range == d.max - d.min && d.range >= 0.0
      && d.max in values && d.min in values
  {
    AverageBounds(values);
    MaxMinIn(values);
  }

  lemma AverageBounds(values: seq<real>)
    requires values != []
    ensures MinOf(values) <= Sum(values) / |values| as real <= MaxOf(values)
  {
    AverageAtMost(values, MaxOf(values));
    AverageAtLeast(values, MinOf(values));
  }

  lemma AverageAtMost(values: seq<real>, hi: real)
    requires values != [] && forall i :: 0 <= i < |values| ==> values[i] <= hi
    ensures Sum(values) / |values| as real <= hi
  {
    SumAtMost(values, hi);
    var n := |values| as real;
    assert (Sum(values) / n) * n == Sum(values);
  }

  lemma AverageAtLeast(values: seq<real>, lo: real)
    requires values != [] && forall i :: 0 <= i < |values| ==> lo <= values[i]
    ensures lo <= Sum(values) / |values| as real
  {
    SumAtLeast(values, lo);
    var n := |values| as real;
    assert (Sum(values) / n) * n == Sum(values);
  }

  lemma DeltasForStep(ideas: seq<Idea>, metrics: seq<string>, k: nat)
    requires ideas != [] && k < |metrics|
    ensures DeltasFor(ideas, metrics[..k + 1]) == DeltasFor(ideas, metrics[..k]) + [Slot(metrics[k], DeltaOf(Values(ideas, metrics[k])))]
  {
    assert metrics[..k + 1][..k] == metrics[..k];
  }

  lemma {:induction false} DeltasForAt(ideas: seq<Idea>, metrics: seq<string>, k: nat)
    requires ideas != [] && k < |metrics|
    ensures k < |DeltasFor(ideas, metrics)|
    ensures DeltasFor(ideas, metrics)[k] == Slot(metrics[k], DeltaOf(Values(ideas, metrics[k])))
  {
    var n := |metrics| - 1;
    if k < n {
      DeltasForAt(ideas, metrics[..n], k);
    }
  }

  /** Every reported delta obeys the bounds. */
  lemma AllDeltasBounded(ideas: seq<Idea>)
    ensures forall k :: 0 <= k < |Deltas(ideas)| ==>
      var d := Deltas(ideas)[k].val; d.min <= d.avg <= d.max && d.range >= 0.0
  {
    forall k | 0 <= k < |Deltas(ideas)|
      ensures var d := Deltas(ideas)[k].val; d.min <= d.avg <= d.max && d.range >= 0.0
    {
      DeltasForAt(ideas, DeltaMetrics, k);
      DeltaBounds(Values(ideas, DeltaMetrics[k]));
    }
  }
}
