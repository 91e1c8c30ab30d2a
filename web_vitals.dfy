/** `getRating`: the good / needs-improvement / poor verdict for one Core Web Vitals reading. */
module WebVitals {
  datatype Rating = Good | NeedsImprovement | Poor

  /** The `[good, poor]` bounds per metric; a metric without an entry gets `[0, 0]`. */
  function Thresholds(name: string): (r: (real, real))
    ensures r.0 <= r.1
    ensures name == "CLS" ==> r == (0.1, 0.25)
    ensures name == "LCP" ==> r == (2500.0, 4000.0)
    ensures name == "INP" ==> r == (200.0, 500.0)
    ensures name == "TTFB" ==> r == (800.0, 1800.0)
    ensures name == "FCP" ==> r == (1800.0, 3000.0)
    ensures name !in {"CLS", "LCP", "INP", "TTFB", "FCP"} ==> r == (0.0, 0.0)
  {
    if name == "CLS" then (0.1, 0.25)
    else if name == "LCP" then (2500.0, 4000.0)
    else if name == "INP" then (200.0, 500.0)
    else if name == "TTFB" then (800.0, 1800.0)
    else if name == "FCP" then (1800.0, 3000.0)
    else (0.0, 0.0)
  }

  /** How bad a rating is, for comparing two of them. */
  function Rank(r: Rating): nat {
    match r
    case Good => 0
    case NeedsImprovement => 1
    case Poor => 2
  }

  /** Both bounds are inclusive: a reading on the good bound is good, one on the poor bound needs improvement. */
  function GetRating(name: string, value: real): (r: Rating)
    ensures r == Good <==> value <= Thresholds(name).0
    ensures r == NeedsImprovement <==> Thresholds(name).0 < value <= Thresholds(name).1
    ensures r == Poor <==> Thresholds(name).1 < value
  {
    var (good, poor) := Thresholds(name);
    if value <= good then Good
    else if value <= poor then NeedsImprovement
    else Poor
  }

  /** An unknown metric is good at or below zero and poor above it, never in between. */
  lemma UnknownMetric(name: string, value: real)
    requires name !in {"CLS", "LCP", "INP", "TTFB", "FCP"}
    ensures GetRating(name, value) == (if value <= 0.0 then Good else Poor)
  {
  }

  /** For a fixed metric a larger reading never gets a better rating. */
  lemma RatingMonotone(name: string, a: real, b: real)
    requires a <= b
    ensures Rank(GetRating(name, a)) <= Rank(GetRating(name, b))
  {
  }
}
