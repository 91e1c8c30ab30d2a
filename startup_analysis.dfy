/**
 * `analyzeStartup`: the eight-dimension venture analysis of an idea. The parser turns a
 * model's reply into a result with defaults, or into a fixed fallback when the reply holds
 * no parsable JSON object; the endpoint checks the rate limit and its input, serves a
 * 24-hour cached result when there is one, and otherwise runs the analysis, records it and
 * notifies the user. `JSON.parse` is the parameter `parse` (`None` when it throws).
 */
module StartupAnalysis {
  import opened Wrappers
  import opened Keyed
  import opened JsValue
  import opened AiResponse
  import Errors
  import Validation
  import Cache

  datatype Verdict = Strong | Moderate | Weak

  /** One dimension of the framework: its verdict, its analysis text and its detail fields. */
  datatype Dimension = Dimension(verdict: Verdict, analysis: Value, details: seq<Field>)

  /** `StartupAnalysisResult`; `dimensions` follow the order of `Framework`. */
  datatype StartupAnalysisResult = StartupAnalysisResult(
    viabilityScore: Value,
    dimensions: seq<Dimension>,
    topStrengths: Value,
    topConcerns: Value,
    potentialPivots: Value,
    recommendedNextSteps: Value,
    executiveSummary: Value)

  /** A detail field is either passed through or defaults to `[]` when falsy. */
  datatype Detail = Kept(name: string) | ListOr(name: string)

  datatype DimensionSpec = DimensionSpec(key: string, details: seq<Detail>)

  /** The eight dimensions and the detail fields the parser copies from each. */
  const Framework: seq<DimensionSpec> := [
    DimensionSpec("market_analysis", [Kept("tam_analysis"), Kept("sam_analysis"), ListOr("market_trends"), Kept("growth_rate")]),
    DimensionSpec("competitive_analysis",
      [ListOr("direct_competitors"), ListOr("indirect_competitors"), ListOr("barriers_to_entry"), ListOr("competitive_advantages")]),
    DimensionSpec("differentiation_analysis", [Kept("unique_value_proposition"), ListOr("key_differentiators"), ListOr("competitive_moats")]),
    DimensionSpec("customer_analysis", [ListOr("target_personas"), ListOr("pain_points"), Kept("urgency_level"), Kept("market_validation")]),
    DimensionSpec("monetization_analysis",
      [ListOr("revenue_streams"), Kept("pricing_strategy"), Kept("unit_economics"), Kept("monetization_timeline")]),
    DimensionSpec("execution_analysis",
      [Kept("technical_feasibility"), Kept("capital_requirements"), ListOr("regulatory_considerations"), ListOr("team_requirements")]),
    DimensionSpec("scalability_analysis",
      [Kept("growth_potential"), ListOr("scalability_factors"), ListOr("expansion_opportunities"), ListOr("bottlenecks")]),
    DimensionSpec("risk_analysis",
      [ListOr("market_risks"), ListOr("execution_risks"), ListOr("competitive_risks"), ListOr("regulatory_risks"), ListOr("mitigation_strategies")])
  ]

  const NotAvailable := "Analysis not available"
  const ParsingFailed := "Analysis parsing failed, manual review required"
  const Pending := "Analysis pending"

  function VerdictName(v: Verdict): string {
    match v
    case Strong => "Strong"
    case Moderate => "Moderate"
    case Weak => "Weak"
  }

  /** `isValidVerdict`: strict equality with one of the three names. */
  predicate IsValidVerdict(v: Value) {
    v == Str("Strong") || v == Str("Moderate") || v == Str("Weak")
  }

  /** A valid verdict is kept; anything else becomes `Moderate`. */
  function VerdictOf(v: Value): (r: Verdict)
    ensures IsValidVerdict(v) <==> Str(VerdictName(r)) == v
    ensures !IsValidVerdict(v) ==> r == Moderate
  {
    if v == Str("Strong") then Strong
    else if v == Str("Weak") then Weak
    else Moderate
  }

  function MinReal(a: real, b: real): real { if a <= b then a else b }

  function MaxReal(a: real, b: real): real { if a >= b then a else b }

  /**
   * `Math.max(1, Math.min(10, v || 5))`: both coerce with `Number`, and `NaN` passes
   * through both, so the score is `NaN` or a number in [1, 10].
   */
  function Viability(v: Value): (r: Value)
    ensures r.NaN? || (r.Num? && 1.0 <= r.n <= 10.0)
    ensures !Truthy(v) ==> r == Num(5.0)
    ensures v.Num? && 1.0 <= v.n <= 10.0 ==> r == v
    ensures v.Num? && v.n > 10.0 ==> r == Num(10.0)
    ensures v.Num? && v.n != 0.0 && v.n < 1.0 ==> r == Num(1.0)
    ensures r.NaN? <==> Truthy(v) && ToNumber(v).NaN?
  {
    var x := ToNumber(Or(v, Num(5.0)));
    if x.NaN? then NaN else Num(MaxReal(1.0, MinReal(10.0, x.n)))
  }

  /**
   * `v?.slice(0, 3)`: `undefined` on `null` and `undefined`, the first three items of an
   * array or characters of a string; `None` is the TypeError any other value raises.
   */
  function SliceThree(v: Value): (r: Option<Value>)
    ensures r.None? <==> !(v.Undefined? || v.Null? || v.Arr? || v.Str?)
    ensures v.Undefined? || v.Null? ==> r == Some(Undefined)
    ensures v.Arr? ==> r.Some? && r.value.Arr? && r.value.items <= v.items && |r.value.items| == if |v.items| < 3 then |v.items| else 3
    ensures v.Str? ==> r.Some? && r.value.Str? && r.value.s <= v.s && |r.value.s| == if |v.s| < 3 then |v.s| else 3
  {
    match v
    case Undefined => Some(Undefined)
    case Null => Some(Undefined)
    case Arr(items) => Some(Arr(if |items| < 3 then items else items[..3]))
    case Str(s) => Some(Str(if |s| < 3 then s else s[..3]))
    case _ => None
  }

  function DetailField(d: Detail, dim: Value): Field {
    match d
    case Kept(name) => Field(name, OptProp(dim, name))
    case ListOr(name) => Field(name, Or(OptProp(dim, name), Arr([])))
  }

  /** One dimension read from `parsed[spec.key]`. */
  function ParseDimension(spec: DimensionSpec, dim: Value): Dimension {
    Dimension(
      VerdictOf(OptProp(dim, "verdict")),
      Or(OptProp(dim, "analysis"), Str(NotAvailable)),
      seq(|spec.details|, k requires 0 <= k < |spec.details| => DetailField(spec.details[k], dim)))
  }

  /** The eight dimensions, read in the order of `Framework`. */
  function ParseDimensions(parsed: Value): (r: seq<Dimension>)
    ensures |r| == |Framework| == 8
    ensures forall i :: 0 <= i < |r| ==> r[i] == ParseDimension(Framework[i], Prop(parsed, Framework[i].key))
  {
    seq(|Framework|, i requires 0 <= i < |Framework| => ParseDimension(Framework[i], Prop(parsed, Framework[i].key)))
  }

  /** `x?.slice(0, 3) || ["Analysis pending"]`, once the slice did not throw. */
  function TopThree(sliced: Value): Value {
    Or(sliced, Arr([Str(Pending)]))
  }

  /**
   * The body of the `try` once `JSON.parse` succeeded: `None` for the TypeError that
   * reading `viability_score` of `null` raises and for a list that has no `slice`.
   */
  function ParseObject(parsed: Value): Option<StartupAnalysisResult> {
    match Member(parsed, "viability_score")
    case Err(_) => None
    case Ok(score) =>
      var strengths := SliceThree(Prop(parsed, "top_strengths"));
      var concerns := SliceThree(Prop(parsed, "top_concerns"));
      var steps := SliceThree(Prop(parsed, "recommended_next_steps"));
      if strengths.None? || concerns.None? || steps.None? then None
      else Some(StartupAnalysisResult(
        Viability(score),
        ParseDimensions(parsed),
        TopThree(strengths.value),
        TopThree(concerns.value),
        Or(Prop(parsed, "potential_pivots"), Arr([])),
        TopThree(steps.value),
        Prop(parsed, "executive_summary")))
  }

  /** The analysis returned when the reply cannot be used. */
  const Fallback := StartupAnalysisResult(
    Num(5.0),
    seq(8, _ => Dimension(Moderate, Str(ParsingFailed), [])),
    Arr([Str("Analysis parsing failed")]),
    Arr([Str("Manual review required")]),
    Arr([Str("Re-run analysis")]),
    Arr([Str("Contact support"), Str("Review input data"), Str("Try again")]),
    Undefined)

  /** `parseStartupAnalysisResponse`, which never throws. */
  function ParseResponse(response: string, parse: string -> Option<Value>): StartupAnalysisResult {
    match JsonCandidate(response)
    case None => Fallback
    case Some(text) =>
      match parse(text)
      case None => Fallback
      case Some(parsed) =>
        match ParseObject(parsed)
        case None => Fallback
        case Some(a) => a
  }

  /** The reply is unusable: no JSON object in it, `JSON.parse` threw, or reading it threw. */
  predicate Unusable(response: string, parse: string -> Option<Value>) {
    || JsonCandidate(response).None?
    || parse(JsonCandidate(response).value).None?
    || ParseObject(parse(JsonCandidate(response).value).value).None?
  }

  /** An unusable reply gives the fallback, and a usable one the parsed object. */
  lemma FallbackExactlyWhenUnusable(response: string, parse: string -> Option<Value>)
    ensures Unusable(response, parse) ==> ParseResponse(response, parse) == Fallback
    ensures !Unusable(response, parse) ==>
      ParseResponse(response, parse) == ParseObject(parse(JsonCandidate(response).value).value).value
  {
  }

  /** The fallback scores 5 and rates every one of the eight dimensions `Moderate`. */
  lemma FallbackIsNeutral()
    ensures Fallback.viabilityScore == Num(5.0) && |Fallback.dimensions| == 8
    ensures forall i :: 0 <= i < 8 ==> Fallback.dimensions[i] == Dimension(Moderate, Str(ParsingFailed), [])
  {
  }

  /** Reading fails only on `null`/`undefined` or on a list field that cannot be sliced. */
  lemma ParseObjectFails(parsed: Value)
    ensures ParseObject(parsed).None? <==>
      || parsed == Null || parsed == Undefined
      || SliceThree(Prop(parsed, "top_strengths")).None?
      || SliceThree(Prop(parsed, "top_concerns")).None?
      || SliceThree(Prop(parsed, "recommended_next_steps")).None?
  {
  }

  /** Every result, parsed or fallback, has the eight dimensions and a score that is `NaN` or in [1, 10]. */
  lemma {:induction false} ResultShape(response: string, parse: string -> Option<Value>)
    ensures var a := ParseResponse(response, parse);
      && |a.dimensions| == |Framework| == 8
      && (a.viabilityScore.NaN? || (a.viabilityScore.Num? && 1.0 <= a.viabilityScore.n <= 10.0))
  {
    FallbackExactlyWhenUnusable(response, parse);
  }

  /** The score read from a parsed object: missing or zero becomes 5, and it is clamped to [1, 10]. */
  lemma ParsedViability(parsed: Value, a: StartupAnalysisResult)
    requires ParseObject(parsed) == Some(a)
    ensures var raw := Prop(parsed, "viability_score");
      && (!Truthy(raw) ==> a.viabilityScore == Num(5.0))
      && (raw.Num? && 1.0 <= raw.n <= 10.0 ==> a.viabilityScore == raw)
      && (raw.Num? && raw.n > 10.0 ==> a.viabilityScore == Num(10.0))
      && (raw.Num? && raw.n != 0.0 && raw.n < 1.0 ==> a.viabilityScore == Num(1.0))
  {
  }

  /** Dimension `i` keeps its verdict only when it is a valid name, and its analysis text when truthy. */
  lemma ParsedDimension(parsed: Value, a: StartupAnalysisResult, i: nat)
    requires ParseObject(parsed) == Some(a) && i < |Framework|
    ensures var dim := Prop(parsed, Framework[i].key);
      var raw := OptProp(dim, "verdict");
      && |a.dimensions| == |Framework|
      && (IsValidVerdict(raw) ==> Str(VerdictName(a.dimensions[i].verdict)) == raw)
      && (!IsValidVerdict(raw) ==> a.dimensions[i].verdict == Moderate)
      && (Truthy(OptProp(dim, "analysis")) ==> a.dimensions[i].analysis == OptProp(dim, "analysis"))
      && (!Truthy(OptProp(dim, "analysis")) ==> a.dimensions[i].analysis == Str(NotAvailable))
      && |a.dimensions[i].details| == |Framework[i].details|
  {
  }

  /**
   * How `top_strengths` (and likewise `top_concerns` and `recommended_next_steps`) comes
   * through: a missing list or empty string becomes `["Analysis pending"]`, an array keeps
   * at most its first three items, and an empty array stays empty.
   */
  predicate KeptTopThree(raw: Value, kept: Value) {
    && (raw == Undefined || raw == Null || raw == Str("") ==> kept == Arr([Str(Pending)]))
    && (raw.Arr? ==> kept.Arr? && kept.items <= raw.items && |kept.items| <= 3
                     && (|raw.items| >= 3 ==> |kept.items| == 3)
                     && (|raw.items| < 3 ==> kept == raw))
    && (raw.Str? && raw.s != "" ==> kept.Str? && kept.s <= raw.s && 1 <= |kept.s| <= 3)
  }

  lemma TopThreeKept(raw: Value)
    requires SliceThree(raw).Some?
    ensures KeptTopThree(raw, TopThree(SliceThree(raw).value))
  {
  }

  /** The fields a successful read takes from the parsed object. */
  lemma ParsedFields(parsed: Value, a: StartupAnalysisResult)
    requires ParseObject(parsed) == Some(a)
    ensures SliceThree(Prop(parsed, "top_strengths")).Some? && a.topStrengths == TopThree(SliceThree(Prop(parsed, "top_strengths")).value)
    ensures SliceThree(Prop(parsed, "top_concerns")).Some? && a.topConcerns == TopThree(SliceThree(Prop(parsed, "top_concerns")).value)
    ensures SliceThree(Prop(parsed, "recommended_next_steps")).Some?
      && a.recommendedNextSteps == TopThree(SliceThree(Prop(parsed, "recommended_next_steps")).value)
    ensures a.potentialPivots == Or(Prop(parsed, "potential_pivots"), Arr([]))
  {
  }

  /** The three short lists are truncated to three items. */
  lemma {:induction false} ParsedLists(parsed: Value, a: StartupAnalysisResult)
    requires ParseObject(parsed) == Some(a)
    ensures KeptTopThree(Prop(parsed, "top_strengths"), a.topStrengths)
    ensures KeptTopThree(Prop(parsed, "top_concerns"), a.topConcerns)
    ensures KeptTopThree(Prop(parsed, "recommended_next_steps"), a.recommendedNextSteps)
  {
    ParsedFields(parsed, a);
    TopThreeKept(Prop(parsed, "top_strengths"));
    TopThreeKept(Prop(parsed, "top_concerns"));
    TopThreeKept(Prop(parsed, "recommended_next_steps"));
  }

  /** `potential_pivots` is passed through whole, however long, and a falsy one becomes `[]`. */
  lemma {:induction false} ParsedPivots(parsed: Value, a: StartupAnalysisResult)
    requires ParseObject(parsed) == Some(a)
    ensures Prop(parsed, "potential_pivots").Arr? ==> a.potentialPivots == Prop(parsed, "potential_pivots")
    ensures !Truthy(Prop(parsed, "potential_pivots")) ==> a.potentialPivots == Arr([])
  {
    ParsedFields(parsed, a);
    var raw := Prop(parsed, "potential_pivots");
    assert raw.Arr? ==> Truthy(raw);
  }

  const ProvidersDown := "AI startup analysis providers"

  /** `performStartupAnalysis`: the parsed reply of Claude, else of GPT; `None` when both threw. */
  function Perform(claude: Result<string>, gpt: Result<string>, parse: string -> Option<Value>): Option<StartupAnalysisResult> {
    Route(claude, gpt, (text: string) => ParseResponse(text, parse)).0
  }

  /** GPT is consulted only when Claude threw, and the analysis fails only when both did. */
  lemma PerformOrder(claude: Result<string>, gpt: Result<string>, parse: string -> Option<Value>)
    ensures claude.Ok? ==> Perform(claude, gpt, parse) == Some(ParseResponse(claude.value, parse))
    ensures claude.Err? && gpt.Ok? ==> Perform(claude, gpt, parse) == Some(ParseResponse(gpt.value, parse))
    ensures Perform(claude, gpt, parse).None? <==> claude.Err? && gpt.Err?
  {
  }

  // The endpoint

  const Depths: seq<Value> := [Str("standard"), Str("deep"), Str("executive")]

  /** `analysisCache` as the cache module creates it, and the time a result is kept in it. */
  const CacheSize: nat := 500
  const CacheTtl := 3600000
  const ResultTtl := 86400000

  /** What passes the checks before the cache: the user's row id, the idea's id and its title. */
  datatype Admission = Admitted(userId: int, ideaId: int, title: string) | Refused(thrown: Errors.Thrown)

  /** `idea_id` is a present integer of at least 1, and a truthy `analysis_depth` is a listed depth. */
  predicate WellFormed(ideaIdArg: Value, depth: Value) {
    && ideaIdArg.Num? && Validation.IsInteger(ideaIdArg.n) && ideaIdArg.n >= 1.0
    && (Truthy(depth) ==> depth in Depths)
  }

  /** The three validations, in order: `idea_id` required, an integer of at least 1, then a truthy depth listed. */
  function Invalid(ideaIdArg: Value, depth: Value): (r: Option<Errors.Thrown>)
    ensures r.None? <==> WellFormed(ideaIdArg, depth)
  {
    if Validation.ValidateRequired(ideaIdArg, "idea_id").Some? then Validation.ValidateRequired(ideaIdArg, "idea_id")
    else if Validation.ValidateNumber(ideaIdArg, "idea_id", Some(1.0), None, Some(true)).Some? then
      Validation.ValidateNumber(ideaIdArg, "idea_id", Some(1.0), None, Some(true))
    else if Truthy(depth) then Validation.ValidateEnum(depth, Depths, "analysis_depth")
    else None
  }

  /**
   * The rate limit (`limited` is what `applyAiAnalysisRateLimit` threw, if anything), the
   * three validations, then the lookups of the user by Clerk id and of the idea by id and
   * owner, in that order.
   */
  function Admit(clerkId: string, ideaIdArg: Value, depth: Value, users: map<string, int>, ideas: map<int, IdeaRow>,
                 limited: Option<Errors.Thrown>): (r: Admission)
    ensures r.Admitted? ==> r.ideaId in ideas && r.title == ideas[r.ideaId].title
  {
    if limited.Some? then Refused(limited.value)
    else if Invalid(ideaIdArg, depth).Some? then Refused(Invalid(ideaIdArg, depth).value)
    else if clerkId !in users then Refused(Errors.App(Errors.NotFoundError("User", Str(clerkId))))
    else
      var id := ideaIdArg.n.Floor;
      if id !in ideas || ideas[id].userId != users[clerkId] then Refused(Errors.App(Errors.NotFoundError("Idea", ideaIdArg)))
      else Admitted(users[clerkId], id, ideas[id].title)
  }

  /**
   * The rate limit is checked first; a request is admitted exactly when it is well formed,
   * the user exists and the idea exists and is theirs; an unknown user is a `NotFoundError`.
   */
  lemma AdmitExactly(clerkId: string, ideaIdArg: Value, depth: Value, users: map<string, int>, ideas: map<int, IdeaRow>,
                     limited: Option<Errors.Thrown>)
    ensures limited.Some? ==> Admit(clerkId, ideaIdArg, depth, users, ideas, limited) == Refused(limited.value)
    ensures Admit(clerkId, ideaIdArg, depth, users, ideas, limited).Admitted? <==>
      && limited.None? && WellFormed(ideaIdArg, depth) && clerkId in users
      && ideaIdArg.n.Floor in ideas && ideas[ideaIdArg.n.Floor].userId == users[clerkId]
    ensures var ad := Admit(clerkId, ideaIdArg, depth, users, ideas, limited);
      ad.Admitted? ==>
        && ad.ideaId as real == ideaIdArg.n && ad.ideaId >= 1
        && ad.userId == users[clerkId] && ideas[ad.ideaId].userId == ad.userId
    ensures limited.None? && WellFormed(ideaIdArg, depth) && clerkId !in users ==>
      Admit(clerkId, ideaIdArg, depth, users, ideas, limited) == Refused(Errors.App(Errors.NotFoundError("User", Str(clerkId))))
  {
  }

  datatype NoticeKind = AnalysisStarted | AnalysisCompleted(overallScore: Value) | AnalysisFailed(message: string)

  /** A message `sendNotificationToUser` sends to the user with that Clerk id (timestamps left out). */
  datatype Notice = Notice(clerkId: string, kind: NoticeKind, ideaId: int, title: string)

  /** `viability_score * 10`, the 100-point score of the completion notice. */
  function TimesTen(v: Value): (r: Value)
    ensures v.Num? ==> r == Num(v.n * 10.0)
  {
    if v.Num? then Num(v.n * 10.0) else NaN
  }

  datatype Reply = Answered(analysis: StartupAnalysisResult) | Rejected(error: Errors.ApiError)

  /** Everything the endpoint reads and writes: the `ideas` and `startup_analyses` tables, the status updates, the notices and the cache. */
  datatype World = World(
    ideas: map<int, IdeaRow>,
    analyses: map<int, StartupAnalysisResult>,
    statusLog: seq<StatusWrite>,
    notices: seq<Notice>,
    slots: seq<Slot<Cache.Entry<StartupAnalysisResult>>>)

  /** `UPDATE ideas SET status = 'analyzing'` and the `analysis_started` notice. */
  function Started(w: World, clerkId: string, id: int, title: string): (r: World)
    requires id in w.ideas
    ensures id in r.ideas
  {
    w.(ideas := w.ideas[id := w.ideas[id].(status := "analyzing")],
       statusLog := w.statusLog + [StatusWrite(id, "analyzing")],
       notices := w.notices + [Notice(clerkId, AnalysisStarted, id, title)])
  }

  /** The analysis is stored, the status set to `completed`, the result cached for 24 hours and announced. */
  function Completed(w: World, clerkId: string, id: int, title: string, a: StartupAnalysisResult, now: int): (Reply, World)
    requires id in w.ideas
  {
    (Answered(a), World(
      w.ideas[id := w.ideas[id].(status := "completed")],
      w.analyses[id := a],
      w.statusLog + [StatusWrite(id, "completed")],
      w.notices + [Notice(clerkId, AnalysisCompleted(TimesTen(a.viabilityScore)), id, title)],
      Cache.Stored(w.slots, CacheSize, CacheTtl, Cache.AnalysisCacheKey(id, "startup"), a, Some(ResultTtl), now)))
  }

  /** Both providers threw: the status is set to `failed`, the failure announced and the error rethrown. */
  function Abandoned(w: World, clerkId: string, id: int, title: string): (Reply, World)
    requires id in w.ideas
  {
    var e := Errors.ExternalServiceError(ProvidersDown, None);
    (Rejected(Errors.HandleError(Errors.App(e))),
     w.(ideas := w.ideas[id := w.ideas[id].(status := "failed")],
        statusLog := w.statusLog + [StatusWrite(id, "failed")],
        notices := w.notices + [Notice(clerkId, AnalysisFailed(e.message), id, title)]))
  }

  /** The inner `try` after a cache miss. */
  function Finished(w: World, clerkId: string, id: int, title: string, outcome: Option<StartupAnalysisResult>, now: int): (Reply, World)
    requires id in w.ideas
  {
    var s := Started(w, clerkId, id, title);
    match outcome
    case Some(a) => Completed(s, clerkId, id, title, a, now)
    case None => Abandoned(s, clerkId, id, title)
  }

  /**
   * The specification of `AnalyzeStartup`: the reply and the new state. `outcome` is what
   * `performStartupAnalysis` returns if it is reached (`Perform` of the providers' replies).
   */
  function Served(w: World, clerkId: string, ideaIdArg: Value, depth: Value, users: map<string, int>, limited: Option<Errors.Thrown>,
                  outcome: Option<StartupAnalysisResult>, now: int): (Reply, World)
  {
    match Admit(clerkId, ideaIdArg, depth, users, w.ideas, limited)
    case Refused(e) => (Rejected(Errors.HandleError(e)), w)
    case Admitted(_, id, title) =>
      var look := Cache.Lookup(w.slots, Cache.AnalysisCacheKey(id, "startup"), now);
      if look.0.Some? then (Answered(look.0.value), w.(slots := look.1))
      else Finished(w.(slots := look.1), clerkId, id, title, outcome, now)
  }

  /** A refused request is answered through `handleError` and changes nothing; the rate limit is checked first. */
  lemma RefusedChangesNothing(w: World, clerkId: string, ideaIdArg: Value, depth: Value, users: map<string, int>, limited: Option<Errors.Thrown>,
                              outcome: Option<StartupAnalysisResult>, now: int)
    requires !(limited.None? && WellFormed(ideaIdArg, depth) && clerkId in users
               && ideaIdArg.n.Floor in w.ideas && w.ideas[ideaIdArg.n.Floor].userId == users[clerkId])
    ensures var (reply, after) := Served(w, clerkId, ideaIdArg, depth, users, limited, outcome, now);
      && after == w && reply.Rejected?
      && (limited.Some? ==> reply == Rejected(Errors.HandleError(limited.value)))
  {
    AdmitExactly(clerkId, ideaIdArg, depth, users, w.ideas, limited);
  }

  /** A cache hit is returned as stored, before any status change or notice, whatever the providers would say. */
  lemma CacheHitChangesNothing(w: World, clerkId: string, ideaIdArg: Value, depth: Value, users: map<string, int>,
                               outcome: Option<StartupAnalysisResult>, now: int)
    requires Admit(clerkId, ideaIdArg, depth, users, w.ideas, None).Admitted?
    requires Cache.Lookup(w.slots, Cache.AnalysisCacheKey(Admit(clerkId, ideaIdArg, depth, users, w.ideas, None).ideaId, "startup"), now).0.Some?
    ensures var id := Admit(clerkId, ideaIdArg, depth, users, w.ideas, None).ideaId;
      var (reply, after) := Served(w, clerkId, ideaIdArg, depth, users, None, outcome, now);
      && reply == Answered(Cache.Lookup(w.slots, Cache.AnalysisCacheKey(id, "startup"), now).0.value)
      && after.ideas == w.ideas && after.analyses == w.analyses && after.statusLog == w.statusLog && after.notices == w.notices
  {
  }

  /**
   * After a cache miss the status goes `analyzing` then `completed` (stored, cached and
   * announced) or `analyzing` then `failed` (announced and rethrown as the providers' error).
   */
  lemma {:induction false} FreshAnalysis(w: World, clerkId: string, id: int, title: string, outcome: Option<StartupAnalysisResult>, now: int)
    requires id in w.ideas
    ensures var (reply, after) := Finished(w, clerkId, id, title, outcome, now);
      var final := if outcome.Some? then "completed" else "failed";
      && after.statusLog == w.statusLog + [StatusWrite(id, "analyzing"), StatusWrite(id, final)]
      && after.ideas == w.ideas[id := w.ideas[id].(status := final)]
      && |after.notices| == |w.notices| + 2 && after.notices[..|w.notices|] == w.notices
      && after.notices[|w.notices|] == Notice(clerkId, AnalysisStarted, id, title)
      && (outcome.Some? ==>
        && reply == Answered(outcome.value)
        && after.analyses == w.analyses[id := outcome.value]
        && after.notices[|w.notices| + 1] == Notice(clerkId, AnalysisCompleted(TimesTen(outcome.value.viabilityScore)), id, title)
        && after.slots == Cache.Stored(w.slots, CacheSize, CacheTtl, Cache.AnalysisCacheKey(id, "startup"), outcome.value, Some(ResultTtl), now))
      && (outcome.None? ==>
        && reply == Rejected(Errors.ApiError(Errors.Internal, "External service error: " + ProvidersDown))
        && after.analyses == w.analyses && after.slots == w.slots
        && after.notices[|w.notices| + 1] == Notice(clerkId, AnalysisFailed("External service error: " + ProvidersDown), id, title))
  {
    var s := Started(w, clerkId, id, title);
    var final := if outcome.Some? then "completed" else "failed";
    var after := Finished(w, clerkId, id, title, outcome, now).1;
    assert after.ideas == s.ideas[id := s.ideas[id].(status := final)];
    assert after.statusLog == s.statusLog + [StatusWrite(id, final)];
    assert after.notices[..|w.notices|] == s.notices[..|w.notices|];
  }

  /** A completed analysis is served from the cache, unchanged and with no new status or notice, for the next 24 hours. */
  lemma {:induction false} CachedForADay(w: World, clerkId: string, ideaIdArg: Value, depth: Value, users: map<string, int>,
                                         a: StartupAnalysisResult, now: int, outcome2: Option<StartupAnalysisResult>, later: int)
    requires Admit(clerkId, ideaIdArg, depth, users, w.ideas, None).Admitted?
    requires Cache.Lookup(w.slots, Cache.AnalysisCacheKey(Admit(clerkId, ideaIdArg, depth, users, w.ideas, None).ideaId, "startup"), now).0.None?
    requires now <= later <= now + ResultTtl
    ensures var (first, mid) := Served(w, clerkId, ideaIdArg, depth, users, None, Some(a), now);
      var (second, after) := Served(mid, clerkId, ideaIdArg, depth, users, None, outcome2, later);
      && first == Answered(a) && second == first
      && after == mid
  {
    var ad := Admit(clerkId, ideaIdArg, depth, users, w.ideas, None);
    var key := Cache.AnalysisCacheKey(ad.ideaId, "startup");
    var look := Cache.Lookup(w.slots, key, now);
    var mid := Served(w, clerkId, ideaIdArg, depth, users, None, Some(a), now).1;
    var s := Started(w.(slots := look.1), clerkId, ad.ideaId, ad.title);
    assert mid == Completed(s, clerkId, ad.ideaId, ad.title, a, now).1;
    assert mid.ideas == w.ideas[ad.ideaId := w.ideas[ad.ideaId].(status := "completed")];
    AdmitIgnoresStatus(clerkId, ideaIdArg, depth, users, w.ideas, ad.ideaId, "completed");
    Cache.GetAfterSet(look.1, CacheSize, CacheTtl, key, a, Some(ResultTtl), now, later);
    assert Cache.TtlOf(Some(ResultTtl), CacheTtl) == ResultTtl;
  }

  /** The checks before the cache read only an idea's owner and title, never its status. */
  lemma AdmitIgnoresStatus(clerkId: string, ideaIdArg: Value, depth: Value, users: map<string, int>, ideas: map<int, IdeaRow>,
                           id: int, status: string)
    requires id in ideas
    ensures Admit(clerkId, ideaIdArg, depth, users, ideas[id := ideas[id].(status := status)], None)
         == Admit(clerkId, ideaIdArg, depth, users, ideas, None)
  {
  }

  /** The tables the endpoint writes, with the shared analysis cache. */
  class StartupAnalyzer {
    var ideas: map<int, IdeaRow>
    var analyses: map<int, StartupAnalysisResult>
    var statusLog: seq<StatusWrite>
    var notices: seq<Notice>
    const analysisCache: Cache.MemoryCache<StartupAnalysisResult>

    ghost predicate Valid()
      reads this, analysisCache
    {
      analysisCache.Valid() && analysisCache.maxSize == CacheSize && analysisCache.defaultTtl == CacheTtl
    }

    ghost function State(): World
      reads this, analysisCache
    {
      World(ideas, analyses, statusLog, notices, analysisCache.slots)
    }

    constructor (ideas: map<int, IdeaRow>)
      ensures Valid() && fresh(analysisCache)
      ensures State() == World(ideas, map[], [], [], [])
    {
      this.ideas := ideas;
      analyses := map[];
      statusLog := [];
      notices := [];
      analysisCache := new Cache.MemoryCache(CacheSize, CacheTtl);
    }

    /** `analyzeStartup` for the user with Clerk id `clerkId`; a thrown error is the `Rejected` reply. */
    method AnalyzeStartup(clerkId: string, ideaIdArg: Value, depth: Value, users: map<string, int>, limited: Option<Errors.Thrown>,
                          claude: Result<string>, gpt: Result<string>, parse: string -> Option<Value>, now: int) returns (r: Reply)
      requires Valid()
      modifies this, analysisCache
      ensures Valid()
      ensures (r, State()) == Served(old(State()), clerkId, ideaIdArg, depth, users, limited, Perform(claude, gpt, parse), now)
    {
      var admission := Admit(clerkId, ideaIdArg, depth, users, ideas, limited);
      if admission.Refused? {
        return Rejected(Errors.HandleError(admission.thrown));
      }
      var id, title := admission.ideaId, admission.title;
      var key := Cache.AnalysisCacheKey(id, "startup");
      var cached := analysisCache.Get(key, now);
      if cached.Some? {
        return Answered(cached.value);
      }
      r := Finish(clerkId, id, title, Perform(claude, gpt, parse), now);
    }

    /** The `try` block after the cache miss: mark the idea, announce, then record or fail. */
    method Finish(clerkId: string, id: int, title: string, outcome: Option<StartupAnalysisResult>, now: int) returns (r: Reply)
      requires Valid() && id in ideas
      modifies this, analysisCache
      ensures Valid()
      ensures (r, State()) == Finished(old(State()), clerkId, id, title, outcome, now)
    {
      Start(clerkId, id, title);
      if outcome.Some? {
        r := Complete(clerkId, id, title, outcome.value, now);
      } else {
        r := Fail(clerkId, id, title);
      }
    }

    method Start(clerkId: string, id: int, title: string)
      requires id in ideas
      modifies this
      ensures State() == Started(old(State()), clerkId, id, title)
    {
      ideas := ideas[id := ideas[id].(status := "analyzing")];
      statusLog := statusLog + [StatusWrite(id, "analyzing")];
      notices := notices + [Notice(clerkId, AnalysisStarted, id, title)];
    }

    method Complete(clerkId: string, id: int, title: string, a: StartupAnalysisResult, now: int) returns (r: Reply)
      requires Valid() && id in ideas
      modifies this, analysisCache
      ensures Valid()
      ensures (r, State()) == Completed(old(State()), clerkId, id, title, a, now)
    {
      analyses := analyses[id := a];
      ideas := ideas[id := ideas[id].(status := "completed")];
      statusLog := statusLog + [StatusWrite(id, "completed")];
      analysisCache.Set(Cache.AnalysisCacheKey(id, "startup"), a, Some(ResultTtl), now);
      notices := notices + [Notice(clerkId, AnalysisCompleted(TimesTen(a.viabilityScore)), id, title)];
      r := Answered(a);
    }

    method Fail(clerkId: string, id: int, title: string) returns (r: Reply)
      requires id in ideas
      modifies this
      ensures (r, State()) == Abandoned(old(State()), clerkId, id, title)
    {
      var e := Errors.ExternalServiceError(ProvidersDown, None);
      ideas := ideas[id := ideas[id].(status := "failed")];
      statusLog := statusLog + [StatusWrite(id, "failed")];
      notices := notices + [Notice(clerkId, AnalysisFailed(e.message), id, title)];
      r := Rejected(Errors.HandleError(Errors.App(e)));
    }
  }
}
