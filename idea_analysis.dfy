/**
 * `analyze`: scores an idea for one track with an AI model. The parser reads six scores, a
 * text and six cost figures from the model's reply, each defaulting when falsy, or returns
 * the all-default result when the reply holds no parsable JSON object; the endpoint marks
 * the idea, routes to Claude then GPT and upserts the scores and the cost estimate.
 * `JSON.parse` is the parameter `parse` (`None` when it throws).
 */
module IdeaAnalysis {
  import opened Wrappers
  import opened JsValue
  import opened AiResponse
  import Errors

  datatype CostEstimate = CostEstimate(
    infrastructureCost: Value,
    developmentCost: Value,
    operationalCost: Value,
    projectedRevenue: Value,
    roiEstimate: Value,
    breakEvenMonths: Value)

  datatype AnalysisResult = AnalysisResult(
    overallScore: Value,
    marketPotential: Value,
    competitionLevel: Value,
    technicalFeasibility: Value,
    monetizationPotential: Value,
    complianceScore: Value,
    aiAnalysis: Value,
    costEstimate: CostEstimate)

  const NotAvailable := "Analysis not available"
  const ParsingFailed := "Analysis parsing failed, using default scores"

  /** `raw || d`: a falsy value (missing, `null`, `0`, `""`, `false`) is replaced, anything else kept as it is. */
  predicate Defaulted(raw: Value, kept: Value, d: Value) {
    (Truthy(raw) ==> kept == raw) && (!Truthy(raw) ==> kept == d)
  }

  /** The six cost figures of `parsed.cost_estimate`, read with optional chaining. */
  function ParseCosts(cost: Value): CostEstimate {
    CostEstimate(
      Or(OptProp(cost, "infrastructure_cost"), Num(100.0)),
      Or(OptProp(cost, "development_cost"), Num(10000.0)),
      Or(OptProp(cost, "operational_cost"), Num(500.0)),
      Or(OptProp(cost, "projected_revenue"), Num(1000.0)),
      Or(OptProp(cost, "roi_estimate"), Num(20.0)),
      Or(OptProp(cost, "break_even_months"), Num(12.0)))
  }

  /** The object literal of the `try` block; `None` is the TypeError of reading `overall_score` of `null`. */
  function ParseObject(parsed: Value): Option<AnalysisResult> {
    match Member(parsed, "overall_score")
    case Err(_) => None
    case Ok(overall) =>
      Some(AnalysisResult(
        Or(overall, Num(50.0)),
        Or(Prop(parsed, "market_potential"), Num(50.0)),
        Or(Prop(parsed, "competition_level"), Num(50.0)),
        Or(Prop(parsed, "technical_feasibility"), Num(50.0)),
        Or(Prop(parsed, "monetization_potential"), Num(50.0)),
        Or(Prop(parsed, "compliance_score"), Num(70.0)),
        Or(Prop(parsed, "ai_analysis"), Str(NotAvailable)),
        ParseCosts(Prop(parsed, "cost_estimate"))))
  }

  const DefaultCosts := CostEstimate(Num(100.0), Num(10000.0), Num(500.0), Num(1000.0), Num(20.0), Num(12.0))

  /** The result of the `catch` block. */
  const Fallback := AnalysisResult(Num(50.0), Num(50.0), Num(50.0), Num(50.0), Num(50.0), Num(70.0), Str(ParsingFailed), DefaultCosts)

  /** `parseAnalysisResponse`, which never throws. */
  function ParseResponse(response: string, parse: string -> Option<Value>): AnalysisResult {
    match JsonCandidate(response)
    case None => Fallback
    case Some(text) =>
      match parse(text)
      case None => Fallback
      case Some(parsed) =>
        match ParseObject(parsed)
        case None => Fallback
        case Some(a) => a
  }

  /** The reply is unusable: no JSON object in it, `JSON.parse` threw, or it parsed to `null`. */
  predicate Unusable(response: string, parse: string -> Option<Value>) {
    || JsonCandidate(response).None?
    || parse(JsonCandidate(response).value).None?
    || ParseObject(parse(JsonCandidate(response).value).value).None?
  }

  /** An unusable reply gives the fixed fallback, and a usable one the object read from it. */
  lemma FallbackExactlyWhenUnusable(response: string, parse: string -> Option<Value>)
    ensures Unusable(response, parse) ==> ParseResponse(response, parse) == Fallback
    ensures !Unusable(response, parse) ==>
      ParseResponse(response, parse) == ParseObject(parse(JsonCandidate(response).value).value).value
  {
  }

  /** Reading fails only when the parsed value is `null` or `undefined`. */
  lemma ParseObjectFails(parsed: Value)
    ensures ParseObject(parsed).None? <==> parsed == Null || parsed == Undefined
  {
  }

  /** Each score is taken as it is when truthy, so it is not clamped to 0-100; a falsy one becomes 50 (compliance 70). */
  lemma ParsedScores(parsed: Value, a: AnalysisResult)
    requires ParseObject(parsed) == Some(a)
    ensures Defaulted(Prop(parsed, "overall_score"), a.overallScore, Num(50.0))
    ensures Defaulted(Prop(parsed, "market_potential"), a.marketPotential, Num(50.0))
    ensures Defaulted(Prop(parsed, "competition_level"), a.competitionLevel, Num(50.0))
    ensures Defaulted(Prop(parsed, "technical_feasibility"), a.technicalFeasibility, Num(50.0))
    ensures Defaulted(Prop(parsed, "monetization_potential"), a.monetizationPotential, Num(50.0))
    ensures Defaulted(Prop(parsed, "compliance_score"), a.complianceScore, Num(70.0))
    ensures Defaulted(Prop(parsed, "ai_analysis"), a.aiAnalysis, Str(NotAvailable))
  {
  }

  /** The cost figures default to 100, 10000, 500, 1000, 20 and 12 under the same falsy rule. */
  lemma ParsedCosts(parsed: Value, a: AnalysisResult)
    requires ParseObject(parsed) == Some(a)
    ensures var cost := Prop(parsed, "cost_estimate");
      && Defaulted(OptProp(cost, "infrastructure_cost"), a.costEstimate.infrastructureCost, Num(100.0))
      && Defaulted(OptProp(cost, "development_cost"), a.costEstimate.developmentCost, Num(10000.0))
      && Defaulted(OptProp(cost, "operational_cost"), a.costEstimate.operationalCost, Num(500.0))
      && Defaulted(OptProp(cost, "projected_revenue"), a.costEstimate.projectedRevenue, Num(1000.0))
      && Defaulted(OptProp(cost, "roi_estimate"), a.costEstimate.roiEstimate, Num(20.0))
      && Defaulted(OptProp(cost, "break_even_months"), a.costEstimate.breakEvenMonths, Num(12.0))
  {
  }

  /** A reply without a `cost_estimate` gets the default figures, the same ones as the fallback. */
  lemma MissingCostsAreDefaults(parsed: Value)
    requires ParseObject(parsed).Some? && !Prop(parsed, "cost_estimate").Obj? && !Prop(parsed, "cost_estimate").Arr?
    ensures ParseObject(parsed).value.costEstimate == DefaultCosts == Fallback.costEstimate
  {
  }

  /** The fallback is what an empty object reads as, but for its analysis text. */
  lemma FallbackIsTheDefaults()
    ensures ParseObject(Obj([])) == Some(Fallback.(aiAnalysis := Str(NotAvailable)))
  {
  }

  const Unavailable := "AI analysis unavailable"

  /** `routeToAI`: the parsed reply of Claude, else of GPT; `None` when both threw. */
  function Perform(claude: Result<string>, gpt: Result<string>, parse: string -> Option<Value>): Option<AnalysisResult> {
    Route(claude, gpt, (text: string) => ParseResponse(text, parse)).0
  }

  /** GPT is consulted only when Claude threw, and the routing fails only when both did. */
  lemma PerformOrder(claude: Result<string>, gpt: Result<string>, parse: string -> Option<Value>)
    ensures claude.Ok? ==> Perform(claude, gpt, parse) == Some(ParseResponse(claude.value, parse))
    ensures claude.Err? && gpt.Ok? ==> Perform(claude, gpt, parse) == Some(ParseResponse(gpt.value, parse))
    ensures Perform(claude, gpt, parse).None? <==> claude.Err? && gpt.Err?
  {
  }

  /** A `scores` row is unique per idea and track. */
  datatype ScoreKey = ScoreKey(ideaId: int, trackType: string)

  datatype ScoreRow = ScoreRow(
    overallScore: Value,
    marketPotential: Value,
    competitionLevel: Value,
    technicalFeasibility: Value,
    monetizationPotential: Value,
    complianceScore: Value,
    aiAnalysis: Value)

  function ScoreRowOf(a: AnalysisResult): ScoreRow {
    ScoreRow(a.overallScore, a.marketPotential, a.competitionLevel, a.technicalFeasibility,
      a.monetizationPotential, a.complianceScore, a.aiAnalysis)
  }

  /** The thrown error is the reply; nothing catches it here. */
  datatype Reply = Answered(result: AnalysisResult) | Threw(error: Errors.Thrown)

  /** The `ideas`, `scores` and `cost_estimates` tables, and the status updates issued. */
  datatype World = World(
    ideas: map<int, IdeaRow>,
    scores: map<ScoreKey, ScoreRow>,
    costs: map<int, CostEstimate>,
    statusLog: seq<StatusWrite>)

  /** The idea with that id owned by the user with that Clerk id, or the error thrown instead. */
  function Owned(clerkId: string, ideaId: int, users: map<string, int>, ideas: map<int, IdeaRow>): (r: Option<Errors.Thrown>)
    ensures r.None? <==> clerkId in users && ideaId in ideas && ideas[ideaId].userId == users[clerkId]
    ensures clerkId !in users ==> r == Some(Errors.Plain("User not found"))
    ensures clerkId in users && r.Some? ==> r == Some(Errors.Plain("Idea not found"))
  {
    if clerkId !in users then Some(Errors.Plain("User not found"))
    else if ideaId !in ideas || ideas[ideaId].userId != users[clerkId] then Some(Errors.Plain("Idea not found"))
    else None
  }

  /** Both upserts, then `completed`. */
  function Recorded(w: World, ideaId: int, trackType: string, a: AnalysisResult): (Reply, World)
    requires ideaId in w.ideas
  {
    (Answered(a), World(
      w.ideas[ideaId := w.ideas[ideaId].(status := "completed")],
      w.scores[ScoreKey(ideaId, trackType) := ScoreRowOf(a)],
      w.costs[ideaId := a.costEstimate],
      w.statusLog + [StatusWrite(ideaId, "completed")]))
  }

  /** The `catch` block: `failed`, and the error rethrown. */
  function Abandoned(w: World, ideaId: int): (Reply, World)
    requires ideaId in w.ideas
  {
    (Threw(Errors.Plain(Unavailable)), w.(
      ideas := w.ideas[ideaId := w.ideas[ideaId].(status := "failed")],
      statusLog := w.statusLog + [StatusWrite(ideaId, "failed")]))
  }

  /**
   * The specification of `AnalyzeIdea`. `outcome` is what `routeToAI` returns if it is
   * reached (`Perform` of the providers' replies).
   */
  function Analyzed(w: World, clerkId: string, ideaId: int, trackType: string, users: map<string, int>,
                    outcome: Option<AnalysisResult>): (Reply, World)
  {
    match Owned(clerkId, ideaId, users, w.ideas)
    case Some(e) => (Threw(e), w)
    case None =>
      var s := w.(ideas := w.ideas[ideaId := w.ideas[ideaId].(status := "analyzing")],
                  statusLog := w.statusLog + [StatusWrite(ideaId, "analyzing")]);
      match outcome
      case Some(a) => Recorded(s, ideaId, trackType, a)
      case None => Abandoned(s, ideaId)
  }

  /** A missing user or idea is thrown before anything is written. */
  lemma NotOwnedChangesNothing(w: World, clerkId: string, ideaId: int, trackType: string, users: map<string, int>,
                               outcome: Option<AnalysisResult>)
    requires !(clerkId in users && ideaId in w.ideas && w.ideas[ideaId].userId == users[clerkId])
    ensures var (reply, after) := Analyzed(w, clerkId, ideaId, trackType, users, outcome);
      && after == w
      && reply == Threw(Errors.Plain(if clerkId in users then "Idea not found" else "User not found"))
  {
  }

  /**
   * The status goes `analyzing` then `completed` after both upserts, with the reply's scores
   * under (idea, track) and its costs under the idea; or `analyzing` then `failed`, with
   * "AI analysis unavailable" thrown and neither table touched.
   */
  lemma {:induction false} Lifecycle(w: World, clerkId: string, ideaId: int, trackType: string, users: map<string, int>,
                                     outcome: Option<AnalysisResult>)
    requires clerkId in users && ideaId in w.ideas && w.ideas[ideaId].userId == users[clerkId]
    ensures var (reply, after) := Analyzed(w, clerkId, ideaId, trackType, users, outcome);
      var final := if outcome.Some? then "completed" else "failed";
      && after.statusLog == w.statusLog + [StatusWrite(ideaId, "analyzing"), StatusWrite(ideaId, final)]
      && after.ideas == w.ideas[ideaId := w.ideas[ideaId].(status := final)]
      && (outcome.Some? ==>
        && reply == Answered(outcome.value)
        && after.scores == w.scores[ScoreKey(ideaId, trackType) := ScoreRowOf(outcome.value)]
        && after.costs == w.costs[ideaId := outcome.value.costEstimate])
      && (outcome.None? ==>
        && reply == Threw(Errors.Plain(Unavailable))
        && after.scores == w.scores && after.costs == w.costs)
  {
    var final := if outcome.Some? then "completed" else "failed";
    var s := w.(ideas := w.ideas[ideaId := w.ideas[ideaId].(status := "analyzing")],
                statusLog := w.statusLog + [StatusWrite(ideaId, "analyzing")]);
    var after := Analyzed(w, clerkId, ideaId, trackType, users, outcome).1;
    assert after.ideas == s.ideas[ideaId := s.ideas[ideaId].(status := final)];
    assert after.statusLog == s.statusLog + [StatusWrite(ideaId, final)];
  }

  /** Scores for another track of the same idea are left as they were. */
  lemma OtherTracksKept(w: World, clerkId: string, ideaId: int, trackType: string, users: map<string, int>,
                        outcome: Option<AnalysisResult>, other: ScoreKey)
    requires other != ScoreKey(ideaId, trackType) && other in w.scores
    ensures var after := Analyzed(w, clerkId, ideaId, trackType, users, outcome).1;
      other in after.scores && after.scores[other] == w.scores[other]
  {
  }

  class IdeaAnalyzer {
    var ideas: map<int, IdeaRow>
    var scores: map<ScoreKey, ScoreRow>
    var costs: map<int, CostEstimate>
    var statusLog: seq<StatusWrite>

    ghost function State(): World
      reads this
    {
      World(ideas, scores, costs, statusLog)
    }

    constructor (ideas: map<int, IdeaRow>)
      ensures State() == World(ideas, map[], map[], [])
    {
      this.ideas := ideas;
      scores := map[];
      costs := map[];
      statusLog := [];
    }

    /** `analyze` for the user with Clerk id `clerkId`; a thrown error is the `Threw` reply. */
    method AnalyzeIdea(clerkId: string, ideaId: int, trackType: string, users: map<string, int>,
                       claude: Result<string>, gpt: Result<string>, parse: string -> Option<Value>) returns (r: Reply)
      modifies this
      ensures (r, State()) == Analyzed(old(State()), clerkId, ideaId, trackType, users, Perform(claude, gpt, parse))
    {
      if clerkId !in users {
        return Threw(Errors.Plain("User not found"));
      }
      if ideaId !in ideas || ideas[ideaId].userId != users[clerkId] {
        return Threw(Errors.Plain("Idea not found"));
      }
      ideas := ideas[ideaId := ideas[ideaId].(status := "analyzing")];
      statusLog := statusLog + [StatusWrite(ideaId, "analyzing")];
      var outcome := Perform(claude, gpt, parse);
      if outcome.Some? {
        var a := outcome.value;
        scores := scores[ScoreKey(ideaId, trackType) := ScoreRowOf(a)];
        costs := costs[ideaId := a.costEstimate];
        ideas := ideas[ideaId := ideas[ideaId].(status := "completed")];
        statusLog := statusLog + [StatusWrite(ideaId, "completed")];
        r := Answered(a);
      } else {
        ideas := ideas[ideaId := ideas[ideaId].(status := "failed")];
        statusLog := statusLog + [StatusWrite(ideaId, "failed")];
        r := Threw(Errors.Plain(Unavailable));
      }
    }
  }
}
