/**
 * The `enrichment-pipeline` subscription to `ItemNormalized`: every delivery records a
 * running job for the item, loads the raw item, runs the six enrichers on its text, checks
 * the title hash against the existing ideas, inserts an idea and marks the item's jobs done;
 * any error on the way marks them failed instead.
 *
 * The database is the `raw_items`, `enrich_jobs` and `ideas` tables, held by `EnrichStore`.
 * A query that fails is given by `fails`, which yields the error message of each step's
 * query; the enrichers' inputs that come from outside (the page behind the item's url and
 * the regular-expression matches) and `sha256` and `Math.sqrt` are carried by `Env`.
 */
module EnrichPipeline {
  import opened Wrappers
  import opened Text
  import opened JsValue
  import opened ScraperTypes
  import ScrapeRun
  import Keyphrases
  import Language
  import Sentiment
  import Entities
  import Readability
  import Embeddings

  datatype JobStatus = Queued | Running | Done | Failed

  datatype Signals = Signals(
    readability: Readability.ReadabilityResult,
    language: Language.LanguageResult,
    keyphrases: seq<Keyphrases.Keyphrase>,
    entities: seq<Entities.Entity>,
    sentiment: Sentiment.SentimentResult,
    isDuplicate: bool)

  /** The `{ ideaId, signals }` recorded on a job that is done. */
  datatype JobResult = JobResult(ideaId: nat, signals: Signals)

  /** An `enrich_jobs` row; `errors` holds the message of the error recorded on failure. */
  datatype Job = Job(itemId: int, status: JobStatus, attempts: nat, result: Option<JobResult>, errors: Option<string>)

  /** An `ideas` row as the pipeline inserts it. */
  datatype Idea = Idea(
    id: nat, title: string, description: Value, source: string, sourceUrl: Value, rawData: Value,
    signals: Signals, tags: seq<string>, titleHash: string, vector: seq<real>, status: string)

  datatype Tables = Tables(rawItems: seq<ScrapeRun.RawItem>, jobs: seq<Job>, ideas: seq<Idea>)

  /** The handler's queries, in the order it issues them; `FailJobsUpdate` is the `catch` block's update. */
  datatype Step = InsertJob | LoadItem | CheckDuplicate | InsertIdea | MarkDone | FailJobsUpdate

  datatype Env = Env(
    page: Value -> HttpOutcome,
    matches: string -> Entities.PatternMatches,
    sha256: string -> string,
    sqrt: real -> real)

  /** The regular-expression engine reports matches inside the text it searched. */
  ghost predicate WellFormed(env: Env) {
    forall t :: Entities.MatchesIn(env.matches(t), |t|)
  }

  /** `hashTitle(title)`: SHA-256 of the title lowered, then trimmed. */
  function HashTitle(sha256: string -> string, title: string): string {
    sha256(Trim(ToLower(title)))
  }

  /** `raw.title || event.title || ''`. */
  function TitleOf(raw: Value, event: ScrapeRun.ItemEvent): (t: Value)
    ensures Truthy(Prop(raw, "title")) ==> t == Prop(raw, "title")
    ensures !Truthy(Prop(raw, "title")) && Truthy(event.title) ==> t == event.title
    ensures !Truthy(Prop(raw, "title")) && !Truthy(event.title) ==> t == Str("")
  {
    Or(Or(Prop(raw, "title"), event.title), Str(""))
  }

  /** `(raw.summary || raw.description) || ''`. */
  function SummaryOf(raw: Value): (s: Value)
    ensures Truthy(Prop(raw, "summary")) ==> s == Prop(raw, "summary")
    ensures !Truthy(Prop(raw, "summary")) && Truthy(Prop(raw, "description")) ==> s == Prop(raw, "description")
    ensures !Truthy(Prop(raw, "summary")) && !Truthy(Prop(raw, "description")) ==> s == Str("")
  {
    Or(Or(Prop(raw, "summary"), Prop(raw, "description")), Str(""))
  }

  /** `` `${title} ${summary}` ``. */
  function FullText(title: Value, summary: Value): string {
    ToJsString(title) + " " + ToJsString(summary)
  }

  /** `raw.tags.map(t => String(t))` when `raw.tags` is an array, else nothing. */
  function RawTags(tags: Value): (r: seq<string>)
    ensures !tags.Arr? ==> r == []
    ensures tags.Arr? ==> |r| == |tags.items| && forall i :: 0 <= i < |r| ==> r[i] == ToJsString(tags.items[i])
  {
    if tags.Arr? then seq(|tags.items|, i requires 0 <= i < |tags.items| => ToJsString(tags.items[i])) else []
  }

  /** The phrases of the keyphrases, in rank order. */
  function Phrases(kps: seq<Keyphrases.Keyphrase>): (r: seq<string>)
    ensures |r| == |kps| && forall i :: 0 <= i < |r| ==> r[i] == kps[i].phrase
  {
    seq(|kps|, i requires 0 <= i < |kps| => kps[i].phrase)
  }

  const MaxKeyphraseTags: nat := 5

  /** The idea's tags: the item's own, then the first five keyphrases. */
  function Tags(rawTags: Value, kps: seq<Keyphrases.Keyphrase>): seq<string> {
    RawTags(rawTags) + Phrases(if |kps| <= MaxKeyphraseTags then kps else kps[..MaxKeyphraseTags])
  }

  /** The six enrichers' results for one text. */
  datatype Enrichment = Enrichment(
    readability: Readability.ReadabilityResult, language: Language.LanguageResult,
    keyphrases: seq<Keyphrases.Keyphrase>, entities: seq<Entities.Entity>,
    sentiment: Sentiment.SentimentResult, vector: seq<real>)

  /** What the handler computes from a raw item before it queries for duplicates. */
  datatype Analysis = Analysis(title: string, summary: Value, raw: Value, tags: seq<string>, enriched: Enrichment)

  /** The specification of the `Promise.all` over the enrichers. */
  function EnrichText(fullText: string, url: Value, env: Env): (e: Enrichment)
    requires WellFormed(env)
    ensures e.keyphrases == Keyphrases.KeyphrasesOf(fullText)
  {
    Enrichment(
      Readability.Enrich(env.page(url)),
      Language.LanguageOf(fullText),
      Keyphrases.KeyphrasesOf(fullText),
      Entities.EntitiesOf(fullText, env.matches(fullText)),
      Sentiment.SentimentOf(fullText),
      Embeddings.EmbeddingOf(fullText, env.sqrt).vector)
  }

  const NotAFunction := "title.toLowerCase is not a function"

  /**
   * Reading the raw item's fields and running the enrichers; reading a field of a `null`
   * item throws, and so does `hashTitle` on a title that is not a string.
   */
  function Analyze(raw: Value, event: ScrapeRun.ItemEvent, env: Env): (r: Result<Analysis>)
    requires WellFormed(env)
    ensures (raw == Null || raw == Undefined) ==> r == Err(Member(raw, "title").error)
    ensures r.Ok? <==> raw != Null && raw != Undefined && TitleOf(raw, event).Str?
    ensures r.Ok? ==> r.value.title == TitleOf(raw, event).s && r.value.summary == SummaryOf(raw)
    ensures r.Ok? ==> r.value.raw == raw
  {
    if raw == Null || raw == Undefined then Err(Member(raw, "title").error)
    else
      var title := TitleOf(raw, event);
      var summary := SummaryOf(raw);
      var fullText := FullText(title, summary);
      if !title.Str? then Err(NotAFunction)
      else
        var e := EnrichText(fullText, event.url, env);
        Ok(Analysis(title.s, summary, raw, Tags(Prop(raw, "tags"), e.keyphrases), e))
  }

  /** `Analyze` for the items of one event. */
  function AnalyzerOf(event: ScrapeRun.ItemEvent, env: Env): Value -> Result<Analysis>
    requires WellFormed(env)
  {
    raw => Analyze(raw, event, env)
  }

  function SignalsOf(a: Analysis, isDuplicate: bool): Signals {
    var e := a.enriched;
    Signals(e.readability, e.language, e.keyphrases, e.entities, e.sentiment, isDuplicate)
  }

  function IdeaOf(id: nat, a: Analysis, url: Value, signals: Signals, hash: string): Idea {
    Idea(id, a.title, a.summary, "scraper", url, a.raw, signals, a.tags, hash, a.enriched.vector, "completed")
  }

  /** `SELECT id FROM ideas WHERE title_hash = $1 LIMIT 1` returns a row. */
  predicate HasTitleHash(ideas: seq<Idea>, hash: string) {
    exists i :: 0 <= i < |ideas| && ideas[i].titleHash == hash
  }

  /** `SELECT * FROM raw_items WHERE id = $1`. */
  function FindItem(rows: seq<ScrapeRun.RawItem>, id: int): (r: Option<ScrapeRun.RawItem>)
    ensures r.Some? ==> r.value in rows && r.value.id == id
    ensures r.None? <==> forall i :: 0 <= i < |rows| ==> rows[i].id != id
  {
    if rows == [] then None
    else if rows[0].id == id then Some(rows[0])
    else FindItem(rows[1..], id)
  }

  function NotFoundMessage(itemId: int): string {
    "Raw item " + IntToString(itemId) + " not found"
  }

  /** The catch's update: every job of the item fails, with one more attempt and the error. */
  function FailJobs(jobs: seq<Job>, itemId: int, message: string): (r: seq<Job>)
    ensures |r| == |jobs|
  {
    seq(|jobs|, i requires 0 <= i < |jobs| =>
      if jobs[i].itemId == itemId
      then jobs[i].(status := Failed, attempts := jobs[i].attempts + 1, errors := Some(message))
      else jobs[i])
  }

  /** The final update: every job of the item is done, with the idea and the signals. */
  function CompleteJobs(jobs: seq<Job>, itemId: int, result: JobResult): (r: seq<Job>)
    ensures |r| == |jobs|
  {
    seq(|jobs|, i requires 0 <= i < |jobs| =>
      if jobs[i].itemId == itemId then jobs[i].(status := Done, result := Some(result)) else jobs[i])
  }

  /** The state the `try` block leaves behind, and the error it threw, if any. */
  datatype Attempted = Attempted(tables: Tables, error: Option<string>)

  /** The `try` block after the raw item is analysed: the duplicate query and the two writes. */
  function Record(t1: Tables, event: ScrapeRun.ItemEvent, a: Analysis, sha256: string -> string, fails: Step -> Option<string>): (r: Attempted)
    ensures r.tables.rawItems == t1.rawItems
    ensures |r.tables.jobs| == |t1.jobs|
    ensures |t1.ideas| <= |r.tables.ideas| <= |t1.ideas| + 1 && r.tables.ideas[..|t1.ideas|] == t1.ideas
    ensures r.error.Some? ==> r.tables.jobs == t1.jobs
    ensures (fails(CheckDuplicate).Some? || fails(InsertIdea).Some? || fails(MarkDone).Some?) ==> r.error.Some?
  {
    var hash := HashTitle(sha256, a.title);
    if fails(CheckDuplicate).Some? then Attempted(t1, fails(CheckDuplicate))
    else
      var signals := SignalsOf(a, HasTitleHash(t1.ideas, hash));
      if fails(InsertIdea).Some? then Attempted(t1, fails(InsertIdea))
      else
        var id := |t1.ideas| + 1;
        var t2 := t1.(ideas := t1.ideas + [IdeaOf(id, a, event.url, signals, hash)]);
        if fails(MarkDone).Some? then Attempted(t2, fails(MarkDone))
        else Attempted(t2.(jobs := CompleteJobs(t2.jobs, event.itemId, JobResult(id, signals))), None)
  }

  /** The whole `try` block, with the analysis of the raw item given by `analyze`. */
  function AttemptWith(
    tb: Tables, event: ScrapeRun.ItemEvent, analyze: Value -> Result<Analysis>, sha256: string -> string,
    fails: Step -> Option<string>): (r: Attempted)
    ensures r.tables.rawItems == tb.rawItems
    ensures |r.tables.jobs| == |tb.jobs| + (if fails(InsertJob).Some? then 0 else 1)
    ensures |tb.ideas| <= |r.tables.ideas| <= |tb.ideas| + 1 && r.tables.ideas[..|tb.ideas|] == tb.ideas
    ensures fails(InsertJob).None? && r.error.Some? ==> r.tables.jobs == tb.jobs + [Job(event.itemId, Running, 0, None, None)]
    ensures
      (fails(InsertJob).None? &&
       (fails(LoadItem).Some? || fails(CheckDuplicate).Some? || fails(InsertIdea).Some? || fails(MarkDone).Some?)) ==>
      r.error.Some?
  {
    if fails(InsertJob).Some? then Attempted(tb, fails(InsertJob))
    else
      var t1 := tb.(jobs := tb.jobs + [Job(event.itemId, Running, 0, None, None)]);
      if fails(LoadItem).Some? then Attempted(t1, fails(LoadItem))
      else match FindItem(t1.rawItems, event.itemId)
        case None => Attempted(t1, Some(NotFoundMessage(event.itemId)))
        case Some(item) =>
          match analyze(item.raw)
          case Err(message) => Attempted(t1, Some(message))
          case Ok(a) => Record(t1, event, a, sha256, fails)
  }

  /**
   * The `try` block, then the `catch` block on error. The `catch` block's own update can fail; it
   * then changes nothing and the handler rejects.
   */
  function HandleWith(
    tb: Tables, event: ScrapeRun.ItemEvent, analyze: Value -> Result<Analysis>, sha256: string -> string,
    fails: Step -> Option<string>): (r: Tables)
    ensures r.rawItems == tb.rawItems
    ensures var a := AttemptWith(tb, event, analyze, sha256, fails);
      a.error.Some? && fails(FailJobsUpdate).Some? ==> r == a.tables
  {
    var a := AttemptWith(tb, event, analyze, sha256, fails);
    if a.error.None? || fails(FailJobsUpdate).Some? then a.tables
    else a.tables.(jobs := FailJobs(a.tables.jobs, event.itemId, a.error.value))
  }

  /** The error the handler rejects with: the `try` block threw and the `catch` block's update failed too. */
  function Rejection(
    tb: Tables, event: ScrapeRun.ItemEvent, analyze: Value -> Result<Analysis>, sha256: string -> string,
    fails: Step -> Option<string>): (r: Option<string>)
    ensures r.Some? <==> AttemptWith(tb, event, analyze, sha256, fails).error.Some? && fails(FailJobsUpdate).Some?
    ensures r.Some? ==> r == fails(FailJobsUpdate)
  {
    if AttemptWith(tb, event, analyze, sha256, fails).error.Some? then fails(FailJobsUpdate) else None
  }

  /** The specification of `HandleDelivery`. */
  function Handle(tb: Tables, event: ScrapeRun.ItemEvent, env: Env, fails: Step -> Option<string>): (r: Tables)
    requires WellFormed(env)
  {
    HandleWith(tb, event, AnalyzerOf(event, env), env.sha256, fails)
  }

  /** The three tables the handler reads and writes. */
  class EnrichStore {
    var rawItems: seq<ScrapeRun.RawItem>
    var jobs: seq<Job>
    var ideas: seq<Idea>

    constructor (rawItems: seq<ScrapeRun.RawItem>, jobs: seq<Job>, ideas: seq<Idea>)
      ensures this.rawItems == rawItems && this.jobs == jobs && this.ideas == ideas
    {
      this.rawItems := rawItems;
      this.jobs := jobs;
      this.ideas := ideas;
    }

    function State(): Tables
      reads this
    {
      Tables(rawItems, jobs, ideas)
    }

    /** `INSERT INTO enrich_jobs ...`. */
    method AddJob(job: Job)
      modifies this
      ensures jobs == old(jobs) + [job]
      ensures rawItems == old(rawItems) && ideas == old(ideas)
    {
      jobs := jobs + [job];
    }

    /** `INSERT INTO ideas ... RETURNING id`; ids are numbered from 1 in insertion order. */
    method AddIdea(idea: Idea)
      modifies this
      ensures ideas == old(ideas) + [idea]
      ensures rawItems == old(rawItems) && jobs == old(jobs)
    {
      ideas := ideas + [idea];
    }

    /** `UPDATE enrich_jobs SET status = 'done', result = $1 ... WHERE item_id = $2`. */
    method Complete(itemId: int, result: JobResult)
      modifies this
      ensures jobs == CompleteJobs(old(jobs), itemId, result)
      ensures rawItems == old(rawItems) && ideas == old(ideas)
    {
      jobs := CompleteJobs(jobs, itemId, result);
    }

    /** `UPDATE enrich_jobs SET status = 'failed', errors = $1, attempts = attempts + 1 ... WHERE item_id = $2`. */
    method Fail(itemId: int, message: string)
      modifies this
      ensures jobs == FailJobs(old(jobs), itemId, message)
      ensures rawItems == old(rawItems) && ideas == old(ideas)
    {
      jobs := FailJobs(jobs, itemId, message);
    }
  }

  /** The `Promise.all` over the six enrichers. */
  method RunEnrichers(fullText: string, url: Value, env: Env) returns (e: Enrichment)
    requires WellFormed(env)
    ensures e == EnrichText(fullText, url, env)
  {
    var readability := Readability.Enrich(env.page(url));
    var language := Language.DetectLanguage(fullText);
    var keyphrases := Keyphrases.ExtractKeyphrases(fullText);
    var entities := Entities.ExtractEntities(fullText, env.matches(fullText));
    var sentiment := Sentiment.AnalyzeSentiment(fullText);
    var embedding := Embeddings.GenerateEmbedding(fullText, env.sqrt);
    e := Enrichment(readability, language, keyphrases, entities, sentiment, embedding.vector);
  }

  /** The field reads of the raw item, the enrichers and the tag list. */
  method AnalyzeItem(raw: Value, event: ScrapeRun.ItemEvent, env: Env) returns (r: Result<Analysis>)
    requires WellFormed(env)
    ensures r == Analyze(raw, event, env)
  {
    if raw == Null || raw == Undefined {
      return Err(Member(raw, "title").error);
    }
    var title := TitleOf(raw, event);
    var summary := SummaryOf(raw);
    var fullText := FullText(title, summary);
    var e := RunEnrichers(fullText, event.url, env);
    if !title.Str? {
      return Err(NotAFunction);
    }
    var tags := ItemTags(Prop(raw, "tags"), e.keyphrases);
    r := Ok(Analysis(title.s, summary, raw, tags, e));
  }

  /** `tags.push(...raw.tags.map(...))`, then the phrases of the first five keyphrases. */
  method ItemTags(rawTags: Value, keyphrases: seq<Keyphrases.Keyphrase>) returns (tags: seq<string>)
    ensures tags == Tags(rawTags, keyphrases)
  {
    tags := RawTags(rawTags);
    var top := if |keyphrases| <= MaxKeyphraseTags then keyphrases else keyphrases[..MaxKeyphraseTags];
    tags := tags + Phrases(top);
  }

  /** The `try` block of the handler. */
  method Process(db: EnrichStore, event: ScrapeRun.ItemEvent, env: Env, fails: Step -> Option<string>) returns (error: Option<string>)
    requires WellFormed(env)
    modifies db
    ensures Attempted(db.State(), error) == AttemptWith(old(db.State()), event, AnalyzerOf(event, env), env.sha256, fails)
  {
    if fails(InsertJob).Some? {
      return fails(InsertJob);
    }
    db.AddJob(Job(event.itemId, Running, 0, None, None));
    if fails(LoadItem).Some? {
      return fails(LoadItem);
    }
    var found := FindItem(db.rawItems, event.itemId);
    if found.None? {
      return Some(NotFoundMessage(event.itemId));
    }
    var analysis := AnalyzeItem(found.value.raw, event, env);
    assert analysis == AnalyzerOf(event, env)(found.value.raw);
    if analysis.Err? {
      return Some(analysis.error);
    }
    error := Persist(db, event, analysis.value, env.sha256, fails);
  }

  /** The duplicate query, the idea insert and the completion of the item's jobs. */
  method Persist(db: EnrichStore, event: ScrapeRun.ItemEvent, a: Analysis, sha256: string -> string, fails: Step -> Option<string>)
    returns (error: Option<string>)
    modifies db
    ensures Attempted(db.State(), error) == Record(old(db.State()), event, a, sha256, fails)
  {
    var hash := HashTitle(sha256, a.title);
    if fails(CheckDuplicate).Some? {
      return fails(CheckDuplicate);
    }
    var signals := SignalsOf(a, HasTitleHash(db.ideas, hash));
    if fails(InsertIdea).Some? {
      return fails(InsertIdea);
    }
    var ideaId := |db.ideas| + 1;
    db.AddIdea(IdeaOf(ideaId, a, event.url, signals, hash));
    if fails(MarkDone).Some? {
      return fails(MarkDone);
    }
    db.Complete(event.itemId, JobResult(ideaId, signals));
    error := None;
  }

  /** One delivery of an `ItemNormalized` event to the subscription's handler; `rejected` is the error it rejects with. */
  method HandleDelivery(db: EnrichStore, event: ScrapeRun.ItemEvent, env: Env, fails: Step -> Option<string>)
    returns (rejected: Option<string>)
    requires WellFormed(env)
    modifies db
    ensures db.State() == Handle(old(db.State()), event, env, fails)
    ensures rejected == Rejection(old(db.State()), event, AnalyzerOf(event, env), env.sha256, fails)
  {
    var error := Process(db, event, env, fails);
    rejected := None;
    if error.Some? {
      if fails(FailJobsUpdate).Some? {
        rejected := fails(FailJobsUpdate);
      } else {
        db.Fail(event.itemId, error.value);
      }
    }
  }

  /** The outcome of the handler: its jobs settle, none is left running or queued. */
  predicate Settled(jobs: seq<Job>, itemId: int) {
    forall i :: 0 <= i < |jobs| && jobs[i].itemId == itemId ==> jobs[i].status == Done || jobs[i].status == Failed
  }

  lemma RecordSettlesOnSuccess(t1: Tables, event: ScrapeRun.ItemEvent, a: Analysis, sha256: string -> string, fails: Step -> Option<string>)
    ensures var r := Record(t1, event, a, sha256, fails);
      r.error.None? ==> Settled(r.tables.jobs, event.itemId)
  {
  }

  /** Unless the handler rejects, after a delivery no job of the item is left running or queued. */
  lemma DeliverySettlesJobs(
    tb: Tables, event: ScrapeRun.ItemEvent, analyze: Value -> Result<Analysis>, sha256: string -> string,
    fails: Step -> Option<string>)
    ensures Rejection(tb, event, analyze, sha256, fails).None? ==>
      Settled(HandleWith(tb, event, analyze, sha256, fails).jobs, event.itemId)
  {
    var a := AttemptWith(tb, event, analyze, sha256, fails);
    if a.error.None? {
      var t1 := tb.(jobs := tb.jobs + [Job(event.itemId, Running, 0, None, None)]);
      var item := FindItem(t1.rawItems, event.itemId).value;
      RecordSettlesOnSuccess(t1, event, analyze(item.raw).value, sha256, fails);
    }
  }

  /**
   * When the `try` block throws after its job row is inserted and the `catch` block's update fails
   * too, the new job is left running and the handler rejects with the update's error.
   */
  lemma FailedCatchLeavesJobRunning(
    tb: Tables, event: ScrapeRun.ItemEvent, analyze: Value -> Result<Analysis>, sha256: string -> string,
    fails: Step -> Option<string>)
    requires fails(InsertJob).None? && fails(FailJobsUpdate).Some?
    requires fails(LoadItem).Some? || fails(CheckDuplicate).Some? || fails(InsertIdea).Some? || fails(MarkDone).Some?
    ensures var r := HandleWith(tb, event, analyze, sha256, fails);
      && r.jobs == tb.jobs + [Job(event.itemId, Running, 0, None, None)]
      && !Settled(r.jobs, event.itemId)
      && Rejection(tb, event, analyze, sha256, fails) == fails(FailJobsUpdate)
  {
    var r := HandleWith(tb, event, analyze, sha256, fails);
    assert r.jobs[|tb.jobs|].itemId == event.itemId && r.jobs[|tb.jobs|].status == Running;
  }

  /** Every delivery whose insert succeeds adds one job row, with no check for an existing one. */
  lemma DeliveryAddsJob(
    tb: Tables, event: ScrapeRun.ItemEvent, analyze: Value -> Result<Analysis>, sha256: string -> string,
    fails: Step -> Option<string>)
    ensures var r := HandleWith(tb, event, analyze, sha256, fails);
      && |r.jobs| == |tb.jobs| + (if fails(InsertJob).Some? then 0 else 1)
      && r.ideas[..|tb.ideas|] == tb.ideas && |r.ideas| <= |tb.ideas| + 1
  {
  }

  /** A duplicate delivery of the same event adds a second job row. */
  lemma DuplicateDeliveryAddsRows(
    tb: Tables, event: ScrapeRun.ItemEvent, analyze: Value -> Result<Analysis>, sha256: string -> string,
    first: Step -> Option<string>, second: Step -> Option<string>)
    requires first(InsertJob).None? && second(InsertJob).None?
    ensures |HandleWith(HandleWith(tb, event, analyze, sha256, first), event, analyze, sha256, second).jobs| == |tb.jobs| + 2
  {
    DeliveryAddsJob(tb, event, analyze, sha256, first);
    DeliveryAddsJob(HandleWith(tb, event, analyze, sha256, first), event, analyze, sha256, second);
  }

  /**
   * A missing raw item fails the delivery: no idea is inserted, and every job row of the
   * item, the new one included, is failed with one more attempt and the not-found error.
   */
  lemma MissingItemFailsJobs(
    tb: Tables, event: ScrapeRun.ItemEvent, analyze: Value -> Result<Analysis>, sha256: string -> string,
    fails: Step -> Option<string>)
    requires fails(InsertJob).None? && fails(LoadItem).None? && fails(FailJobsUpdate).None?
    requires forall i :: 0 <= i < |tb.rawItems| ==> tb.rawItems[i].id != event.itemId
    ensures var r := HandleWith(tb, event, analyze, sha256, fails);
      var message := NotFoundMessage(event.itemId);
      && r.ideas == tb.ideas
      && |r.jobs| == |tb.jobs| + 1
      && r.jobs[|tb.jobs|] == Job(event.itemId, Failed, 1, None, Some(message))
      && forall i :: 0 <= i < |tb.jobs| ==>
           r.jobs[i] == if tb.jobs[i].itemId == event.itemId
                        then tb.jobs[i].(status := Failed, attempts := tb.jobs[i].attempts + 1, errors := Some(message))
                        else tb.jobs[i]
  {
  }

  /** The idea a successful delivery inserts, and the jobs it completes. */
  lemma SuccessfulDelivery(
    tb: Tables, event: ScrapeRun.ItemEvent, analyze: Value -> Result<Analysis>, sha256: string -> string,
    fails: Step -> Option<string>, item: ScrapeRun.RawItem, a: Analysis)
    requires forall s :: fails(s).None?
    requires FindItem(tb.rawItems, event.itemId) == Some(item)
    requires analyze(item.raw) == Ok(a)
    ensures var r := HandleWith(tb, event, analyze, sha256, fails);
      var hash := HashTitle(sha256, a.title);
      var id := |tb.ideas| + 1;
      var idea := SignalsOf(a, HasTitleHash(tb.ideas, hash));
      && r.ideas == tb.ideas + [IdeaOf(id, a, event.url, idea, hash)]
      && (idea.isDuplicate <==> exists j :: 0 <= j < |tb.ideas| && tb.ideas[j].titleHash == hash)
      && |r.jobs| == |tb.jobs| + 1
      && forall i :: 0 <= i < |r.jobs| ==>
           if r.jobs[i].itemId == event.itemId
           then r.jobs[i].status == Done && r.jobs[i].result == Some(JobResult(id, idea))
           else r.jobs[i] == tb.jobs[i]
  {
    var t1 := tb.(jobs := tb.jobs + [Job(event.itemId, Running, 0, None, None)]);
    assert FindItem(t1.rawItems, event.itemId) == Some(item);
  }

  /** The inserted idea is completed, comes from the scraper and keeps the event's url. */
  lemma InsertedIdeaShape(id: nat, a: Analysis, url: Value, signals: Signals, hash: string)
    ensures var idea := IdeaOf(id, a, url, signals, hash);
      && idea.id == id && idea.status == "completed" && idea.source == "scraper"
      && idea.sourceUrl == url && idea.titleHash == hash && idea.title == a.title
      && idea.description == a.summary && idea.tags == a.tags && idea.rawData == a.raw
  {
  }

  /**
   * A failed duplicate query or idea insert leaves the ideas alone, and fails the item's jobs
   * unless the `catch` block's update fails too.
   */
  lemma FailedWriteInsertsNoIdea(
    tb: Tables, event: ScrapeRun.ItemEvent, analyze: Value -> Result<Analysis>, sha256: string -> string,
    fails: Step -> Option<string>)
    requires fails(CheckDuplicate).Some? || fails(InsertIdea).Some?
    ensures var r := HandleWith(tb, event, analyze, sha256, fails);
      && r.ideas == tb.ideas
      && (fails(FailJobsUpdate).None? ==>
            forall i :: 0 <= i < |r.jobs| && r.jobs[i].itemId == event.itemId ==> r.jobs[i].status == Failed)
  {
  }

  /**
   * The item's tags (`RawTags`: `String` of each element of an array, none otherwise), then
   * the phrases of at most five keyphrases in rank order.
   */
  lemma TagsShape(rawTags: Value, kps: seq<Keyphrases.Keyphrase>)
    ensures var t := Tags(rawTags, kps);
      var k := if |kps| <= MaxKeyphraseTags then |kps| else MaxKeyphraseTags;
      var own := |RawTags(rawTags)|;
      && |t| == own + k
      && t[..own] == RawTags(rawTags)
      && (forall i :: 0 <= i < k ==> t[own + i] == kps[i].phrase)
  {
    TagsAfterOwn(rawTags, kps);
  }

  lemma TagsAfterOwn(rawTags: Value, kps: seq<Keyphrases.Keyphrase>)
    ensures Tags(rawTags, kps)[|RawTags(rawTags)|..] == Phrases(if |kps| <= MaxKeyphraseTags then kps else kps[..MaxKeyphraseTags])
  {
  }

  /** Titles that differ only in letter case or in surrounding whitespace share a hash. */
  lemma TitleHashCollisions(sha256: string -> string, title: string, c: char)
    requires IsSpace(c)
    ensures HashTitle(sha256, ToLower(title)) == HashTitle(sha256, title)
    ensures HashTitle(sha256, [c] + title) == HashTitle(sha256, title)
    ensures HashTitle(sha256, title + [c]) == HashTitle(sha256, title)
  {
    ToLowerIdempotent(title);
    var low := ToLower(title);
    assert ToLower([c] + title) == [c] + low by {
      ToLowerAppend([c], title);
    }
    assert ToLower(title + [c]) == low + [c] by {
      ToLowerAppend(title, [c]);
    }
    TrimPrependSpace(c, low);
    TrimAppendSpace(low, c);
  }
}
