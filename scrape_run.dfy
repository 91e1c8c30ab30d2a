/**
 * The scrape run (`POST /scraper/run`): each selected enabled source is fetched through its
 * adapter; every candidate whose content hash is not stored yet is inserted into
 * `raw_items`, flagged normalised and announced on the `scraper.item.normalized` topic; a
 * source whose candidates were all handled gets its `last_fetch_at` stamped. Anything that
 * throws inside one source ends the work on that source only.
 */
module ScrapeRun {
  import opened Wrappers
  import opened JsValue
  import opened Retry
  import opened ScraperTypes
  import ApiAdapter
  import RssAdapter
  import HtmlAdapter

  datatype AdapterKind = Rss | Api | Html

  /** `createAdapter(source)`: the adapter for `rss`, `api` and `html`, a thrown error otherwise. */
  function CreateAdapter(source: Source): (r: Result<AdapterKind>)
    ensures r == Ok(Rss) <==> source.kind == "rss"
    ensures r == Ok(Api) <==> source.kind == "api"
    ensures r == Ok(Html) <==> source.kind == "html"
    ensures r.Err? ==> r.error == "Unknown source type: " + source.kind
  {
    if source.kind == "rss" then Ok(Rss)
    else if source.kind == "api" then Ok(Api)
    else if source.kind == "html" then Ok(Html)
    else Err("Unknown source type: " + source.kind)
  }

  /** The statements (and the publish) that can throw while one candidate is handled. */
  datatype Step = Lookup | Insert | Flag | Publish

  /**
   * What the run cannot see: the server each source's requests reach and the jitter of its
   * retries (by source id), the digest, the JSON parser, which statement throws for the
   * `k`-th candidate of a source, and the database clock.
   */
  datatype Env = Env(
    net: int -> Network,
    jitter: int -> nat -> real,
    sha256: string -> string,
    parse: ApiAdapter.JsonParse,
    fails: (int, nat, Step) -> bool,
    now: int)

  /** A row of `raw_items`; `raw` is the candidate's record (stored as its JSON text). */
  datatype RawItem = RawItem(
    id: int, sourceId: int, extId: string, url: string, raw: Value, hash: string, normalized: bool)

  /** An `ItemNormalizedEvent` as published. */
  datatype ItemEvent = ItemEvent(itemId: int, title: Value, url: Value)

  /** The `sources` and `raw_items` tables and the topic's log of published events. */
  datatype Tables = Tables(sources: seq<Source>, rawItems: seq<RawItem>, events: seq<ItemEvent>)

  datatype RunResponse = RunResponse(sourcesProcessed: nat, itemsFound: nat, itemsNormalized: nat)

  /** The effect of handling candidates: the new tables, how many were published, whether something threw. */
  datatype ItemsOutcome = ItemsOutcome(tables: Tables, added: nat, failed: bool)

  /** The effect of handling sources: the new tables and the two running totals. */
  datatype Totals = Totals(tables: Tables, found: nat, normalized: nat)

  datatype RunOutcome = RunOutcome(tables: Tables, response: RunResponse)

  /** `SELECT * FROM sources WHERE [name = $1 AND] enabled = true`, in table order; an empty name selects by `enabled` only. */
  function Selected(sources: seq<Source>, name: Option<string>): (r: seq<Source>)
    ensures |r| <= |sources|
    ensures forall s :: s in r <==> s in sources && s.enabled && (name.Some? && name.value != "" ==> s.name == name.value)
  {
    if sources == [] then []
    else
      var pre := Selected(sources[..|sources| - 1], name);
      var s := sources[|sources| - 1];
      assert sources == sources[..|sources| - 1] + [s];
      if s.enabled && (name.None? || name.value == "" || s.name == name.value) then pre + [s] else pre
  }

  /** `adapter.fetch()` for the source's adapter. */
  function FetchWith(kind: AdapterKind, source: Source, env: Env): Fetched {
    match kind
    case Rss => RssAdapter.Fetch(source, env.net(source.id), env.jitter(source.id))
    case Api => ApiAdapter.Fetch(source, env.net(source.id), env.parse, env.jitter(source.id))
    case Html => HtmlAdapter.Fetch(source, env.net(source.id), env.sha256, env.jitter(source.id))
  }

  /** `adapter.normalize(raw)` for the source's adapter. */
  function NormalizeWith(kind: AdapterKind, source: Source, raw: Value): NormalizedItem {
    match kind
    case Rss => RssAdapter.Normalize(raw)
    case Api => ApiAdapter.Normalize(source.config, raw)
    case Html => HtmlAdapter.Normalize(raw)
  }

  /** `generateHash(item.url, item.raw.title || '')`. */
  function ItemHash(sha256: string -> string, c: Candidate): string {
    GenerateHash(sha256, c.url, ToJsString(Or(Prop(c.raw, "title"), Str(""))))
  }

  /** `SELECT id FROM raw_items WHERE hash = $1` finds a row. */
  predicate Stored(rows: seq<RawItem>, h: string) {
    exists i :: 0 <= i < |rows| && rows[i].hash == h
  }

  /** `UPDATE raw_items SET normalized = true WHERE id = $1`. */
  function SetNormalized(rows: seq<RawItem>, id: int): seq<RawItem> {
    seq(|rows|, i requires 0 <= i < |rows| => if rows[i].id == id then rows[i].(normalized := true) else rows[i])
  }

  /** `UPDATE sources SET last_fetch_at = NOW() WHERE id = $1`. */
  function Touched(sources: seq<Source>, id: int, now: int): seq<Source> {
    seq(|sources|, i requires 0 <= i < |sources| =>
      if sources[i].id == id then sources[i].(lastFetchAt := Some(now)) else sources[i])
  }

  /**
   * The body of the inner loop for candidate `idx` of the source with id `sourceId`; `n` is
   * what the adapter's `normalize` makes of the candidate's record.
   */
  function ProcessItem(tb: Tables, sourceId: int, c: Candidate, idx: nat, n: NormalizedItem, env: Env): (o: ItemsOutcome)
    ensures o.added <= 1 && |o.tables.events| == |tb.events| + o.added
    ensures o.tables.sources == tb.sources
  {
    var h := ItemHash(env.sha256, c);
    if env.fails(sourceId, idx, Lookup) then ItemsOutcome(tb, 0, true)
    else if Stored(tb.rawItems, h) then ItemsOutcome(tb, 0, false)
    else if env.fails(sourceId, idx, Insert) then ItemsOutcome(tb, 0, true)
    else
      var id := |tb.rawItems| + 1;
      var inserted := tb.rawItems + [RawItem(id, sourceId, c.extId, c.url, c.raw, h, false)];
      if env.fails(sourceId, idx, Flag) then ItemsOutcome(tb.(rawItems := inserted), 0, true)
      else
        var flagged := SetNormalized(inserted, id);
        if env.fails(sourceId, idx, Publish) then ItemsOutcome(tb.(rawItems := flagged), 0, true)
        else ItemsOutcome(tb.(rawItems := flagged, events := tb.events + [ItemEvent(id, n.title, n.url)]), 1, false)
  }

  /** The inner loop over `items`, stopping at the first candidate that throws. */
  function ProcessItems(tb: Tables, source: Source, kind: AdapterKind, items: seq<Candidate>, env: Env): (o: ItemsOutcome)
    ensures o.added <= |items|
    ensures |o.tables.events| == |tb.events| + o.added
    ensures o.tables.sources == tb.sources
  {
    if items == [] then ItemsOutcome(tb, 0, false)
    else
      var pre := ProcessItems(tb, source, kind, items[..|items| - 1], env);
      if pre.failed then pre
      else
        var c := items[|items| - 1];
        var o := ProcessItem(pre.tables, source.id, c, |items| - 1, NormalizeWith(kind, source, c.raw), env);
        ItemsOutcome(o.tables, pre.added + o.added, o.failed)
  }

  /** One pass of the outer loop: `found` is the number fetched, `normalized` the number published. */
  function ProcessSource(tb: Tables, source: Source, env: Env): (t: Totals)
    ensures t.normalized <= t.found
    ensures |t.tables.events| == |tb.events| + t.normalized
  {
    match CreateAdapter(source)
    case Err(_) => Totals(tb, 0, 0)
    case Ok(kind) =>
      match FetchWith(kind, source, env).result
      case Err(_) => Totals(tb, 0, 0)
      case Ok(items) =>
        var o := ProcessItems(tb, source, kind, items, env);
        var tables := if o.failed then o.tables else o.tables.(sources := Touched(o.tables.sources, source.id, env.now));
        Totals(tables, |items|, o.added)
  }

  /** The outer loop over the selected sources. */
  function RunAll(tb: Tables, sources: seq<Source>, env: Env): (t: Totals)
    ensures t.normalized <= t.found
    ensures |t.tables.events| == |tb.events| + t.normalized
  {
    if sources == [] then Totals(tb, 0, 0)
    else
      var pre := RunAll(tb, sources[..|sources| - 1], env);
      var t := ProcessSource(pre.tables, sources[|sources| - 1], env);
      Totals(t.tables, pre.found + t.found, pre.normalized + t.normalized)
  }

  /** The specification of `Run`: at most one published event per fetched candidate. */
  function RunSpec(tb: Tables, name: Option<string>, env: Env): (r: RunOutcome)
    ensures r.response.itemsNormalized <= r.response.itemsFound
    ensures |r.tables.events| == |tb.events| + r.response.itemsNormalized
  {
    var sources := Selected(tb.sources, name);
    var t := RunAll(tb, sources, env);
    RunOutcome(t.tables, RunResponse(|sources|, t.found, t.normalized))
  }

  /** The database and the topic, with the statements the run issues. */
  class ScrapeStore {
    var sources: seq<Source>
    var rawItems: seq<RawItem>
    var events: seq<ItemEvent>

    constructor (sources: seq<Source>)
      ensures this.sources == sources && rawItems == [] && events == []
    {
      this.sources := sources;
      rawItems := [];
      events := [];
    }

    function State(): Tables
      reads this
    {
      Tables(sources, rawItems, events)
    }

    /** `INSERT INTO raw_items (...) VALUES (..., false) RETURNING id`, with ids handed out in order. */
    method InsertRawItem(sourceId: int, extId: string, url: string, raw: Value, hash: string) returns (id: int)
      modifies this
      ensures id == |old(rawItems)| + 1
      ensures rawItems == old(rawItems) + [RawItem(id, sourceId, extId, url, raw, hash, false)]
      ensures sources == old(sources) && events == old(events)
    {
      id := |rawItems| + 1;
      rawItems := rawItems + [RawItem(id, sourceId, extId, url, raw, hash, false)];
    }

    method FlagNormalized(id: int)
      modifies this
      ensures rawItems == SetNormalized(old(rawItems), id)
      ensures sources == old(sources) && events == old(events)
    {
      rawItems := SetNormalized(rawItems, id);
    }

    /** `ItemNormalized.publish(event)`. */
    method Publish(e: ItemEvent)
      modifies this
      ensures events == old(events) + [e]
      ensures sources == old(sources) && rawItems == old(rawItems)
    {
      events := events + [e];
    }

    method TouchSource(id: int, now: int)
      modifies this
      ensures sources == Touched(old(sources), id, now)
      ensures rawItems == old(rawItems) && events == old(events)
    {
      sources := Touched(sources, id, now);
    }
  }

  /** The body of the inner loop. */
  method HandleCandidate(db: ScrapeStore, source: Source, kind: AdapterKind, c: Candidate, idx: nat, env: Env)
    returns (added: nat, failed: bool)
    modifies db
    ensures ItemsOutcome(db.State(), added, failed) == ProcessItem(old(db.State()), source.id, c, idx, NormalizeWith(kind, source, c.raw), env)
  {
    added, failed := 0, false;
    var hash := ItemHash(env.sha256, c);
    if env.fails(source.id, idx, Lookup) {
      failed := true;
      return;
    }
    if Stored(db.rawItems, hash) {
      return;
    }
    if env.fails(source.id, idx, Insert) {
      failed := true;
      return;
    }
    var rawItemId := db.InsertRawItem(source.id, c.extId, c.url, c.raw, hash);
    var normalized := NormalizeWith(kind, source, c.raw);
    if env.fails(source.id, idx, Flag) {
      failed := true;
      return;
    }
    db.FlagNormalized(rawItemId);
    if env.fails(source.id, idx, Publish) {
      failed := true;
      return;
    }
    db.Publish(ItemEvent(rawItemId, normalized.title, normalized.url));
    added := 1;
  }

  /** Once a candidate has thrown, the later ones change nothing. */
  lemma {:induction false} FailureStops(tb: Tables, source: Source, kind: AdapterKind, items: seq<Candidate>, j: nat, env: Env)
    requires j <= |items| && ProcessItems(tb, source, kind, items[..j], env).failed
    ensures ProcessItems(tb, source, kind, items, env) == ProcessItems(tb, source, kind, items[..j], env)
    decreases |items| - j
  {
    if j < |items| {
      assert items[..j + 1][..j] == items[..j];
      FailureStops(tb, source, kind, items, j + 1, env);
    } else {
      assert items[..j] == items;
    }
  }

  /** One more candidate, handled after the ones before it. */
  lemma ItemsStep(tb: Tables, source: Source, kind: AdapterKind, items: seq<Candidate>, j: nat, env: Env)
    requires j < |items|
    ensures var pre := ProcessItems(tb, source, kind, items[..j], env);
      !pre.failed ==>
        var o := ProcessItem(pre.tables, source.id, items[j], j, NormalizeWith(kind, source, items[j].raw), env);
        ProcessItems(tb, source, kind, items[..j + 1], env) == ItemsOutcome(o.tables, pre.added + o.added, o.failed)
  {
    assert items[..j + 1][..j] == items[..j];
  }

  /** The inner loop: `for (const item of items)`, left early when something throws. */
  method HandleCandidates(db: ScrapeStore, source: Source, kind: AdapterKind, items: seq<Candidate>, env: Env)
    returns (added: nat, failed: bool)
    modifies db
    ensures ItemsOutcome(db.State(), added, failed) == ProcessItems(old(db.State()), source, kind, items, env)
  {
    ghost var t0 := db.State();
    added, failed := 0, false;
    var j := 0;
    while j < |items| && !failed
      invariant j <= |items|
      invariant ProcessItems(t0, source, kind, items[..j], env) == ItemsOutcome(db.State(), added, failed)
    {
      ItemsStep(t0, source, kind, items, j, env);
      var a, f := HandleCandidate(db, source, kind, items[j], j, env);
      added, failed := added + a, f;
      j := j + 1;
    }
    if failed {
      FailureStops(t0, source, kind, items, j, env);
    } else {
      assert items[..j] == items;
    }
  }

  /** One more source, handled after the ones before it. */
  lemma SourcesStep(tb: Tables, sources: seq<Source>, i: nat, env: Env)
    requires i < |sources|
    ensures var pre := RunAll(tb, sources[..i], env);
      var t := ProcessSource(pre.tables, sources[i], env);
      RunAll(tb, sources[..i + 1], env) == Totals(t.tables, pre.found + t.found, pre.normalized + t.normalized)
  {
    assert sources[..i + 1][..i] == sources[..i];
  }

  /** `run(req)`. */
  method Run(db: ScrapeStore, name: Option<string>, env: Env) returns (resp: RunResponse)
    modifies db
    ensures RunOutcome(db.State(), resp) == RunSpec(old(db.State()), name, env)
  {
    ghost var t0 := db.State();
    var sources := Selected(db.sources, name);
    var totalItemsFound: nat := 0;
    var totalItemsNormalized: nat := 0;
    for i := 0 to |sources|
      invariant RunAll(t0, sources[..i], env) == Totals(db.State(), totalItemsFound, totalItemsNormalized)
    {
      SourcesStep(t0, sources, i, env);
      var source := sources[i];
      var adapter := CreateAdapter(source);
      if adapter.Ok? {
        var fetched := FetchWith(adapter.value, source, env);
        if fetched.result.Ok? {
          var items := fetched.result.value;
          totalItemsFound := totalItemsFound + |items|;
          var added, failed := HandleCandidates(db, source, adapter.value, items, env);
          totalItemsNormalized := totalItemsNormalized + added;
          if !failed {
            db.TouchSource(source.id, env.now);
          }
        }
      }
    }
    assert sources[..|sources|] == sources;
    resp := RunResponse(|sources|, totalItemsFound, totalItemsNormalized);
  }

  /** Row `i` of `raw_items` has id `i + 1`: the serial column hands ids out in insertion order. */
  predicate IdsSequential(rows: seq<RawItem>) {
    forall i :: 0 <= i < |rows| ==> rows[i].id == i + 1
  }

  predicate UniqueHashes(rows: seq<RawItem>) {
    forall i, j :: 0 <= i < j < |rows| ==> rows[i].hash != rows[j].hash
  }

  /** Every published event names a stored row that is flagged normalised. */
  predicate Announced(tb: Tables)
    requires IdsSequential(tb.rawItems)
  {
    forall k :: 0 <= k < |tb.events| ==>
      1 <= tb.events[k].itemId <= |tb.rawItems| && tb.rawItems[tb.events[k].itemId - 1].normalized
  }

  /** Events were published in the order their rows were inserted. */
  predicate InInsertOrder(events: seq<ItemEvent>) {
    forall k, l :: 0 <= k < l < |events| ==> events[k].itemId < events[l].itemId
  }

  /** The invariant of the store the run maintains. */
  predicate Consistent(tb: Tables) {
    IdsSequential(tb.rawItems) && UniqueHashes(tb.rawItems) && Announced(tb) && InInsertOrder(tb.events)
  }

  /** `b` differs from `a` at most in `last_fetch_at` values set to `now`: no other column is written. */
  predicate OnlyStamped(a: seq<Source>, b: seq<Source>, now: int) {
    |a| == |b| &&
    forall i :: 0 <= i < |a| ==>
      b[i] == a[i].(lastFetchAt := b[i].lastFetchAt) && (b[i].lastFetchAt == a[i].lastFetchAt || b[i].lastFetchAt == Some(now))
  }

  /** With sequential ids, flagging the row just inserted changes that row only. */
  lemma FlagOnlyNew(rows: seq<RawItem>, row: RawItem)
    requires IdsSequential(rows) && row.id == |rows| + 1
    ensures SetNormalized(rows + [row], row.id) == rows + [row.(normalized := true)]
  {
    var r := SetNormalized(rows + [row], row.id);
    forall i | 0 <= i < |rows|
      ensures r[i] == rows[i]
    {
      assert (rows + [row])[i] == rows[i];
    }
  }

  /** A candidate whose hash is stored already is skipped: nothing is inserted and nothing published. */
  lemma DuplicateSkipped(tb: Tables, sourceId: int, c: Candidate, idx: nat, n: NormalizedItem, env: Env)
    requires !env.fails(sourceId, idx, Lookup) && Stored(tb.rawItems, ItemHash(env.sha256, c))
    ensures ProcessItem(tb, sourceId, c, idx, n, env) == ItemsOutcome(tb, 0, false)
  {
  }

  /**
   * A new candidate handled without a fault is stored as the next row, flagged, and
   * announced with that row's id and the normalised title and url.
   */
  lemma NewItemPublished(tb: Tables, sourceId: int, c: Candidate, idx: nat, n: NormalizedItem, env: Env)
    requires IdsSequential(tb.rawItems)
    requires forall s :: !env.fails(sourceId, idx, s)
    requires !Stored(tb.rawItems, ItemHash(env.sha256, c))
    ensures var o := ProcessItem(tb, sourceId, c, idx, n, env);
      var id := |tb.rawItems| + 1;
      && o.added == 1 && !o.failed
      && o.tables.rawItems == tb.rawItems + [RawItem(id, sourceId, c.extId, c.url, c.raw, ItemHash(env.sha256, c), true)]
      && o.tables.events == tb.events + [ItemEvent(id, n.title, n.url)]
      && o.tables.sources == tb.sources
  {
    FlagOnlyNew(tb.rawItems, RawItem(|tb.rawItems| + 1, sourceId, c.extId, c.url, c.raw, ItemHash(env.sha256, c), false));
  }

  /** A failure of the flagging statement leaves the inserted row unflagged and publishes nothing. */
  lemma FlagFailureLeavesRowUnflagged(tb: Tables, sourceId: int, c: Candidate, idx: nat, n: NormalizedItem, env: Env)
    requires !env.fails(sourceId, idx, Lookup) && !env.fails(sourceId, idx, Insert) && env.fails(sourceId, idx, Flag)
    requires !Stored(tb.rawItems, ItemHash(env.sha256, c))
    ensures var o := ProcessItem(tb, sourceId, c, idx, n, env);
      && o.failed && o.added == 0
      && o.tables.rawItems == tb.rawItems + [RawItem(|tb.rawItems| + 1, sourceId, c.extId, c.url, c.raw, ItemHash(env.sha256, c), false)]
      && o.tables.events == tb.events
  {
  }

  /** Appending a row with the next id and a hash not stored yet keeps the store consistent. */
  lemma AppendRowConsistent(tb: Tables, row: RawItem)
    requires Consistent(tb) && row.id == |tb.rawItems| + 1 && !Stored(tb.rawItems, row.hash)
    ensures Consistent(tb.(rawItems := tb.rawItems + [row]))
  {
    var rows := tb.rawItems + [row];
    assert forall i :: 0 <= i < |tb.rawItems| ==> rows[i] == tb.rawItems[i];
  }

  /** Announcing the last row, once it is flagged, keeps the store consistent. */
  lemma AppendEventConsistent(tb: Tables, e: ItemEvent)
    requires Consistent(tb) && |tb.rawItems| >= 1 && e.itemId == |tb.rawItems|
    requires tb.rawItems[|tb.rawItems| - 1].normalized
    requires forall k :: 0 <= k < |tb.events| ==> tb.events[k].itemId < e.itemId
    ensures Consistent(tb.(events := tb.events + [e]))
  {
  }

  /** Handling one candidate keeps the store consistent, keeps every stored row and event, and leaves `sources` alone. */
  lemma ItemPreserves(tb: Tables, sourceId: int, c: Candidate, idx: nat, n: NormalizedItem, env: Env)
    requires Consistent(tb)
    ensures var o := ProcessItem(tb, sourceId, c, idx, n, env);
      && Consistent(o.tables)
      && tb.rawItems <= o.tables.rawItems && tb.events <= o.tables.events
      && o.tables.sources == tb.sources
  {
    var h := ItemHash(env.sha256, c);
    if !env.fails(sourceId, idx, Lookup) && !Stored(tb.rawItems, h) && !env.fails(sourceId, idx, Insert) {
      var o := ProcessItem(tb, sourceId, c, idx, n, env);
      var row := RawItem(|tb.rawItems| + 1, sourceId, c.extId, c.url, c.raw, h, false);
      var flagged := row.(normalized := true);
      FlagOnlyNew(tb.rawItems, row);
      if env.fails(sourceId, idx, Flag) {
        AppendRowConsistent(tb, row);
        assert o.tables == tb.(rawItems := tb.rawItems + [row]);
      } else {
        AppendRowConsistent(tb, flagged);
        var t1 := tb.(rawItems := tb.rawItems + [flagged]);
        if env.fails(sourceId, idx, Publish) {
          assert o.tables == t1;
        } else {
              var e := ItemEvent(row.id, n.title, n.url);
          AppendEventConsistent(t1, e);
          assert o.tables == t1.(events := t1.events + [e]);
        }
      }
    }
  }

  lemma {:induction false} ItemsPreserve(tb: Tables, source: Source, kind: AdapterKind, items: seq<Candidate>, env: Env)
    requires Consistent(tb)
    ensures var o := ProcessItems(tb, source, kind, items, env);
      && Consistent(o.tables)
      && tb.rawItems <= o.tables.rawItems && tb.events <= o.tables.events
      && o.tables.sources == tb.sources
  {
    if items != [] {
      var pre := ProcessItems(tb, source, kind, items[..|items| - 1], env);
      ItemsPreserve(tb, source, kind, items[..|items| - 1], env);
      if !pre.failed {
        var c := items[|items| - 1];
        ItemPreserves(pre.tables, source.id, c, |items| - 1, NormalizeWith(kind, source, c.raw), env);
      }
    }
  }

  /** Handling a source keeps the store consistent and writes no `sources` column except `last_fetch_at`. */
  lemma SourcePreserves(tb: Tables, source: Source, env: Env)
    requires Consistent(tb)
    ensures var t := ProcessSource(tb, source, env);
      && Consistent(t.tables)
      && tb.rawItems <= t.tables.rawItems && tb.events <= t.tables.events
      && OnlyStamped(tb.sources, t.tables.sources, env.now)
  {
    StampedSelf(tb.sources, env.now);
    match CreateAdapter(source)
    case Err(_) =>
    case Ok(kind) =>
      match FetchWith(kind, source, env).result
      case Err(_) =>
      case Ok(items) =>
        ItemsPreserve(tb, source, kind, items, env);
        var o := ProcessItems(tb, source, kind, items, env);
        if !o.failed {
          TouchPreserves(o.tables, source.id, env.now);
        }
  }

  lemma StampedSelf(a: seq<Source>, now: int)
    ensures OnlyStamped(a, a, now)
  {
  }

  /** Stamping a source's `last_fetch_at` writes nothing else. */
  lemma TouchPreserves(t: Tables, id: int, now: int)
    requires Consistent(t)
    ensures var u := t.(sources := Touched(t.sources, id, now));
      && Consistent(u) && u.rawItems == t.rawItems && u.events == t.events
      && OnlyStamped(t.sources, u.sources, now)
  {
    var u := t.(sources := Touched(t.sources, id, now));
    assert u.rawItems == t.rawItems && u.events == t.events;
  }

  lemma {:induction false} RunAllPreserves(tb: Tables, sources: seq<Source>, env: Env)
    requires Consistent(tb)
    ensures var t := RunAll(tb, sources, env);
      && Consistent(t.tables)
      && tb.rawItems <= t.tables.rawItems && tb.events <= t.tables.events
      && OnlyStamped(tb.sources, t.tables.sources, env.now)
  {
    if sources != [] {
      var pre := RunAll(tb, sources[..|sources| - 1], env);
      RunAllPreserves(tb, sources[..|sources| - 1], env);
      SourcePreserves(pre.tables, sources[|sources| - 1], env);
    }
  }

  /**
   * A run on a consistent store leaves it consistent (in particular no two rows share a
   * hash), keeps every row and event it found, and changes no column of `sources` other
   * than `last_fetch_at`: `etag` and `last_modified` are never written back.
   */
  lemma RunPreserves(tb: Tables, name: Option<string>, env: Env)
    requires Consistent(tb)
    ensures var r := RunSpec(tb, name, env);
      && Consistent(r.tables)
      && tb.rawItems <= r.tables.rawItems && tb.events <= r.tables.events
      && OnlyStamped(tb.sources, r.tables.sources, env.now)
      && r.response.sourcesProcessed == |Selected(tb.sources, name)|
  {
    RunAllPreserves(tb, Selected(tb.sources, name), env);
  }

  /** A stored hash stays stored. */
  lemma ItemKeepsHashes(tb: Tables, sourceId: int, c: Candidate, idx: nat, n: NormalizedItem, env: Env, h: string)
    requires Stored(tb.rawItems, h)
    ensures Stored(ProcessItem(tb, sourceId, c, idx, n, env).tables.rawItems, h)
  {
    var i :| 0 <= i < |tb.rawItems| && tb.rawItems[i].hash == h;
    var hc := ItemHash(env.sha256, c);
    if !env.fails(sourceId, idx, Lookup) && !Stored(tb.rawItems, hc) && !env.fails(sourceId, idx, Insert) {
      var id := |tb.rawItems| + 1;
      var inserted := tb.rawItems + [RawItem(id, sourceId, c.extId, c.url, c.raw, hc, false)];
      assert inserted[i].hash == h;
      assert SetNormalized(inserted, id)[i].hash == h;
    }
  }

  lemma {:induction false} ItemsKeepHashes(tb: Tables, source: Source, kind: AdapterKind, items: seq<Candidate>, env: Env, h: string)
    requires Stored(tb.rawItems, h)
    ensures Stored(ProcessItems(tb, source, kind, items, env).tables.rawItems, h)
  {
    if items != [] {
      var pre := ProcessItems(tb, source, kind, items[..|items| - 1], env);
      ItemsKeepHashes(tb, source, kind, items[..|items| - 1], env, h);
      if !pre.failed {
        var c := items[|items| - 1];
        ItemKeepsHashes(pre.tables, source.id, c, |items| - 1, NormalizeWith(kind, source, c.raw), env, h);
      }
    }
  }

  /** Without faults, every candidate's hash is stored once its source has been handled. */
  lemma {:induction false} AllStored(tb: Tables, source: Source, kind: AdapterKind, items: seq<Candidate>, env: Env)
    requires forall k, s :: !env.fails(source.id, k, s)
    ensures var o := ProcessItems(tb, source, kind, items, env);
      !o.failed && forall k :: 0 <= k < |items| ==> Stored(o.tables.rawItems, ItemHash(env.sha256, items[k]))
  {
    if items != [] {
      var front := items[..|items| - 1];
      var c := items[|items| - 1];
      var pre := ProcessItems(tb, source, kind, front, env);
      AllStored(tb, source, kind, front, env);
      var n := NormalizeWith(kind, source, c.raw);
      var o := ProcessItem(pre.tables, source.id, c, |items| - 1, n, env);
      forall k | 0 <= k < |items| - 1
        ensures Stored(o.tables.rawItems, ItemHash(env.sha256, items[k]))
      {
        assert items[k] == front[k];
        ItemKeepsHashes(pre.tables, source.id, c, |items| - 1, n, env, ItemHash(env.sha256, items[k]));
      }
      var h := ItemHash(env.sha256, c);
      if !Stored(pre.tables.rawItems, h) {
        var rows := o.tables.rawItems;
        assert rows[|pre.tables.rawItems|].hash == h;
      }
    }
  }

  /** Candidates whose hashes are all stored change nothing when no lookup fails. */
  lemma {:induction false} AllSkipped(tb: Tables, source: Source, kind: AdapterKind, items: seq<Candidate>, env: Env)
    requires forall k :: !env.fails(source.id, k, Lookup)
    requires forall k :: 0 <= k < |items| ==> Stored(tb.rawItems, ItemHash(env.sha256, items[k]))
    ensures ProcessItems(tb, source, kind, items, env) == ItemsOutcome(tb, 0, false)
  {
    if items != [] {
      AllSkipped(tb, source, kind, items[..|items| - 1], env);
    }
  }

  /**
   * Handling the same fetched candidates a second time, without faults, inserts nothing and
   * publishes nothing.
   */
  lemma ReprocessingAddsNothing(tb: Tables, source: Source, kind: AdapterKind, items: seq<Candidate>, env: Env)
    requires forall k, s :: !env.fails(source.id, k, s)
    ensures var first := ProcessItems(tb, source, kind, items, env);
      ProcessItems(first.tables, source, kind, items, env) == ItemsOutcome(first.tables, 0, false)
  {
    AllStored(tb, source, kind, items, env);
    AllSkipped(ProcessItems(tb, source, kind, items, env).tables, source, kind, items, env);
  }

  /** Re-running a source on identical data, without faults, adds no row and no event. */
  lemma SourceRerunAddsNothing(tb: Tables, source: Source, env: Env)
    requires forall k, s :: !env.fails(source.id, k, s)
    ensures var first := ProcessSource(tb, source, env);
      var second := ProcessSource(first.tables, source, env);
      && second.normalized == 0
      && second.tables.rawItems == first.tables.rawItems
      && second.tables.events == first.tables.events
  {
    match CreateAdapter(source)
    case Err(_) =>
    case Ok(kind) =>
      match FetchWith(kind, source, env).result
      case Err(_) =>
      case Ok(items) =>
        var first := ProcessItems(tb, source, kind, items, env);
        ReprocessingAddsNothing(tb, source, kind, items, env);
        var t1 := ProcessSource(tb, source, env).tables;
        assert t1.rawItems == first.tables.rawItems && t1.events == first.tables.events;
        AllStored(tb, source, kind, items, env);
        AllSkipped(t1, source, kind, items, env);
  }

  /** Whether a source's candidates were all handled: only then is its `last_fetch_at` written. */
  predicate Completed(tb: Tables, source: Source, env: Env) {
    && CreateAdapter(source).Ok?
    && FetchWith(CreateAdapter(source).value, source, env).result.Ok?
    && !ProcessItems(tb, source, CreateAdapter(source).value, FetchWith(CreateAdapter(source).value, source, env).result.value, env).failed
  }

  /**
   * `last_fetch_at` is stamped, on the rows with the source's id, exactly when the source
   * completed; a source that threw (unknown type, failed fetch, failed statement) leaves
   * `sources` as it was.
   */
  lemma StampedOnCompletion(tb: Tables, source: Source, env: Env)
    ensures var t := ProcessSource(tb, source, env);
      && |t.tables.sources| == |tb.sources|
      && (!Completed(tb, source, env) ==> t.tables.sources == tb.sources)
      && (Completed(tb, source, env) ==>
            forall i :: 0 <= i < |tb.sources| ==>
              t.tables.sources[i].lastFetchAt == (if tb.sources[i].id == source.id then Some(env.now) else tb.sources[i].lastFetchAt))
  {
    match CreateAdapter(source)
    case Err(_) =>
    case Ok(kind) =>
      match FetchWith(kind, source, env).result
      case Err(_) =>
      case Ok(items) =>
  }

  lemma RunAllSnoc(tb: Tables, sources: seq<Source>, s: Source, env: Env)
    ensures var pre := RunAll(tb, sources, env);
      var t := ProcessSource(pre.tables, s, env);
      RunAll(tb, sources + [s], env) == Totals(t.tables, pre.found + t.found, pre.normalized + t.normalized)
  {
    assert (sources + [s])[..|sources|] == sources;
  }

  lemma SnocCongruent(tb: Tables, xs: seq<Source>, ys: seq<Source>, x: Source, env: Env)
    requires RunAll(tb, xs, env) == RunAll(tb, ys, env)
    ensures RunAll(tb, xs + [x], env) == RunAll(tb, ys + [x], env)
  {
    RunAllSnoc(tb, xs, x, env);
    RunAllSnoc(tb, ys, x, env);
  }

  lemma UnknownTypeNoOp(tb: Tables, before: seq<Source>, s: Source, env: Env)
    requires CreateAdapter(s).Err?
    ensures RunAll(tb, before + [s], env) == RunAll(tb, before, env)
  {
    RunAllSnoc(tb, before, s, env);
  }

  /**
   * A source of unknown type changes nothing and counts nothing, so removing it from the
   * selection leaves the result of the sources after it unchanged.
   */
  lemma {:induction false} UnknownTypeIsolated(tb: Tables, before: seq<Source>, s: Source, after: seq<Source>, env: Env)
    requires CreateAdapter(s).Err?
    ensures RunAll(tb, before + [s] + after, env) == RunAll(tb, before + after, env)
  {
    if after == [] {
      UnknownTypeNoOp(tb, before, s, env);
      assert before + [s] + after == before + [s];
      assert before + after == before;
    } else {
      var front := after[..|after| - 1];
      var x := after[|after| - 1];
      assert after == front + [x];
      UnknownTypeIsolated(tb, before, s, front, env);
      SnocCongruent(tb, before + [s] + front, before + front, x, env);
      Regroup(before, s, front, x);
    }
  }

  lemma Regroup(before: seq<Source>, s: Source, front: seq<Source>, x: Source)
    ensures before + [s] + (front + [x]) == (before + [s] + front) + [x]
    ensures before + (front + [x]) == (before + front) + [x]
  {
  }
}
