/**
 * `POST /enrichment/run`: with an item id, queue a job for that item unless one is already
 * queued or running; without one, queue a job for each of up to 100 normalized raw items
 * that have no done or running job.
 */
module EnrichRun {
  import opened Wrappers
  import opened EnrichPipeline
  import ScrapeRun

  const BulkLimit: nat := 100

  /** `RunRequest`; `itemId` is optional and a `0` id counts as absent (`if (req.itemId)`). */
  datatype RunRequest = RunRequest(itemId: Option<int>)

  datatype RunResponse = RunResponse(message: string, itemsQueued: nat)

  const SingleMessage := "Item queued for enrichment"
  const BulkMessage := "Items queued for enrichment"

  predicate SingleItem(req: RunRequest) {
    req.itemId.Some? && req.itemId.value != 0
  }

  /** `SELECT id FROM enrich_jobs WHERE item_id = $1 AND status IN ('queued', 'running')` returns a row. */
  predicate HasOpenJob(jobs: seq<Job>, itemId: int) {
    exists i :: 0 <= i < |jobs| && jobs[i].itemId == itemId && (jobs[i].status == Queued || jobs[i].status == Running)
  }

  /** The item has a job that is done or running, which keeps it out of a bulk run. */
  predicate Claimed(jobs: seq<Job>, itemId: int) {
    exists i :: 0 <= i < |jobs| && jobs[i].itemId == itemId && (jobs[i].status == Done || jobs[i].status == Running)
  }

  function QueuedJob(itemId: int): Job {
    Job(itemId, Queued, 0, None, None)
  }

  /** The normalized raw items without a done or running job, in table order. */
  function Eligible(rows: seq<ScrapeRun.RawItem>, jobs: seq<Job>): (r: seq<ScrapeRun.RawItem>)
    ensures |r| <= |rows|
    ensures forall x :: x in r <==> x in rows && x.normalized && !Claimed(jobs, x.id)
  {
    if rows == [] then []
    else
      (if rows[0].normalized && !Claimed(jobs, rows[0].id) then [rows[0]] else [])
      + Eligible(rows[1..], jobs)
  }

  /** The bulk query with its `LIMIT 100`. */
  function Selected(rows: seq<ScrapeRun.RawItem>, jobs: seq<Job>): (r: seq<ScrapeRun.RawItem>)
    ensures |r| <= BulkLimit
  {
    var e := Eligible(rows, jobs);
    if |e| <= BulkLimit then e else e[..BulkLimit]
  }

  /** One queued job per selected item, in order. */
  function QueuedJobs(items: seq<ScrapeRun.RawItem>): (r: seq<Job>)
    ensures |r| == |items|
    ensures forall i :: 0 <= i < |items| ==> r[i] == QueuedJob(items[i].id)
  {
    seq(|items|, i requires 0 <= i < |items| => QueuedJob(items[i].id))
  }

  datatype Outcome = Outcome(tables: Tables, response: RunResponse)

  /** The specification of `Run`. */
  function RunSpec(tb: Tables, req: RunRequest): (r: Outcome)
    ensures r.tables.rawItems == tb.rawItems && r.tables.ideas == tb.ideas
  {
    if SingleItem(req) then
      var id := req.itemId.value;
      var jobs := if HasOpenJob(tb.jobs, id) then tb.jobs else tb.jobs + [QueuedJob(id)];
      Outcome(tb.(jobs := jobs), RunResponse(SingleMessage, 1))
    else
      var items := Selected(tb.rawItems, tb.jobs);
      Outcome(tb.(jobs := tb.jobs + QueuedJobs(items)), RunResponse(BulkMessage, |items|))
  }

  /** `run(req)`. */
  method Run(db: EnrichStore, req: RunRequest) returns (resp: RunResponse)
    modifies db
    ensures Outcome(db.State(), resp) == RunSpec(old(db.State()), req)
  {
    if SingleItem(req) {
      var itemId := req.itemId.value;
      if !HasOpenJob(db.jobs, itemId) {
        db.AddJob(QueuedJob(itemId));
      }
      return RunResponse(SingleMessage, 1);
    }
    var items := Selected(db.rawItems, db.jobs);
    ghost var jobs0 := db.jobs;
    for i := 0 to |items|
      invariant db.jobs == jobs0 + QueuedJobs(items[..i])
      invariant db.rawItems == old(db.rawItems) && db.ideas == old(db.ideas)
    {
      assert QueuedJobs(items[..i + 1]) == QueuedJobs(items[..i]) + [QueuedJob(items[i].id)];
      db.AddJob(QueuedJob(items[i].id));
    }
    assert items[..|items|] == items;
    resp := RunResponse(BulkMessage, |items|);
  }

  /**
   * A single-item run inserts a queued job exactly when the item has no queued or running
   * job, and reports one queued item either way.
   */
  lemma SingleQueuesOnlyWithoutOpenJob(tb: Tables, req: RunRequest)
    requires SingleItem(req)
    ensures var r := RunSpec(tb, req);
      && r.response.itemsQueued == 1
      && r.tables.jobs[..|tb.jobs|] == tb.jobs
      && (|r.tables.jobs| == |tb.jobs| + 1 <==> !HasOpenJob(tb.jobs, req.itemId.value))
      && (|r.tables.jobs| == |tb.jobs| + 1 ==> r.tables.jobs[|tb.jobs|] == QueuedJob(req.itemId.value))
      && (|r.tables.jobs| != |tb.jobs| + 1 ==> r.tables.jobs == tb.jobs)
  {
  }

  /** Asking twice for the same item queues it once. */
  lemma SingleIsIdempotent(tb: Tables, req: RunRequest)
    requires SingleItem(req)
    ensures RunSpec(RunSpec(tb, req).tables, req).tables == RunSpec(tb, req).tables
  {
    var id := req.itemId.value;
    var t1 := RunSpec(tb, req).tables;
    if !HasOpenJob(tb.jobs, id) {
      assert t1.jobs[|tb.jobs|] == QueuedJob(id);
    }
    assert HasOpenJob(t1.jobs, id);
  }

  /**
   * A bulk run queues the first hundred eligible items, each normalized and without a done
   * or running job, appends one queued job for each, and reports how many.
   */
  lemma BulkQueuesEligible(tb: Tables, req: RunRequest)
    requires !SingleItem(req)
    ensures var r := RunSpec(tb, req);
      var items := Selected(tb.rawItems, tb.jobs);
      var e := Eligible(tb.rawItems, tb.jobs);
      && r.response.itemsQueued == |items| <= BulkLimit
      && items == e[..|items|]
      && (|e| <= BulkLimit ==> items == e)
      && (forall x :: x in items ==> x in tb.rawItems && x.normalized && !Claimed(tb.jobs, x.id))
      && r.tables.jobs == tb.jobs + QueuedJobs(items)
  {
    var items := Selected(tb.rawItems, tb.jobs);
    var e := Eligible(tb.rawItems, tb.jobs);
    forall x | x in items
      ensures x in e
    {
      if |e| > BulkLimit {
        var k :| 0 <= k < |items| && items[k] == x;
        assert e[k] == x;
      }
    }
  }

  lemma {:induction false} QueuedJobsClaimNothing(jobs: seq<Job>, items: seq<ScrapeRun.RawItem>, id: int)
    ensures Claimed(jobs + QueuedJobs(items), id) <==> Claimed(jobs, id)
  {
    var all := jobs + QueuedJobs(items);
    if Claimed(all, id) {
      var i :| 0 <= i < |all| && all[i].itemId == id && (all[i].status == Done || all[i].status == Running);
      assert i < |jobs|;
      assert jobs[i] == all[i];
    }
    if Claimed(jobs, id) {
      var i :| 0 <= i < |jobs| && jobs[i].itemId == id && (jobs[i].status == Done || jobs[i].status == Running);
      assert all[i] == jobs[i];
    }
  }

  lemma {:induction false} EligibleUnderQueued(rows: seq<ScrapeRun.RawItem>, jobs: seq<Job>, items: seq<ScrapeRun.RawItem>)
    ensures Eligible(rows, jobs + QueuedJobs(items)) == Eligible(rows, jobs)
  {
    if rows != [] {
      QueuedJobsClaimNothing(jobs, items, rows[0].id);
      EligibleUnderQueued(rows[1..], jobs, items);
    }
  }

  /**
   * Bulk selection ignores queued jobs, so a second bulk run selects the same items again
   * and queues another job for each.
   */
  lemma BulkRequeues(tb: Tables, req: RunRequest)
    requires !SingleItem(req)
    ensures var t1 := RunSpec(tb, req).tables;
      var items := Selected(tb.rawItems, tb.jobs);
      && Selected(t1.rawItems, t1.jobs) == items
      && RunSpec(t1, req).tables.jobs == tb.jobs + QueuedJobs(items) + QueuedJobs(items)
  {
    var items := Selected(tb.rawItems, tb.jobs);
    EligibleUnderQueued(tb.rawItems, tb.jobs, items);
  }
}
