/**
 * Committing a bulk import: the uploaded text is split into lines, each non-blank line is
 * decoded (CSV without quoting, or one JSON document per line) and inserted as a pending
 * idea unless the owner already has an idea with the same title hash. `JSON.parse` is the
 * parameter `parse` (its `Err` is the `SyntaxError` message), SHA-256 is `sha256`, and an
 * insert that the database rejects is `insertFails(i)` for line `i`.
 */
module BulkImport {
  import opened Wrappers
  import opened Text
  import JsValue
  import EnrichPipeline

  /** A row of `imports`; `format` is the column's text, and anything but "jsonl" is read as CSV. */
  datatype ImportRow = ImportRow(
    userId: int, format: string, status: string,
    totalRows: int, processedRows: int, successCount: int, errorCount: int, errors: seq<string>)

  /** A row of `ideas` written by an import. */
  datatype Idea = Idea(ownerId: int, title: string, description: JsValue.Value, sourceUrl: JsValue.Value, titleHash: string, status: string)

  datatype CommitResponse = CommitResponse(success: bool, totalRows: nat, successCount: nat, errorCount: nat, errors: seq<string>)

  /** What one line comes to: skipped, decoded into the fields of an idea, or the message it threw. */
  datatype LineOutcome = Blank | Decoded(title: string, description: JsValue.Value, url: JsValue.Value) | Rejected(message: string)

  const TitleRequired := "Title is required"
  const NotAFunction := "title.toLowerCase is not a function"

  /** `data.trim().split('\n')`. */
  function Lines(data: string): (r: seq<string>)
    ensures |r| >= 1
  {
    SplitOn(Trim(data), '\n')
  }

  /** `parts[k]?.trim()`. */
  function Column(parts: seq<string>, k: nat): (r: JsValue.Value)
    ensures k < |parts| ==> r == JsValue.Str(Trim(parts[k]))
    ensures k >= |parts| ==> r == JsValue.Undefined
  {
    if k < |parts| then JsValue.Str(Trim(parts[k])) else JsValue.Undefined
  }

  /** A CSV line: the first three comma-separated parts, trimmed; the title must be non-empty. */
  function DecodeCsv(line: string): (r: LineOutcome)
    ensures r.Decoded? || r == Rejected(TitleRequired)
    ensures r.Decoded? <==> Trim(SplitOn(line, ',')[0]) != ""
  {
    var parts := SplitOn(line, ',');
    var title := Trim(parts[0]);
    if title == "" then Rejected(TitleRequired)
    else Decoded(title, Column(parts, 1), Column(parts, 2))
  }

  /**
   * A JSON line: reading `title` off `null` throws, a falsy title is required, and a truthy
   * title that is not a string makes `hashTitle` throw.
   */
  function DecodeJson(line: string, parse: string -> Result<JsValue.Value>): (r: LineOutcome)
    ensures parse(line).Err? ==> r == Rejected(parse(line).error)
    ensures r.Decoded? <==>
      && parse(line).Ok? && parse(line).value != JsValue.Null && parse(line).value != JsValue.Undefined
      && JsValue.Prop(parse(line).value, "title").Str? && JsValue.Prop(parse(line).value, "title").s != ""
    ensures r.Decoded? ==>
      && r.title == JsValue.Prop(parse(line).value, "title").s
      && r.description == JsValue.Prop(parse(line).value, "description") && r.url == JsValue.Prop(parse(line).value, "url")
    ensures !r.Blank?
  {
    match parse(line)
    case Err(m) => Rejected(m)
    case Ok(data) =>
      match JsValue.Member(data, "title")
      case Err(m) => Rejected(m)
      case Ok(title) =>
        if !JsValue.Truthy(title) then Rejected(TitleRequired)
        else if !title.Str? then Rejected(NotAFunction)
        else Decoded(title.s, JsValue.Prop(data, "description"), JsValue.Prop(data, "url"))
  }

  /** One line of the loop, before the insert: trimmed, skipped when empty, else decoded by the import's format. */
  function Decode(raw: string, format: string, parse: string -> Result<JsValue.Value>): (r: LineOutcome)
    ensures r.Blank? <==> Trim(raw) == ""
  {
    var line := Trim(raw);
    if line == "" then Blank
    else if format == "jsonl" then DecodeJson(line, parse)
    else DecodeCsv(line)
  }

  /** How lines are read: the import's format, `JSON.parse`, and which inserts the database rejects. */
  datatype Reader = Reader(format: string, parse: string -> Result<JsValue.Value>, insertFails: nat -> Option<string>)

  /** Line `i`'s outcome once the insert has run: an insert that throws rejects the line too. */
  function Outcome(raw: string, i: nat, rd: Reader): (r: LineOutcome)
  {
    var d := Decode(raw, rd.format, rd.parse);
    if d.Decoded? && rd.insertFails(i).Some? then Rejected(rd.insertFails(i).value) else d
  }

  /** The outcomes of the first `n` lines, in order. */
  function Outcomes(lines: seq<string>, n: nat, rd: Reader): (r: seq<LineOutcome>)
    requires n <= |lines|
    ensures |r| == n
  {
    if n == 0 then [] else Outcomes(lines, n - 1, rd) + [Outcome(lines[n - 1], n - 1, rd)]
  }

  /** `successCount` after the outcomes `os`. */
  function Successes(os: seq<LineOutcome>): nat {
    if os == [] then 0 else Successes(os[..|os| - 1]) + (if os[|os| - 1].Decoded? then 1 else 0)
  }

  function Blanks(os: seq<LineOutcome>): nat {
    if os == [] then 0 else Blanks(os[..|os| - 1]) + (if os[|os| - 1].Blank? then 1 else 0)
  }

  /** The message recorded for line `n`, counting from 1. */
  function LineError(n: nat, message: string): string {
    "Line " + IntToString(n) + ": " + message
  }

  /** `errors` after the outcomes `os`: each rejected line's message, with its 1-based line number. */
  function Errors(os: seq<LineOutcome>): seq<string> {
    if os == [] then []
    else
      var o := os[|os| - 1];
      Errors(os[..|os| - 1]) + (if o.Rejected? then [LineError(|os|, o.message)] else [])
  }

  /** An idea already stored for this owner under this title hash. */
  predicate Conflicts(ideas: seq<Idea>, ownerId: int, hash: string) {
    exists j :: 0 <= j < |ideas| && ideas[j].ownerId == ownerId && ideas[j].titleHash == hash
  }

  function IdeaFor(ownerId: int, d: LineOutcome, sha256: string -> string): Idea
    requires d.Decoded?
  {
    Idea(ownerId, d.title, d.description, d.url, EnrichPipeline.HashTitle(sha256, d.title), "pending")
  }

  /** The insert with `ON CONFLICT (title_hash, owner_id) DO NOTHING`. */
  function Insert(ideas: seq<Idea>, idea: Idea): (r: seq<Idea>)
    ensures Conflicts(ideas, idea.ownerId, idea.titleHash) ==> r == ideas
    ensures !Conflicts(ideas, idea.ownerId, idea.titleHash) ==> r == ideas + [idea]
  {
    if Conflicts(ideas, idea.ownerId, idea.titleHash) then ideas else ideas + [idea]
  }

  /** The ideas table after the outcomes `os`. */
  function Stored(ideas: seq<Idea>, ownerId: int, os: seq<LineOutcome>, sha256: string -> string): seq<Idea> {
    if os == [] then ideas
    else
      var before := Stored(ideas, ownerId, os[..|os| - 1], sha256);
      var o := os[|os| - 1];
      if o.Decoded? then Insert(before, IdeaFor(ownerId, o, sha256)) else before
  }

  /** `s.slice(0, n)`. */
  function Take(s: seq<string>, n: nat): (r: seq<string>)
    ensures |r| == if |s| <= n then |s| else n
    ensures r == s[..|r|]
  {
    if |s| <= n then s else s[..n]
  }

  /** No owner has two ideas with the same title hash. */
  predicate UniqueHashes(ideas: seq<Idea>) {
    forall i, j :: 0 <= i < j < |ideas| ==> ideas[i].ownerId != ideas[j].ownerId || ideas[i].titleHash != ideas[j].titleHash
  }

  class ImportStore {
    var imports: map<int, ImportRow>
    var ideas: seq<Idea>

    constructor (imports0: map<int, ImportRow>, ideas0: seq<Idea>)
      ensures imports == imports0 && ideas == ideas0
    {
      imports := imports0;
      ideas := ideas0;
    }

    /** The loop of `commitImport` over the lines, inserting into `ideas`. */
    method ImportLines(lines: seq<string>, rd: Reader, ownerId: int, sha256: string -> string) returns (successCount: nat, errors: seq<string>)
      modifies this
      ensures var os := Outcomes(lines, |lines|, rd);
        successCount == Successes(os) && errors == Errors(os) && ideas == Stored(old(ideas), ownerId, os, sha256)
      ensures imports == old(imports)
    {
      errors := [];
      successCount := 0;
      var errorCount := 0;
      for i := 0 to |lines|
        invariant successCount == Successes(Outcomes(lines, i, rd))
        invariant errors == Errors(Outcomes(lines, i, rd)) && errorCount == |errors|
        invariant ideas == Stored(old(ideas), ownerId, Outcomes(lines, i, rd), sha256)
        invariant imports == old(imports)
      {
        ghost var os := Outcomes(lines, i, rd);
        var o := ImportLine(lines, i, rd, ownerId, sha256);
        Step(os, o);
        match o
        case Blank =>
        case Decoded(_, _, _) =>
          successCount := successCount + 1;
        case Rejected(message) =>
          errorCount := errorCount + 1;
          errors := errors + [LineError(i + 1, message)];
      }
    }

    /** One pass of the loop body: decode line `i` and insert its idea when it has one. */
    method ImportLine(lines: seq<string>, i: nat, rd: Reader, ownerId: int, sha256: string -> string) returns (o: LineOutcome)
      requires i < |lines|
      modifies this
      ensures Outcomes(lines, i + 1, rd) == Outcomes(lines, i, rd) + [o]
      ensures ideas == if o.Decoded? then Insert(old(ideas), IdeaFor(ownerId, o, sha256)) else old(ideas)
      ensures imports == old(imports)
    {
      o := Outcome(lines[i], i, rd);
      if o.Decoded? {
        ideas := Insert(ideas, IdeaFor(ownerId, o, sha256));
      }
    }

    /** `commitImport`. */
    method CommitImport(importId: int, data: string, parse: string -> Result<JsValue.Value>, sha256: string -> string,
                        insertFails: nat -> Option<string>) returns (r: Result<CommitResponse>)
      modifies this
      ensures importId !in old(imports) ==> r == Err("Import not found") && imports == old(imports) && ideas == old(ideas)
      ensures importId in old(imports) ==>
        var rec := old(imports)[importId];
        var lines := Lines(data);
        var os := Outcomes(lines, |lines|, Reader(rec.format, parse, insertFails));
        && r == Ok(Response(lines, Successes(os), Errors(os)))
        && imports == old(imports)[importId := Completed(rec, lines, Successes(os), Errors(os))]
        && ideas == Stored(old(ideas), rec.userId, os, sha256)
    {
      if importId !in imports {
        return Err("Import not found");
      }
      var rec := imports[importId];
      imports := imports[importId := rec.(status := "processing")];
      var lines := Lines(data);
      var successCount, errors := ImportLines(lines, Reader(rec.format, parse, insertFails), rec.userId, sha256);
      UpdateTwice(old(imports), importId, rec.(status := "processing"), Completed(rec, lines, successCount, errors));
      imports := imports[importId := Completed(rec, lines, successCount, errors)];
      return Ok(Response(lines, successCount, errors));
    }
  }

  /** The second write to a row replaces the first. */
  lemma UpdateTwice(m: map<int, ImportRow>, k: int, a: ImportRow, b: ImportRow)
    ensures m[k := a][k := b] == m[k := b]
  {
  }

  /** The import row once the loop is done: every line is counted as processed, and at most 100 errors are kept. */
  function Completed(rec: ImportRow, lines: seq<string>, successCount: nat, errors: seq<string>): ImportRow {
    rec.(status := "completed", totalRows := |lines|, processedRows := |lines|,
         successCount := successCount, errorCount := |errors|, errors := Take(errors, 100))
  }

  /** The response returns at most 10 errors. */
  function Response(lines: seq<string>, successCount: nat, errors: seq<string>): CommitResponse {
    CommitResponse(true, |lines|, successCount, |errors|, Take(errors, 10))
  }

  /** How the counts, the errors and the table grow by one outcome. */
  lemma Step(os: seq<LineOutcome>, o: LineOutcome)
    ensures Successes(os + [o]) == Successes(os) + (if o.Decoded? then 1 else 0)
    ensures Blanks(os + [o]) == Blanks(os) + (if o.Blank? then 1 else 0)
    ensures Errors(os + [o]) == Errors(os) + (if o.Rejected? then [LineError(|os| + 1, o.message)] else [])
    ensures forall ideas, ownerId, sha256 :: (Stored(ideas, ownerId, os + [o], sha256)
      == if o.Decoded? then Insert(Stored(ideas, ownerId, os, sha256), IdeaFor(ownerId, o, sha256)) else Stored(ideas, ownerId, os, sha256))
  {
    assert (os + [o])[..|os|] == os;
  }

  /** Every line is a success, an error or blank, so the two counts never exceed the rows. */
  lemma {:induction false} Tally(os: seq<LineOutcome>)
    ensures Successes(os) + |Errors(os)| + Blanks(os) == |os|
  {
    if os != [] {
      Tally(os[..|os| - 1]);
    }
  }

  /** Line `k`'s outcome is the one `Outcome` gives it. */
  lemma {:induction false} OutcomeAt(lines: seq<string>, n: nat, rd: Reader, k: nat)
    requires k < n <= |lines|
    ensures Outcomes(lines, n, rd)[k] == Outcome(lines[k], k, rd)
  {
    if k < n - 1 {
      OutcomeAt(lines, n - 1, rd, k);
      SnocKeeps(Outcomes(lines, n - 1, rd), Outcome(lines[n - 1], n - 1, rd), k);
    }
  }

  lemma SnocKeeps<T>(s: seq<T>, x: T, k: nat)
    requires k < |s|
    ensures (s + [x])[k] == s[k]
  {
  }

  /** Empty (or all-whitespace) data is still one row, and that row counts as neither success nor error. */
  lemma EmptyDataIsOneBlankRow(data: string, rd: Reader)
    requires Trim(data) == ""
    ensures Lines(data) == [""]
    ensures Outcomes(Lines(data), 1, rd) == [Blank]
    ensures Successes([Blank]) == 0 && Errors([Blank]) == [] && Blanks([Blank]) == 1
  {
    assert Lines(data) == [""];
    EmptyLineIsBlank(rd);
    Step([], Blank);
  }

  lemma EmptyLineIsBlank(rd: Reader)
    ensures Outcome("", 0, rd) == Blank
  {
    assert Trim("") == "";
  }

  /** A rejected line's error carries its 1-based number and the message it threw. */
  lemma {:induction false} ErrorOfLine(os: seq<LineOutcome>, k: nat)
    requires k < |os| && os[k].Rejected?
    ensures LineError(k + 1, os[k].message) in Errors(os)
  {
    var init := os[..|os| - 1];
    var last := os[|os| - 1];
    assert os == init + [last];
    Step(init, last);
    if k < |os| - 1 {
      assert init[k] == os[k];
      ErrorOfLine(init, k);
    }
  }

  /** A CSV line takes only its first three columns; anything after a third comma is ignored. */
  lemma ExtraColumnsIgnored(a: string, b: string, c: string, rest: string)
    requires ',' !in a && ',' !in b && ',' !in c
    ensures DecodeCsv(a + [','] + b + [','] + c + [','] + rest) == DecodeCsv(a + [','] + b + [','] + c)
  {
    SplitFour(a, b, c, rest);
    SplitThree(a, b, c);
    SameFirstColumns([a, b, c] + SplitOn(rest, ','), [a, b, c]);
  }

  /** Two lines whose first three parts agree decode alike. */
  lemma SameFirstColumns(pl: seq<string>, ps: seq<string>)
    requires |pl| >= 3 && |ps| >= 3 && pl[..3] == ps[..3]
    ensures Column(pl, 1) == Column(ps, 1) && Column(pl, 2) == Column(ps, 2) && pl[0] == ps[0]
  {
    assert pl[0] == pl[..3][0] && pl[1] == pl[..3][1] && pl[2] == pl[..3][2];
    assert ps[0] == ps[..3][0] && ps[1] == ps[..3][1] && ps[2] == ps[..3][2];
  }

  lemma SplitFour(a: string, b: string, c: string, rest: string)
    requires ',' !in a && ',' !in b && ',' !in c
    ensures SplitOn(a + [','] + b + [','] + c + [','] + rest, ',') == [a, b, c] + SplitOn(rest, ',')
  {
    assert a + [','] + b + [','] + c + [','] + rest == a + [','] + (b + [','] + (c + [','] + rest));
    SplitOnAfterPiece(a, ',', b + [','] + (c + [','] + rest));
    SplitOnAfterPiece(b, ',', c + [','] + rest);
    SplitOnAfterPiece(c, ',', rest);
  }

  lemma SplitThree(a: string, b: string, c: string)
    requires ',' !in a && ',' !in b && ',' !in c
    ensures SplitOn(a + [','] + b + [','] + c, ',') == [a, b, c]
  {
    assert a + [','] + b + [','] + c == a + [','] + (b + [','] + c);
    SplitOnAfterPiece(a, ',', b + [','] + c);
    SplitOnAfterPiece(b, ',', c);
    SplitOnNoSeparator(c, ',');
  }

  /** A CSV line whose first column is blank is rejected for its missing title. */
  lemma BlankTitleRejected(raw: string, format: string, parse: string -> Result<JsValue.Value>)
    requires format != "jsonl" && Trim(raw) != "" && Trim(SplitOn(Trim(raw), ',')[0]) == ""
    ensures Decode(raw, format, parse) == Rejected(TitleRequired)
  {
  }

  /**
   * A line whose idea the owner already has leaves the table unchanged, yet counts as a
   * success like a line that inserts.
   */
  lemma ConflictCountsAsSuccess(ideas: seq<Idea>, ownerId: int, os: seq<LineOutcome>, o: LineOutcome, sha256: string -> string)
    requires o.Decoded? && Conflicts(Stored(ideas, ownerId, os, sha256), ownerId, EnrichPipeline.HashTitle(sha256, o.title))
    ensures Stored(ideas, ownerId, os + [o], sha256) == Stored(ideas, ownerId, os, sha256)
    ensures Successes(os + [o]) == Successes(os) + 1
  {
    Step(os, o);
  }

  /** Importing never gives an owner two ideas with the same title hash. */
  lemma {:induction false} StoredKeepsHashesUnique(ideas: seq<Idea>, ownerId: int, os: seq<LineOutcome>, sha256: string -> string)
    requires UniqueHashes(ideas)
    ensures UniqueHashes(Stored(ideas, ownerId, os, sha256))
  {
    if os != [] {
      var init := os[..|os| - 1];
      StoredKeepsHashesUnique(ideas, ownerId, init, sha256);
      StepKeepsUnique(Stored(ideas, ownerId, init, sha256), Stored(ideas, ownerId, os, sha256), os[|os| - 1], ownerId, sha256);
    }
  }

  lemma StepKeepsUnique(before: seq<Idea>, after: seq<Idea>, o: LineOutcome, ownerId: int, sha256: string -> string)
    requires UniqueHashes(before)
    requires after == if o.Decoded? then Insert(before, IdeaFor(ownerId, o, sha256)) else before
    ensures UniqueHashes(after)
  {
    if o.Decoded? {
      InsertKeepsUnique(before, IdeaFor(ownerId, o, sha256));
    }
  }

  lemma InsertKeepsUnique(before: seq<Idea>, idea: Idea)
    requires UniqueHashes(before)
    ensures UniqueHashes(Insert(before, idea))
  {
    if !Conflicts(before, idea.ownerId, idea.titleHash) {
      var after := before + [idea];
      forall i, j | 0 <= i < j < |after|
        ensures after[i].ownerId != after[j].ownerId || after[i].titleHash != after[j].titleHash
      {
        if j == |before| {
          assert after[i] == before[i];
        }
      }
    }
  }

  /** The ten errors the response returns are the first ten of the hundred the import row keeps. */
  lemma ResponseErrorsPrefixStored(errors: seq<string>)
    ensures Take(errors, 10) == Take(errors, 100)[..|Take(errors, 10)|]
    ensures |Take(errors, 10)| <= 10 && |Take(errors, 100)| <= 100
  {
  }
}
