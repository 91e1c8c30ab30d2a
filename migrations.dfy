/**
 * `MigrationManager`: the checksum of a migration's SQL, the pending list, the validation
 * pass, the last applied version and the run that applies the pending migrations one
 * transaction at a time. The `migrations` table is the `applied` sequence, kept in version
 * order as `ORDER BY version` reads it; the migration files are the `files` sequence. Running
 * a migration's SQL is a parameter that says whether it failed and with which message.
 */
module Migrations {
  import opened Wrappers

  /** A migration file. */
  datatype Migration = Migration(version: int, filename: string, sql: string)

  /** A row of the `migrations` table (its `applied_at` time is not modelled). */
  datatype MigrationRecord = MigrationRecord(version: int, filename: string, checksum: string)

  /** A logged version gap: the previous and current applied versions and the missing count. */
  datatype Gap = Gap(previous: int, current: int, gap: int)

  const Two31 := 0x8000_0000
  const Two32 := 0x1_0000_0000

  /** The file list `loadMigrationFiles` returns. */
  const PlaceholderSql := "-- This would be loaded from the migration file\n        -- For now, this is a placeholder as we can't read files in Encore.ts runtime"
  const KnownFiles := [Migration(1, "001_create_tables.up.sql", PlaceholderSql)]

  /** What PostgreSQL reports when the `version` primary key is already taken. */
  const DuplicateKey := "duplicate key value violates unique constraint \"migrations_pkey\""

  // ---------------------------------------------------------------------------------------
  // The checksum
  // ---------------------------------------------------------------------------------------

  /** ECMAScript ToInt32: the integer congruent to `x` modulo 2^32 in [-2^31, 2^31). */
  function Int32(x: int): (r: int)
    ensures -Two31 <= r < Two31
    ensures (x - r) % Two32 == 0
  {
    var m := x % Two32;
    if m >= Two31 then m - Two32 else m
  }

  /** One step of the loop: `((hash << 5) - hash) + char`, then `hash & hash`. */
  function Step(hash: int, code: int): int {
    Int32(Int32(hash * 32) - hash + code)
  }

  /** The hash of the whole text, one UTF-16 code unit per character. */
  function Hash(s: string): (h: int)
    ensures -Two31 <= h < Two31
  {
    if s == [] then 0 else Step(Hash(s[..|s| - 1]), s[|s| - 1] as int)
  }

  function HexDigit(d: nat): (c: char)
    requires d < 16
  {
    if d < 10 then ('0' as int + d) as char else ('a' as int + d - 10) as char
  }

  predicate IsHexDigit(c: char) {
    '0' <= c <= '9' || 'a' <= c <= 'f'
  }

  function HexValue(c: char): (d: nat)
    requires IsHexDigit(c)
    ensures d < 16 && HexDigit(d) == c
  {
    if c <= '9' then c as int - '0' as int else c as int - 'a' as int + 10
  }

  /** Lower-case hexadecimal digits of a natural number, most significant first. */
  function NatToHex(n: nat): (r: string)
    ensures |r| >= 1
    ensures forall i :: 0 <= i < |r| ==> IsHexDigit(r[i])
    decreases n
  {
    if n < 16 then [HexDigit(n)] else NatToHex(n / 16) + [HexDigit(n % 16)]
  }

  function ParseHex(s: string): (n: nat)
    requires forall i :: 0 <= i < |s| ==> IsHexDigit(s[i])
    decreases |s|
  {
    if s == [] then 0 else ParseHex(s[..|s| - 1]) * 16 + HexValue(s[|s| - 1])
  }

  /** `n.toString(16)`: a `-` before the digits of the magnitude when negative. */
  function ToHex(n: int): (r: string)
    ensures |r| >= 1
    ensures r[0] == '-' <==> n < 0
  {
    if n < 0 then "-" + NatToHex(-n) else NatToHex(n)
  }

  /** `generateChecksum`. */
  function Checksum(sql: string): string {
    ToHex(Hash(sql))
  }

  /** The loop of `generateChecksum`. */
  method GenerateChecksum(sql: string) returns (checksum: string)
    ensures checksum == Checksum(sql)
  {
    var hash := 0;
    for i := 0 to |sql|
      invariant hash == Hash(sql[..i])
    {
      var code := sql[i] as int;
      hash := Int32(hash * 32) - hash + code;
      hash := Int32(hash);
      assert sql[..i + 1][..i] == sql[..i];
    }
    assert sql[..|sql|] == sql;
    checksum := ToHex(hash);
  }

  lemma Int32Shift(x: int, k: int)
    ensures Int32(x + k * Two32) == Int32(x)
  {
    assert (x + k * Two32) % Two32 == x % Two32;
  }

  /** Each step is `31 * hash + code` reduced to 32 bits, as the shift-and-subtract intends. */
  lemma StepIsTimes31(hash: int, code: int)
    ensures Step(hash, code) == Int32(31 * hash + code)
  {
    var a := Int32(hash * 32);
    var k := (hash * 32 - a) / Two32;
    assert hash * 32 - a == k * Two32;
    Int32Shift(31 * hash + code, -k);
    assert a - hash + code == 31 * hash + code + (-k) * Two32;
  }

  lemma {:induction false} NatToHexRoundTrip(n: nat)
    ensures ParseHex(NatToHex(n)) == n
    decreases n
  {
    if n >= 16 {
      var s := NatToHex(n);
      assert s[..|s| - 1] == NatToHex(n / 16);
      NatToHexRoundTrip(n / 16);
    }
  }

  /** Different hashes render to different checksums, so a checksum compare is a hash compare. */
  lemma ToHexInjective(a: int, b: int)
    requires ToHex(a) == ToHex(b)
    ensures a == b
  {
    if a < 0 && b < 0 {
      assert NatToHex(-a) == ToHex(a)[1..] == ToHex(b)[1..] == NatToHex(-b);
      NatToHexRoundTrip(-a);
      NatToHexRoundTrip(-b);
    } else if a >= 0 && b >= 0 {
      NatToHexRoundTrip(a);
      NatToHexRoundTrip(b);
    }
  }

  /** A checksum is a sign followed by lower-case hexadecimal digits of a magnitude at most 2^31. */
  lemma ChecksumShape(sql: string)
    ensures var c := Checksum(sql);
      var digits := if c[0] == '-' then c[1..] else c;
      && (forall i :: 0 <= i < |digits| ==> IsHexDigit(digits[i]))
      && ParseHex(digits) <= Two31
      && (c[0] == '-' <==> Hash(sql) < 0)
  {
    var h := Hash(sql);
    SignedHexShape(h);
  }

  lemma SignedHexShape(h: int)
    requires -Two31 <= h < Two31
    ensures var c := ToHex(h);
      var digits := if c[0] == '-' then c[1..] else c;
      && (forall i :: 0 <= i < |digits| ==> IsHexDigit(digits[i]))
      && ParseHex(digits) <= Two31
  {
    var m: nat := if h < 0 then -h else h;
    assert (if ToHex(h)[0] == '-' then ToHex(h)[1..] else ToHex(h)) == NatToHex(m);
    NatToHexRoundTrip(m);
  }

  /** The polynomial `sum of code_i * 31^(n-1-i)` over the text, without any reduction. */
  function Poly(s: string): int {
    if s == [] then 0 else 31 * Poly(s[..|s| - 1]) + s[|s| - 1] as int
  }

  /** Reducing the running value before the multiplication does not change the 32-bit result. */
  lemma Int32Times31(p: int, c: int)
    ensures Int32(31 * Int32(p) + c) == Int32(31 * p + c)
  {
    var a := Int32(p);
    var k := (p - a) / Two32;
    assert p - a == k * Two32;
    assert 31 * a + c == 31 * p + c + (-31 * k) * Two32;
    Int32Shift(31 * p + c, -31 * k);
  }

  /**
   * Reducing to 32 bits at every step gives the same as reducing once at the end: the
   * checksum hash is the 32-bit residue of the polynomial hash.
   */
  lemma {:induction false} HashIsPolynomial(s: string)
    ensures Hash(s) == Int32(Poly(s))
    decreases |s|
  {
    if s != [] {
      var init := s[..|s| - 1];
      var c := s[|s| - 1] as int;
      HashIsPolynomial(init);
      StepIsTimes31(Hash(init), c);
      Int32Times31(Poly(init), c);
    }
  }

  // ---------------------------------------------------------------------------------------
  // The table and the queries over it
  // ---------------------------------------------------------------------------------------

  /** Strictly increasing versions: the primary key read `ORDER BY version`. */
  predicate Ordered(rs: seq<MigrationRecord>) {
    forall i, j :: 0 <= i < j < |rs| ==> rs[i].version < rs[j].version
  }

  predicate HasVersion(rs: seq<MigrationRecord>, v: int) {
    exists i :: 0 <= i < |rs| && rs[i].version == v
  }

  /** `allMigrations.find(m => m.version === version)`: the first file with that version. */
  function Find(files: seq<Migration>, version: int): (r: Option<nat>)
    ensures r.Some? ==>
      && r.value < |files| && files[r.value].version == version
      && forall j :: 0 <= j < r.value ==> files[j].version != version
    ensures r.None? ==> forall j :: 0 <= j < |files| ==> files[j].version != version
  {
    if files == [] then None
    else if files[0].version == version then Some(0)
    else match Find(files[1..], version)
      case Some(k) => Some(k + 1)
      case None => None
  }

  /** The record belongs to a file that is still there but whose SQL no longer has the recorded checksum. */
  predicate Modified(files: seq<Migration>, rec: MigrationRecord) {
    var f := Find(files, rec.version);
    f.Some? && Checksum(files[f.value].sql) != rec.checksum
  }

  function ModifiedMessage(rec: MigrationRecord, current: string): string {
    "Migration " + rec.filename + " has been modified after being applied. "
      + "Expected checksum: " + rec.checksum + ", got: " + current
  }

  /** The first applied record, in version order, whose file was modified. */
  function FirstModified(files: seq<Migration>, applied: seq<MigrationRecord>): (r: Option<nat>)
    ensures r.Some? ==>
      && r.value < |applied| && Modified(files, applied[r.value])
      && forall j :: 0 <= j < r.value ==> !Modified(files, applied[j])
    ensures r.None? ==> forall j :: 0 <= j < |applied| ==> !Modified(files, applied[j])
  {
    if applied == [] then None
    else if Modified(files, applied[0]) then Some(0)
    else match FirstModified(files, applied[1..])
      case Some(k) => Some(k + 1)
      case None => None
  }

  /** `allMigrations.filter(migration => !appliedVersions.has(migration.version))`. */
  function Unapplied(files: seq<Migration>, applied: seq<MigrationRecord>): (r: seq<Migration>)
    ensures |r| <= |files|
  {
    if files == [] then []
    else (if HasVersion(applied, files[0].version) then [] else [files[0]]) + Unapplied(files[1..], applied)
  }

  /** `getPendingMigrations`: an error for the first modified file, otherwise the unapplied files. */
  function Pending(files: seq<Migration>, applied: seq<MigrationRecord>): Result<seq<Migration>> {
    match FirstModified(files, applied)
    case Some(k) =>
      var rec := applied[k];
      Err(ModifiedMessage(rec, Checksum(files[Find(files, rec.version).value].sql)))
    case None => Ok(Unapplied(files, applied))
  }

  /** The first applied record that `validateMigrations` rejects: its file is missing or modified. */
  predicate Rejected(files: seq<Migration>, rec: MigrationRecord) {
    Find(files, rec.version).None? || Modified(files, rec)
  }

  /** `validateMigrations`'s verdict. */
  predicate Intact(files: seq<Migration>, applied: seq<MigrationRecord>) {
    forall i :: 0 <= i < |applied| ==> !Rejected(files, applied[i])
  }

  /** The warnings of the gap scan over ascending versions. */
  function Gaps(vs: seq<int>): (r: seq<Gap>)
    ensures |r| <= |vs|
  {
    if |vs| < 2 then []
    else
      var prev := vs[|vs| - 2];
      var cur := vs[|vs| - 1];
      Gaps(vs[..|vs| - 1]) + (if cur != prev + 1 then [Gap(prev, cur, cur - prev - 1)] else [])
  }

  function Versions(rs: seq<MigrationRecord>): (r: seq<int>)
    ensures |r| == |rs| && forall i :: 0 <= i < |rs| ==> r[i] == rs[i].version
  {
    seq(|rs|, i requires 0 <= i < |rs| => rs[i].version)
  }

  /** `Math.max(...)` of the applied versions. */
  function MaxVersion(rs: seq<MigrationRecord>): (m: int)
    requires rs != []
    ensures HasVersion(rs, m) && forall i :: 0 <= i < |rs| ==> rs[i].version <= m
  {
    if |rs| == 1 then rs[0].version
    else
      var m := MaxVersion(rs[1..]);
      assert forall i :: 1 <= i < |rs| ==> rs[i] == rs[1..][i - 1];
      if rs[0].version >= m then rs[0].version else m
  }

  /** The row the run inserts for a migration. */
  function RecordOf(m: Migration): MigrationRecord {
    MigrationRecord(m.version, m.filename, Checksum(m.sql))
  }

  /** A row joins the table at its place in version order. */
  function Insert(rs: seq<MigrationRecord>, x: MigrationRecord): (r: seq<MigrationRecord>)
    ensures |r| == |rs| + 1
  {
    if rs == [] || x.version < rs[0].version then [x] + rs
    else [rs[0]] + Insert(rs[1..], x)
  }

  /** Inserting a new version keeps the table ordered, adds exactly that row and no other version. */
  lemma {:induction false} InsertSpec(rs: seq<MigrationRecord>, x: MigrationRecord)
    requires Ordered(rs) && !HasVersion(rs, x.version)
    ensures Ordered(Insert(rs, x)) && multiset(Insert(rs, x)) == multiset(rs) + multiset{x}
    ensures forall v :: HasVersion(Insert(rs, x), v) <==> HasVersion(rs, v) || v == x.version
  {
    if rs == [] || x.version < rs[0].version {
      InsertFront(rs, x);
    } else {
      var rest := rs[1..];
      assert rs == [rs[0]] + rest;
      ConsVersion(rs[0], rest, x.version);
      InsertSpec(rest, x);
      var tail := Insert(rest, x);
      assert Insert(rs, x) == [rs[0]] + tail;
      InsertOrdered(rs[0], tail, rest, x);
      InsertVersions(rs[0], tail, rest, x);
      assert multiset([rs[0]] + tail) == multiset{rs[0]} + multiset(tail);
      assert multiset(rs) == multiset{rs[0]} + multiset(rest);
    }
  }

  /** A row below every version goes first. */
  lemma InsertFront(rs: seq<MigrationRecord>, x: MigrationRecord)
    requires Ordered(rs) && (rs == [] || x.version < rs[0].version)
    ensures Ordered([x] + rs)
    ensures forall v :: HasVersion([x] + rs, v) <==> HasVersion(rs, v) || v == x.version
  {
    forall v ensures HasVersion([x] + rs, v) <==> HasVersion(rs, v) || v == x.version {
      ConsVersion(x, rs, v);
    }
    forall i, j | 0 <= i < j < |[x] + rs| ensures ([x] + rs)[i].version < ([x] + rs)[j].version {
      assert ([x] + rs)[j] == rs[j - 1];
      if i > 0 { assert ([x] + rs)[i] == rs[i - 1]; }
    }
  }

  /** The head stays ahead of an inserted tail whose versions are all above it. */
  lemma InsertOrdered(h: MigrationRecord, tail: seq<MigrationRecord>, rest: seq<MigrationRecord>, x: MigrationRecord)
    requires Ordered([h] + rest) && h.version < x.version && Ordered(tail)
    requires forall v :: HasVersion(tail, v) <==> HasVersion(rest, v) || v == x.version
    ensures Ordered([h] + tail)
  {
    forall j | 0 <= j < |tail| ensures h.version < tail[j].version {
      assert HasVersion(tail, tail[j].version);
      if tail[j].version != x.version {
        var i :| 0 <= i < |rest| && rest[i].version == tail[j].version;
        assert ([h] + rest)[0] == h && ([h] + rest)[i + 1] == rest[i];
      }
    }
    forall i, j | 0 <= i < j < |[h] + tail| ensures ([h] + tail)[i].version < ([h] + tail)[j].version {
      assert ([h] + tail)[j] == tail[j - 1];
      if i > 0 { assert ([h] + tail)[i] == tail[i - 1]; }
    }
  }

  lemma InsertVersions(h: MigrationRecord, tail: seq<MigrationRecord>, rest: seq<MigrationRecord>, x: MigrationRecord)
    requires forall v :: HasVersion(tail, v) <==> HasVersion(rest, v) || v == x.version
    ensures forall v :: HasVersion([h] + tail, v) <==> HasVersion([h] + rest, v) || v == x.version
  {
    forall v ensures HasVersion([h] + tail, v) <==> HasVersion([h] + rest, v) || v == x.version {
      ConsVersion(h, tail, v);
      ConsVersion(h, rest, v);
    }
  }

  lemma ConsVersion(h: MigrationRecord, rs: seq<MigrationRecord>, v: int)
    ensures HasVersion([h] + rs, v) <==> h.version == v || HasVersion(rs, v)
  {
    if HasVersion(rs, v) {
      var i :| 0 <= i < |rs| && rs[i].version == v;
      assert ([h] + rs)[i + 1] == rs[i];
    }
    assert ([h] + rs)[0] == h;
    if HasVersion([h] + rs, v) && h.version != v {
      var i :| 0 <= i < |[h] + rs| && ([h] + rs)[i].version == v;
      assert i > 0 && ([h] + rs)[i] == rs[i - 1];
    }
  }

  function FailedMessage(m: Migration, error: string): string {
    "Migration " + m.filename + " failed: " + error
  }

  /**
   * One transaction: the SQL runs, then the row is inserted, then the commit. A failure of
   * either rolls the transaction back and becomes the error `runMigrations` throws.
   */
  function Apply(applied: seq<MigrationRecord>, m: Migration, exec: string -> Option<string>): (r: Result<seq<MigrationRecord>>)
    requires Ordered(applied)
    ensures r.Ok? ==> Ordered(r.value)
  {
    match exec(m.sql)
    case Some(e) => Err(FailedMessage(m, e))
    case None =>
      if HasVersion(applied, m.version) then Err(FailedMessage(m, DuplicateKey))
      else
        InsertSpec(applied, RecordOf(m));
        Ok(Insert(applied, RecordOf(m)))
  }

  /** The loop of `runMigrations`: the table after the transactions and the error that stopped them. */
  function Run(applied: seq<MigrationRecord>, ms: seq<Migration>, exec: string -> Option<string>): (r: (seq<MigrationRecord>, Option<string>))
    requires Ordered(applied)
    ensures Ordered(r.0)
    decreases |ms|
  {
    if ms == [] then (applied, None)
    else match Apply(applied, ms[0], exec)
      case Err(e) => (applied, Some(e))
      case Ok(next) => Run(next, ms[1..], exec)
  }

  /** The specification of `RunMigrations`: the pending check, then the run. */
  function Migrate(files: seq<Migration>, applied: seq<MigrationRecord>, exec: string -> Option<string>): (r: (seq<MigrationRecord>, Result<nat>))
    requires Ordered(applied)
  {
    match Pending(files, applied)
    case Err(e) => (applied, Err(e))
    case Ok(pending) =>
      var (after, error) := Run(applied, pending, exec);
      (after, if error.Some? then Err(error.value) else Ok(|pending|))
  }

  /** The gap scan of `validateMigrations` over ascending versions. */
  method GapWarnings(versions: seq<int>) returns (gaps: seq<Gap>)
    ensures gaps == Gaps(versions)
  {
    gaps := [];
    if |versions| > 0 {
      for i := 1 to |versions|
        invariant gaps == Gaps(versions[..i])
      {
        if versions[i] != versions[i - 1] + 1 {
          gaps := gaps + [Gap(versions[i - 1], versions[i], versions[i] - versions[i - 1] - 1)];
        }
        assert versions[..i + 1][..i] == versions[..i];
      }
      assert versions[..|versions|] == versions;
    }
  }

  class MigrationManager {
    /** What `loadMigrationFiles` returns. */
    const files: seq<Migration>
    /** The `migrations` table in version order. */
    var applied: seq<MigrationRecord>

    ghost predicate Valid()
      reads this
    {
      Ordered(applied)
    }

    /** The manager over the known file list and the table as it stands. */
    constructor (table: seq<MigrationRecord>)
      requires Ordered(table)
      ensures Valid() && files == KnownFiles && applied == table
    {
      files := KnownFiles;
      applied := table;
    }

    /** `getPendingMigrations`: every applied record is checked, then the files are filtered. */
    method GetPendingMigrations() returns (r: Result<seq<Migration>>)
      ensures r == Pending(files, applied)
    {
      for i := 0 to |applied|
        invariant forall j :: 0 <= j < i ==> !Modified(files, applied[j])
      {
        var rec := applied[i];
        var found := Find(files, rec.version);
        if found.Some? {
          var current := GenerateChecksum(files[found.value].sql);
          if current != rec.checksum {
            assert FirstModified(files, applied) == Some(i) by {
              FirstModifiedAt(files, applied, i);
            }
            return Err(ModifiedMessage(rec, current));
          }
        }
      }
      var pending := [];
      for i := 0 to |files|
        invariant pending == Unapplied(files[..i], applied)
      {
        if !HasVersion(applied, files[i].version) {
          pending := pending + [files[i]];
        }
        UnappliedSnoc(files, i, applied);
      }
      assert files[..|files|] == files;
      return Ok(pending);
    }

    /** `getLastMigrationVersion`. */
    method GetLastMigrationVersion() returns (r: Option<int>)
      ensures r.None? <==> applied == []
      ensures r.Some? ==>
        && HasVersion(applied, r.value)
        && forall i :: 0 <= i < |applied| ==> applied[i].version <= r.value
    {
      if |applied| == 0 {
        return None;
      }
      return Some(MaxVersion(applied));
    }

    /**
     * `validateMigrations`: the gap scan over the sorted versions only warns; the verdict is
     * false at the first record whose file is missing or modified.
     */
    method ValidateMigrations() returns (ok: bool, gaps: seq<Gap>)
      requires Valid()
      ensures ok == Intact(files, applied)
      ensures gaps == Gaps(Versions(applied))
    {
      gaps := GapWarnings(Versions(applied));
      for i := 0 to |applied|
        invariant forall j :: 0 <= j < i ==> !Rejected(files, applied[j])
      {
        var found := Find(files, applied[i].version);
        if found.None? {
          return false, gaps;
        }
        var current := GenerateChecksum(files[found.value].sql);
        if current != applied[i].checksum {
          return false, gaps;
        }
      }
      return true, gaps;
    }

    /**
     * `runMigrations`: nothing when nothing is pending; otherwise each pending migration in
     * its own transaction, stopping at the first failure with the earlier ones committed.
     */
    method RunMigrations(exec: string -> Option<string>) returns (r: Result<nat>)
      requires Valid()
      modifies this
      ensures Valid()
      ensures (applied, r) == Migrate(files, old(applied), exec)
    {
      var p := GetPendingMigrations();
      if p.Err? {
        return Err(p.error);
      }
      var pending := p.value;
      if |pending| == 0 {
        return Ok(0);
      }
      ghost var start := applied;
      for i := 0 to |pending|
        invariant Ordered(applied)
        invariant Run(start, pending, exec) == Run(applied, pending[i..], exec)
      {
        var migration := pending[i];
        var failure := exec(migration.sql);
        if failure.Some? {
          return Err(FailedMessage(migration, failure.value));
        }
        if HasVersion(applied, migration.version) {
          return Err(FailedMessage(migration, DuplicateKey));
        }
        var checksum := GenerateChecksum(migration.sql);
        InsertSpec(applied, RecordOf(migration));
        applied := Insert(applied, MigrationRecord(migration.version, migration.filename, checksum));
        assert pending[i..][1..] == pending[i + 1..];
      }
      return Ok(|pending|);
    }
  }

  lemma FirstModifiedAt(files: seq<Migration>, applied: seq<MigrationRecord>, i: nat)
    requires i < |applied| && Modified(files, applied[i])
    requires forall j :: 0 <= j < i ==> !Modified(files, applied[j])
    ensures FirstModified(files, applied) == Some(i)
  {
  }

  lemma {:induction false} UnappliedAppend(a: seq<Migration>, b: seq<Migration>, applied: seq<MigrationRecord>)
    ensures Unapplied(a + b, applied) == Unapplied(a, applied) + Unapplied(b, applied)
    decreases |a|
  {
    if a != [] {
      assert (a + b)[1..] == a[1..] + b;
      UnappliedAppend(a[1..], b, applied);
    } else {
      assert a + b == b;
    }
  }

  lemma UnappliedSnoc(files: seq<Migration>, i: nat, applied: seq<MigrationRecord>)
    requires i < |files|
    ensures Unapplied(files[..i + 1], applied)
      == Unapplied(files[..i], applied) + (if HasVersion(applied, files[i].version) then [] else [files[i]])
  {
    assert files[..i + 1] == files[..i] + [files[i]];
    UnappliedAppend(files[..i], [files[i]], applied);
  }

  /** The pending list holds exactly the files whose version has no applied record. */
  lemma {:induction false} UnappliedContents(files: seq<Migration>, applied: seq<MigrationRecord>)
    ensures forall m :: m in Unapplied(files, applied) <==> m in files && !HasVersion(applied, m.version)
    decreases |files|
  {
    if files != [] {
      assert files == [files[0]] + files[1..];
      UnappliedContents(files[1..], applied);
    }
  }

  /** `u` is the files at the strictly increasing positions `idx`. */
  predicate AtPositions(u: seq<Migration>, files: seq<Migration>, idx: seq<nat>) {
    && |idx| == |u|
    && (forall k :: 0 <= k < |idx| ==> idx[k] < |files| && u[k] == files[idx[k]])
    && (forall k, l :: 0 <= k < l < |idx| ==> idx[k] < idx[l])
  }

  function Shift(idx: seq<nat>): (r: seq<nat>)
    ensures |r| == |idx| && forall k :: 0 <= k < |idx| ==> r[k] == idx[k] + 1
  {
    seq(|idx|, k requires 0 <= k < |idx| => idx[k] + 1)
  }

  /** Dropping the first file shifts every position by one. */
  lemma AtPositionsSkip(u: seq<Migration>, files: seq<Migration>, idx: seq<nat>)
    requires files != [] && AtPositions(u, files[1..], idx)
    ensures AtPositions(u, files, Shift(idx))
  {
    forall k | 0 <= k < |idx| ensures Shift(idx)[k] < |files| && u[k] == files[Shift(idx)[k]] {
      assert files[1..][idx[k]] == files[idx[k] + 1];
    }
  }

  /** Keeping the first file puts position 0 ahead of the shifted ones. */
  lemma AtPositionsKeep(u: seq<Migration>, files: seq<Migration>, idx: seq<nat>)
    requires files != [] && AtPositions(u, files[1..], idx)
    ensures AtPositions([files[0]] + u, files, [0] + Shift(idx))
  {
    AtPositionsSkip(u, files, idx);
    var j := [0] + Shift(idx);
    var v := [files[0]] + u;
    forall k | 0 <= k < |j| ensures j[k] < |files| && v[k] == files[j[k]] {
      if k > 0 { assert j[k] == Shift(idx)[k - 1] && v[k] == u[k - 1]; }
    }
    forall k, l | 0 <= k < l < |j| ensures j[k] < j[l] {
      assert j[l] == Shift(idx)[l - 1];
      if k > 0 { assert j[k] == Shift(idx)[k - 1]; }
    }
  }

  /** The pending list keeps file order: it is the files at increasing positions. */
  lemma {:induction false} UnappliedInFileOrder(files: seq<Migration>, applied: seq<MigrationRecord>) returns (idx: seq<nat>)
    ensures AtPositions(Unapplied(files, applied), files, idx)
    decreases |files|
  {
    if files == [] {
      return [];
    }
    var sub := UnappliedInFileOrder(files[1..], applied);
    var rest := Unapplied(files[1..], applied);
    if HasVersion(applied, files[0].version) {
      AtPositionsSkip(rest, files, sub);
      assert Unapplied(files, applied) == rest;
      idx := Shift(sub);
    } else {
      AtPositionsKeep(rest, files, sub);
      assert Unapplied(files, applied) == [files[0]] + rest;
      idx := [0] + Shift(sub);
    }
  }

  /** No gap is reported exactly when each applied version is one more than the one before. */
  lemma {:induction false} NoGapsIffConsecutive(vs: seq<int>)
    ensures Gaps(vs) == [] <==> forall i :: 1 <= i < |vs| ==> vs[i] == vs[i - 1] + 1
    decreases |vs|
  {
    if |vs| >= 2 {
      var init := vs[..|vs| - 1];
      NoGapsIffConsecutive(init);
      assert forall i :: 0 <= i < |init| ==> init[i] == vs[i];
    }
  }

  /** Every reported gap is between neighbouring versions and counts the versions missing between them. */
  lemma {:induction false} GapsAreBetweenNeighbours(vs: seq<int>)
    requires forall i, j :: 0 <= i < j < |vs| ==> vs[i] < vs[j]
    ensures forall g :: g in Gaps(vs) ==>
      && g.gap == g.current - g.previous - 1 && g.gap >= 1
      && exists i :: 1 <= i < |vs| && vs[i - 1] == g.previous && vs[i] == g.current
    decreases |vs|
  {
    if |vs| >= 2 {
      var init := vs[..|vs| - 1];
      GapsAreBetweenNeighbours(init);
      forall g | g in Gaps(vs)
        ensures exists i :: 1 <= i < |vs| && vs[i - 1] == g.previous && vs[i] == g.current
      {
        if g in Gaps(init) {
          var i :| 1 <= i < |init| && init[i - 1] == g.previous && init[i] == g.current;
          assert vs[i - 1] == g.previous && vs[i] == g.current;
        } else {
          assert vs[|vs| - 2] == g.previous && vs[|vs| - 1] == g.current;
        }
      }
    }
  }

  /** The table can only pass validation if `getPendingMigrations` would not throw on it. */
  lemma IntactHasNoModified(files: seq<Migration>, applied: seq<MigrationRecord>)
    requires Intact(files, applied)
    ensures Pending(files, applied) == Ok(Unapplied(files, applied))
  {
  }

  /** The rows a run inserts for the migrations it commits. */
  function Records(ms: seq<Migration>): (r: seq<MigrationRecord>)
    ensures |r| == |ms| && forall i :: 0 <= i < |ms| ==> r[i] == RecordOf(ms[i])
  {
    seq(|ms|, i requires 0 <= i < |ms| => RecordOf(ms[i]))
  }

  /**
   * A run commits a prefix of the pending list and keeps every earlier row: the table gains
   * one row per committed migration, the run is complete exactly when the prefix is all of
   * them, and otherwise the error names the first migration that was not committed.
   */
  lemma {:induction false} RunCommitsPrefix(applied: seq<MigrationRecord>, ms: seq<Migration>, exec: string -> Option<string>) returns (k: nat)
    requires Ordered(applied)
    ensures k <= |ms|
    ensures multiset(Run(applied, ms, exec).0) == multiset(applied) + multiset(Records(ms[..k]))
    ensures Run(applied, ms, exec).1.None? <==> k == |ms|
    ensures Run(applied, ms, exec).1.Some? ==> exists e :: Run(applied, ms, exec).1.value == FailedMessage(ms[k], e)
    decreases |ms|
  {
    if ms == [] {
      assert ms[..0] == [];
      return 0;
    }
    match Apply(applied, ms[0], exec)
    case Err(e) =>
      assert ms[..0] == [];
      ApplyFailure(applied, ms[0], exec);
      return 0;
    case Ok(next) =>
      InsertSpec(applied, RecordOf(ms[0]));
      var j := RunCommitsPrefix(next, ms[1..], exec);
      k := j + 1;
      RecordsCons(ms, j);
      assert Run(applied, ms, exec) == Run(next, ms[1..], exec);
      if j < |ms[1..]| {
        assert ms[1..][j] == ms[k];
      }
  }

  /** A transaction that fails reports the migration's file name. */
  lemma ApplyFailure(applied: seq<MigrationRecord>, m: Migration, exec: string -> Option<string>)
    requires Ordered(applied) && Apply(applied, m, exec).Err?
    ensures exists e :: Apply(applied, m, exec).error == FailedMessage(m, e)
  {
    if exec(m.sql).Some? {
      assert Apply(applied, m, exec).error == FailedMessage(m, exec(m.sql).value);
    } else {
      assert Apply(applied, m, exec).error == FailedMessage(m, DuplicateKey);
    }
  }

  lemma RecordsCons(ms: seq<Migration>, j: nat)
    requires j < |ms|
    ensures multiset(Records(ms[..j + 1])) == multiset{RecordOf(ms[0])} + multiset(Records(ms[1..][..j]))
  {
    assert Records(ms[..j + 1]) == [RecordOf(ms[0])] + Records(ms[1..][..j]);
  }

  lemma {:induction false} RunKeepsVersions(applied: seq<MigrationRecord>, ms: seq<Migration>, exec: string -> Option<string>)
    requires Ordered(applied)
    requires Run(applied, ms, exec).1.None?
    ensures forall v :: HasVersion(applied, v) ==> HasVersion(Run(applied, ms, exec).0, v)
    ensures forall j :: 0 <= j < |ms| ==> HasVersion(Run(applied, ms, exec).0, ms[j].version)
    decreases |ms|
  {
    if ms != [] {
      var next := Apply(applied, ms[0], exec).value;
      InsertSpec(applied, RecordOf(ms[0]));
      RunKeepsVersions(next, ms[1..], exec);
      forall j | 0 <= j < |ms| ensures HasVersion(Run(applied, ms, exec).0, ms[j].version) {
        if j > 0 { assert ms[j] == ms[1..][j - 1]; }
      }
    }
  }

  /** After a run that completes, no file is left unapplied. */
  lemma NothingPendingAfterRun(files: seq<Migration>, applied: seq<MigrationRecord>, exec: string -> Option<string>)
    requires Ordered(applied)
    requires Run(applied, Unapplied(files, applied), exec).1.None?
    ensures Unapplied(files, Run(applied, Unapplied(files, applied), exec).0) == []
  {
    var ms := Unapplied(files, applied);
    var after := Run(applied, ms, exec).0;
    RunKeepsVersions(applied, ms, exec);
    UnappliedContents(files, applied);
    forall i | 0 <= i < |files| ensures HasVersion(after, files[i].version) {
      if !HasVersion(applied, files[i].version) {
        assert files[i] in ms;
        var j :| 0 <= j < |ms| && ms[j] == files[i];
      }
    }
    UnappliedNone(files, after);
  }

  lemma {:induction false} UnappliedNone(files: seq<Migration>, applied: seq<MigrationRecord>)
    requires forall i :: 0 <= i < |files| ==> HasVersion(applied, files[i].version)
    ensures Unapplied(files, applied) == []
    decreases |files|
  {
    if files != [] {
      UnappliedNone(files[1..], applied);
    }
  }
}
