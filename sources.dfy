/**
 * `updateSource` (`PATCH /scraper/sources/:id`): the SET clauses and bound values built from
 * the fields the request supplies, numbered `$1, $2, ...`, with the id bound last.
 */
module Sources {
  import opened Wrappers
  import opened Text
  import opened JsValue

  /** The optional fields of `UpdateSourceRequest`; `None` is an absent (undefined) field. */
  datatype UpdateRequest = UpdateRequest(enabled: Option<bool>, config: Option<Value>)

  /** A value bound to a placeholder. */
  datatype Param = BoolParam(b: bool) | TextParam(s: string)

  datatype Statement = Statement(query: string, values: seq<Param>)

  /** `{ success }`, and the statement issued, if any. */
  datatype UpdateOutcome = UpdateOutcome(success: bool, statement: Option<Statement>)

  function Placeholder(k: nat): string {
    "$" + NatToString(k)
  }

  /** How many fields the request supplies. */
  function Supplied(req: UpdateRequest): (n: nat)
    ensures n <= 2
    ensures n == 0 <==> req.enabled.None? && req.config.None?
  {
    (if req.enabled.Some? then 1 else 0) + (if req.config.Some? then 1 else 0)
  }

  /** The SET clauses in order: `enabled`, then `config`, each with the next placeholder, then `updated_at`. */
  function Clauses(req: UpdateRequest): (cs: seq<string>)
    ensures |cs| == Supplied(req) + 1
    ensures cs[|cs| - 1] == "updated_at = NOW()"
  {
    (if req.enabled.Some? then ["enabled = " + Placeholder(1)] else [])
    + (if req.config.Some? then ["config = " + Placeholder(Supplied(req))] else [])
    + ["updated_at = NOW()"]
  }

  /** The bound values in placeholder order; `config` is bound as its JSON text, and the id comes last. */
  function Values(id: string, req: UpdateRequest, stringify: Value -> string): (vs: seq<Param>)
    ensures |vs| == Supplied(req) + 1
    ensures vs[|vs| - 1] == TextParam(id)
  {
    (if req.enabled.Some? then [BoolParam(req.enabled.value)] else [])
    + (if req.config.Some? then [TextParam(stringify(req.config.value))] else [])
    + [TextParam(id)]
  }

  /** The text of the query `UpdateSource` issues. */
  function Query(req: UpdateRequest): string {
    "UPDATE sources SET " + Join(Clauses(req), ", ") + " WHERE id = " + Placeholder(Supplied(req) + 1)
  }

  /** `updateSource({ id, ...req })`; `JSON.stringify` is a parameter. */
  method UpdateSource(id: string, req: UpdateRequest, stringify: Value -> string) returns (r: UpdateOutcome)
    ensures r.success <==> Supplied(req) > 0
    ensures !r.success ==> r.statement == None
    ensures r.success ==> r.statement == Some(Statement(Query(req), Values(id, req, stringify)))
  {
    var updates: seq<string> := [];
    var values: seq<Param> := [];
    var paramCount: nat := 1;
    if req.enabled.Some? {
      updates := updates + ["enabled = " + Placeholder(paramCount)];
      paramCount := paramCount + 1;
      values := values + [BoolParam(req.enabled.value)];
    }
    if req.config.Some? {
      updates := updates + ["config = " + Placeholder(paramCount)];
      paramCount := paramCount + 1;
      values := values + [TextParam(stringify(req.config.value))];
    }
    if |updates| == 0 {
      return UpdateOutcome(false, None);
    }
    updates := updates + ["updated_at = NOW()"];
    values := values + [TextParam(id)];
    assert updates == Clauses(req);
    assert values == Values(id, req, stringify);
    var query := "UPDATE sources SET " + Join(updates, ", ") + " WHERE id = " + Placeholder(paramCount);
    r := UpdateOutcome(true, Some(Statement(query, values)));
  }

  lemma PlaceholderCount(k: nat)
    ensures CountChar(Placeholder(k), '$') == 1
  {
    NatToStringHasNo(k, '$');
    CountCharAbsent(NatToString(k), '$');
    CountCharAppend("$", NatToString(k), '$');
  }

  lemma PrefixedPlaceholderCount(text: string, k: nat)
    requires '$' !in text
    ensures CountChar(text + Placeholder(k), '$') == 1
  {
    CountCharAbsent(text, '$');
    CountCharAppend(text, Placeholder(k), '$');
    PlaceholderCount(k);
  }

  lemma JoinTwoCount(a: string, b: string, sep: string)
    requires '$' !in sep
    ensures CountChar(Join([a, b], sep), '$') == CountChar(a, '$') + CountChar(b, '$')
  {
    assert Join([a, b], sep) == a + sep + b by {
      assert [a, b][1..] == [b];
    }
    CountCharAbsent(sep, '$');
    CountCharAppend(a, sep, '$');
    CountCharAppend(a + sep, b, '$');
  }

  lemma JoinThreeCount(a: string, b: string, d: string, sep: string)
    requires '$' !in sep
    ensures CountChar(Join([a, b, d], sep), '$') == CountChar(a, '$') + CountChar(b, '$') + CountChar(d, '$')
  {
    assert Join([a, b, d], sep) == a + sep + Join([b, d], sep) by {
      assert [a, b, d][1..] == [b, d];
    }
    JoinTwoCount(b, d, sep);
    CountCharAbsent(sep, '$');
    CountCharAppend(a, sep, '$');
    CountCharAppend(a + sep, Join([b, d], sep), '$');
  }

  lemma ClausesCount(req: UpdateRequest)
    requires Supplied(req) > 0
    ensures CountChar(Join(Clauses(req), ", "), '$') == Supplied(req)
  {
    var tail := "updated_at = NOW()";
    CountCharAbsent(tail, '$');
    var e := "enabled = " + Placeholder(1);
    PrefixedPlaceholderCount("enabled = ", 1);
    if req.enabled.Some? && req.config.Some? {
      var f := "config = " + Placeholder(2);
      PrefixedPlaceholderCount("config = ", 2);
      assert Clauses(req) == [e, f, tail];
      JoinThreeCount(e, f, tail, ", ");
    } else if req.enabled.Some? {
      assert Clauses(req) == [e, tail];
      JoinTwoCount(e, tail, ", ");
    } else {
      var f := "config = " + Placeholder(1);
      PrefixedPlaceholderCount("config = ", 1);
      assert Clauses(req) == [f, tail];
      JoinTwoCount(f, tail, ", ");
    }
  }

  lemma QueryCount(req: UpdateRequest)
    requires Supplied(req) > 0
    ensures CountChar(Query(req), '$') == Supplied(req) + 1
  {
    var head := "UPDATE sources SET ";
    var joined := Join(Clauses(req), ", ");
    var where := " WHERE id = ";
    CountCharAbsent(head, '$');
    CountCharAbsent(where, '$');
    ClausesCount(req);
    PlaceholderCount(Supplied(req) + 1);
    CountCharAppend(head, joined, '$');
    CountCharAppend(head + joined, where, '$');
    CountCharAppend(head + joined + where, Placeholder(Supplied(req) + 1), '$');
  }

  /**
   * The query has exactly as many placeholders as there are bound values: one for each
   * supplied field, numbered from `$1` without gaps, and one for the id, which binds to the
   * last value.
   */
  lemma PlaceholdersMatchValues(id: string, req: UpdateRequest, stringify: Value -> string)
    requires Supplied(req) > 0
    ensures CountChar(Query(req), '$') == |Values(id, req, stringify)|
  {
    QueryCount(req);
  }

  /** Placeholder `$k` of a SET clause binds the `k`-th value: `enabled` to the flag, `config` to its JSON text. */
  lemma ClausesBindTheirValues(id: string, req: UpdateRequest, stringify: Value -> string)
    ensures var cs := Clauses(req);
      var vs := Values(id, req, stringify);
      && (req.enabled.Some? ==> cs[0] == "enabled = $1" && vs[0] == BoolParam(req.enabled.value))
      && (req.config.Some? ==>
            var k := Supplied(req);
            cs[k - 1] == "config = " + Placeholder(k) && vs[k - 1] == TextParam(stringify(req.config.value)))
  {
    assert NatToString(1) == "1";
  }
}
