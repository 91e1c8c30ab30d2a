/**
 * What the two AI endpoints share: the `ideas` rows they read and whose status they
 * write, the extraction of a JSON object from a model's free-text reply, and the
 * Claude-then-GPT routing. A provider call (the HTTP request, the `ok` check and the
 * reading of the reply's text) is a `Result<string>` parameter: `Ok` with the text the
 * model returned, `Err` when the call threw.
 */
module AiResponse {
  import opened Wrappers

  /** The columns of an `ideas` row the AI endpoints use. */
  datatype IdeaRow = IdeaRow(userId: int, title: string, status: string)

  /** One `UPDATE ideas SET status = … WHERE id = …` statement, in the order issued. */
  datatype StatusWrite = StatusWrite(ideaId: int, status: string)

  datatype Provider = Claude | Gpt

  /** The position of the first `c` in `s`. */
  function FirstIndexOf(s: string, c: char): (r: Option<nat>)
    ensures r.Some? ==> r.value < |s| && s[r.value] == c && forall k :: 0 <= k < r.value ==> s[k] != c
    ensures r.None? ==> forall k :: 0 <= k < |s| ==> s[k] != c
  {
    if s == [] then None
    else if s[0] == c then Some(0)
    else match FirstIndexOf(s[1..], c)
      case None => None
      case Some(i) => Some(i + 1)
  }

  /** The position of the last `c` in `s`. */
  function LastIndexOf(s: string, c: char): (r: Option<nat>)
    ensures r.Some? ==> r.value < |s| && s[r.value] == c && forall k :: r.value < k < |s| ==> s[k] != c
    ensures r.None? ==> forall k :: 0 <= k < |s| ==> s[k] != c
  {
    if s == [] then None
    else if s[|s| - 1] == c then Some(|s| - 1)
    else LastIndexOf(s[..|s| - 1], c)
  }

  /**
   * `response.match(/\{[\s\S]*\}/)`: the leftmost match starts at the first `{` and,
   * the star being greedy, ends at the last `}`; there is a match exactly when some `}`
   * follows some `{`.
   */
  function JsonCandidate(s: string): (r: Option<string>)
    ensures r.Some? <==> exists i, j :: 0 <= i < j < |s| && s[i] == '{' && s[j] == '}'
  {
    match FirstIndexOf(s, '{')
    case None => None
    case Some(i) =>
      match LastIndexOf(s, '}')
      case None => None
      case Some(j) =>
        if i < j then Some(s[i..j + 1])
        else
          assert forall a, b :: 0 <= a < b < |s| && s[a] == '{' ==> s[b] != '}' by {
            forall a, b | 0 <= a < b < |s| && s[a] == '{'
              ensures s[b] != '}'
            {
              assert i <= a;
            }
          }
          None
  }

  /**
   * The candidate is the outermost brace-delimited stretch of the reply: it starts with
   * `{`, ends with `}`, no `{` comes before it and no `}` after it.
   */
  lemma JsonCandidateIsOutermost(s: string) returns (i: nat)
    requires JsonCandidate(s).Some?
    ensures var c := JsonCandidate(s).value;
      && |c| >= 2 && c[0] == '{' && c[|c| - 1] == '}'
      && i + |c| <= |s| && s[i..i + |c|] == c
      && (forall k :: 0 <= k < i ==> s[k] != '{')
      && (forall k :: i + |c| <= k < |s| ==> s[k] != '}')
  {
    i := FirstIndexOf(s, '{').value;
    var j := LastIndexOf(s, '}').value;
    var c := JsonCandidate(s).value;
    assert c == s[i..j + 1];
  }

  /**
   * `routeToAI` and `performStartupAnalysis`: Claude first, GPT only when Claude threw;
   * `None` when both threw. `parse` is the endpoint's reply parser, which never throws.
   * The second component lists the providers asked, in order.
   */
  function Route<T>(claude: Result<string>, gpt: Result<string>, parse: string -> T): (r: (Option<T>, seq<Provider>))
    ensures claude.Ok? ==> r.0 == Some(parse(claude.value))
    ensures claude.Err? && gpt.Ok? ==> r.0 == Some(parse(gpt.value))
    ensures r.0.None? <==> claude.Err? && gpt.Err?
    ensures |r.1| >= 1 && r.1[0] == Claude && r.1 <= [Claude, Gpt]
    ensures Gpt in r.1 <==> claude.Err?
  {
    if claude.Ok? then (Some(parse(claude.value)), [Claude])
    else if gpt.Ok? then (Some(parse(gpt.value)), [Claude, Gpt])
    else (None, [Claude, Gpt])
  }
}
