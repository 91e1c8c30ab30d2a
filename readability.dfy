/**
 * `enrichWithReadability`: the text of a fetched page (its `<body>` when there is one)
 * without scripts, styles and tags, with whitespace collapsed, its word count, reading
 * time at 200 words a minute and a 500-character excerpt.
 */
module Readability {
  import opened Wrappers
  import opened Text
  import opened Markup
  import opened ScraperTypes

  const UserAgent := "Mozilla/5.0 (compatible; EnrichmentBot/1.0)"
  const WordsPerMinute: nat := 200
  const ExcerptLength: nat := 500

  datatype ReadabilityResult = ReadabilityResult(
    content: Option<string>, excerpt: Option<string>, wordCount: nat, readingTime: nat)

  const Failed := ReadabilityResult(None, None, 0, 0)

  /** The request `fetch(url, { headers })` issues. */
  function PageRequest(url: string): (r: Request)
    ensures r.url == url && r.headers == map["User-Agent" := UserAgent]
  {
    Request(url, map["User-Agent" := UserAgent])
  }

  const BodyPattern := TagPattern("body", true, true)
  const ScriptPattern := TagPattern("script", true, true)
  const StylePattern := TagPattern("style", true, true)

  /** `bodyMatch ? bodyMatch[1] : html`. */
  function BodyHtml(html: string): (b: string)
    ensures FindFrom(html, BodyPattern, 0).None? ==> b == html
    ensures FindFrom(html, BodyPattern, 0).Some? ==> b == Inner(html, FindFrom(html, BodyPattern, 0).value)
  {
    match FindFrom(html, BodyPattern, 0)
    case None => html
    case Some(m) => Inner(html, m)
  }

  /** The replace chain: scripts and styles removed, tags turned into spaces, whitespace collapsed, then `trim`. */
  function Content(bodyHtml: string): string {
    Trim(CollapseSpaces(ReplaceTags(RemoveBlocks(RemoveBlocks(bodyHtml, ScriptPattern), StylePattern), " ")))
  }

  /** `Math.ceil(wordCount / 200)`. */
  function ReadingTime(wordCount: nat): (t: nat)
    ensures t * WordsPerMinute >= wordCount
    ensures t == 0 || (t - 1) * WordsPerMinute < wordCount
  {
    (wordCount + WordsPerMinute - 1) / WordsPerMinute
  }

  /** The result for a page whose markup is `html`. */
  function FromHtml(html: string): ReadabilityResult {
    var content := Content(BodyHtml(html));
    var wordCount := |Words(content)|;
    ReadabilityResult(Some(content), Some(Prefix(content, ExcerptLength)), wordCount, ReadingTime(wordCount))
  }

  /** `enrichWithReadability(url)`, given what the fetch yields. */
  function Enrich(outcome: HttpOutcome): (r: ReadabilityResult)
    ensures outcome.NetworkError? ==> r == Failed
    ensures outcome.Response? && !StatusOk(outcome.status) ==> r == Failed
    ensures outcome.Response? && StatusOk(outcome.status) ==> r == FromHtml(outcome.body)
  {
    match outcome
    case NetworkError(_) => Failed
    case Response(status, body) => if !StatusOk(status) then Failed else FromHtml(body)
  }

  /**
   * For a page that was read, the content has no surrounding whitespace and no two
   * adjacent whitespace characters, every whitespace character in it is a plain space,
   * the excerpt is its prefix of at most 500 characters, the word count is its number of
   * non-empty whitespace-separated words, and the reading time is the word count divided
   * by 200, rounded up.
   */
  lemma {:induction false} PageShape(html: string)
    ensures var r := FromHtml(html);
      && r.content.Some? && r.excerpt.Some?
      && var c := r.content.value;
      && (c == [] || (!IsSpace(c[0]) && !IsSpace(c[|c| - 1])))
      && Collapsed(c)
      && r.excerpt.value <= c && |r.excerpt.value| <= ExcerptLength
      && (|c| >= ExcerptLength ==> |r.excerpt.value| == ExcerptLength)
      && r.wordCount == |Words(c)|
      && r.readingTime * WordsPerMinute >= r.wordCount
      && (r.readingTime == 0 || (r.readingTime - 1) * WordsPerMinute < r.wordCount)
  {
    var t := ReplaceTags(RemoveBlocks(RemoveBlocks(BodyHtml(html), ScriptPattern), StylePattern), " ");
    CollapseSpacesCollapsed(t);
    TrimCollapsed(CollapseSpaces(t));
  }

  /** A page without a `<body>` element is processed whole. */
  lemma NoBodyUsesWholePage(html: string)
    requires forall p :: MatchAt(html, BodyPattern, p).None?
    ensures FromHtml(html).content == Some(Content(html))
  {
  }
}
