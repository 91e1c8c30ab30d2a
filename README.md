# saas-validator-suite core, modelled in Dafny

The saas-validator-suite backend gathers startup ideas and scores them. It works in four stages:

- Scrapers pull candidate items from RSS feeds, HTML pages and JSON APIs, deduplicate them by content hash, and publish each new item.
- An enrichment pipeline turns each published item into an idea. Six text extractors run on it: keyphrases, language, sentiment, entities, a hashed embedding and readability.
- Ideas are scored: weighted validation dimensions, comparison deltas, compliance keywords, and two AI endpoints whose free-text replies are parsed into scores with defaults.
- Around all of this sit stateful helpers: a TTL cache, three rate limiters, a webhook queue, a notification registry, loggers, validators, the error mapping and the migration manager. The frontend's web-vitals rating is modelled too.

Each core source file has its own Dafny module:

- Code made of expressions becomes functions over datatypes, with lemmas.
- Code that builds results step by step becomes methods with loops and invariants. These include the RSS and HTML parsers, the scrape run, the enrichment handler, the embedding buckets, the checksum, the import line loop, the score loops, the webhook passes and the redaction.
- Code that updates in-memory state becomes classes over `map`/`seq` fields. These are the cache, the limiters, the stores standing for database tables, the notification hub and the analyzers.
- Each method's `ensures` ties its result and new state to a specification function. The lemmas beside that function state what the source promises, such as bounds, ordering, "nothing else changes", idempotence and fallbacks.

Shared modules:

- `Wrappers`: Option and Result.
- `Text`: JavaScript string operations on `seq<char>`, one UTF-16 code unit per char: trim, whitespace split, ASCII `toLowerCase`, `split`/`join`, number rendering.
- `JsValue`: untyped JavaScript values, with objects as ordered field lists, truthiness, `||`, `?.`, `ToNumber` and object spread.
- `Keyed`: a string-keyed JavaScript `Map` that keeps insertion order.
- `Markup`: the tag-shaped regular expressions the adapters and the readability extractor use.

Inputs the model does not compute are parameters, so every property holds for any value of them:

- network responses, and each provider's reply or failure;
- the clock (`now`), jitter and random ids;
- database faults, for the queries whose members take them (the list is under "## Left out");
- `sha256`, HMAC, `JSON.parse`, `JSON.stringify`, the `URL` parser, `Math.sqrt`;
- the complex regular expressions.

Thrown exceptions are `Result`/`Option` error values, and `async` sequencing is plain sequential code.

Where the repository's documented behaviour and its code differ, the model follows the code:

- Every delivery to the enrichment pipeline inserts a new `running` job row, with no uniqueness check (`EnrichPipeline.DuplicateDeliveryAddsRows`).
- An idea whose title hash already exists is still inserted, only flagged as a duplicate (`EnrichPipeline.InsertedIdeaShape`).
- The HTML adapter's default title selector `h2, h3` yields the tag name `h2,`, which never matches, so no title is extracted under the defaults (`HtmlAdapter.DefaultTitleTag`, `HtmlAdapter.DefaultTitleNeedsLiteralTag`).
- `evictOldest` never evicts an entry created in the current millisecond, so every set of a new key within one millisecond skips eviction and the cache grows past `maxSize` without bound (`Cache.SameMillisecondOverflow`, `Cache.SameMillisecondGrowsWithoutBound`). An oldest entry stored under the key `""` is never evicted either, because of the `if (oldestKey)` guard; `Cache.FullCacheStaysBounded` needs a non-empty key for that reason.
- The platform logger's `apiKey` entry in its redaction list never matches a lower-cased key (`PlatformLog.ApiKeyNeverMatches`).

## Model

| member | source | states |
|---|---|---|
| Retry.RetryFrom | backend/scraper/adapters/base.ts:20-32 | Started at attempt a, `fn` runs between a+1 and 4 times. The outcome is the last run's. Every earlier run in the chain failed, and stopping before the fourth run means the last run succeeded. Each retry is preceded by one wait of 1000·2^k + jitter(k). |
| Retry.RetryWithBackoff | backend/scraper/adapters/base.ts:20-32 | `fn` runs at most 4 times. The call succeeds iff one of the four runs would succeed, and it then returns the first success with no further run. Otherwise `fn` ran exactly 4 times and the fourth error is rethrown. The waits between runs are the backoff delays 0, 1, … in order. |
| Retry.DelaysBounded | backend/scraper/adapters/base.ts:27-29 | With jitter in [0,1000), wait k lies in [1000·2^k, 1000·2^k + 1000) and the waits strictly increase. |
| Retry.TotalWaitWhenAllFail | backend/scraper/adapters/base.ts:22-31 | When every run fails there are exactly three waits, none after the last failure, and they total between 7000 and 10000 ms. |
| Retry.GenerateHash | backend/scraper/adapters/base.ts:34-37 | The hash is the SHA-256 of `url|title` and depends on nothing else. |
| Retry.GenerateHashSeparatorCollision | backend/scraper/adapters/base.ts:34-37 | Two pairs whose joined text is equal hash equal, for example ("a|b", "c") and ("a", "b|c"). |
| Markup.IndexFrom | backend/scraper/adapters/rss.ts:46-47 | Returns the leftmost position at or after `from` where the literal occurs, matched case-insensitively when asked. `None` means there is no occurrence at all. |
| Markup.MatchAt | backend/scraper/adapters/rss.ts:46 | A match of `<name[^>]*>([\s\S]*?)<\/name>` anchored at `p`: it opens with `<name…>` and ends on the first closing tag after the opening tag, the lazy body. |
| Markup.FindFrom | backend/scraper/adapters/rss.ts:47 | `String.match` without `g`: the match at the leftmost start position at or after `p`. `None` iff no position matches. |
| Markup.AllFrom | backend/scraper/adapters/rss.ts:38 | `matchAll` with `g`: the matches are all in bounds and do not overlap, and each begins at or after the end of the previous one. |
| Markup.Collect | backend/scraper/adapters/rss.ts:38-61 | The loop over `matchAll` computes the specification `CollectFrom`: one built value per match whose builder keeps it, in order. |
| Markup.CollectEveryMatch | backend/scraper/adapters/rss.ts:38-59 | A builder that never drops a body yields exactly one value per match, and value k is built from the body of match k. |
| Markup.CollectedFromSomeMatch | backend/scraper/adapters/rss.ts:38-59 | Every collected value comes from the body of some match of the search. |
| Markup.ReplaceTags | backend/scraper/adapters/html.ts:62 | `replace(/<[^>]+>/g, rep)` with an empty replacement never lengthens the text. |
| Markup.ReplaceTagsLeavesNoTag | backend/enrichment/enrichers/readability.ts:28 | With a replacement that holds no `<`, no match of `<[^>]+>` is left in the result. |
| Markup.ReplaceTagsFixesTagFree | backend/enrichment/enrichers/readability.ts:28 | Text with no match of `<[^>]+>` is left exactly as it was. |
| Markup.ReplaceTagsIdempotent | backend/enrichment/enrichers/readability.ts:28 | With a replacement that holds no `<`, replacing the tags a second time changes nothing. |
| Markup.TrimKeepsTagFree | backend/scraper/adapters/html.ts:62 | `trim` after the tag replacement cannot bring a tag back. |
| Markup.ReplaceTagsKeepsPlainText | backend/enrichment/enrichers/readability.ts:28 | Text without `<` is left exactly as it was. |
| Markup.RemoveBlocks | backend/enrichment/enrichers/readability.ts:26-27 | Removing every `<script>` or `<style>` block never lengthens the text. |
| Markup.RemoveBlocksChangesIffBlock | backend/enrichment/enrichers/readability.ts:26-27 | The text is changed exactly when it holds a block of the pattern. |
| Markup.RemoveBlocksCanLeaveABlock | backend/enrichment/enrichers/readability.ts:26 | The single pass does not re-scan its output: `<<b></b>b></b>` loses its inner block and becomes the block `<b></b>`. |
| RssAdapter.FeedHeaders | backend/scraper/adapters/rss.ts:12-18 | `If-None-Match` is sent iff the source has an etag, and then carries it. `If-Modified-Since` is sent iff it has a last-modified value, and then carries that. No other header is sent. |
| RssAdapter.ExtractTagIsLeftmost | backend/scraper/adapters/rss.ts:45-49 | `extractTag` is undefined iff no case-insensitive `<tag…>…</tag>` occurs. Otherwise it returns the trimmed body of the leftmost occurrence. |
| RssAdapter.ExtractTagTrimmed | backend/scraper/adapters/rss.ts:48 | A non-empty extracted body neither starts nor ends with whitespace. |
| RssAdapter.ItemObject | backend/scraper/adapters/rss.ts:43-56 | The pushed item has exactly the keys title, link, description, guid, pubDate and author, each holding its extracted value, and it has no `category`. |
| RssAdapter.ItemOf | backend/scraper/adapters/rss.ts:41-58 | Every `<item>` block is pushed, whatever it holds, as an object with the six item keys. |
| RssAdapter.ItemsFromMatches | backend/scraper/adapters/rss.ts:38-61 | `parseRSS` yields exactly one item per `<item>` block, in document order, and item k is built from block k. |
| RssAdapter.ParseRss | backend/scraper/adapters/rss.ts:37-62 | The loop returns the items of the specification `ItemsFrom(xml, 0)`. |
| RssAdapter.AttributedItemIgnored | backend/scraper/adapters/rss.ts:38 | The pattern is the literal `<item>`, so `<item id="1"></item>` is not an item block. |
| RssAdapter.Candidates | backend/scraper/adapters/rss.ts:29-33 | There is one candidate per item, in order. Its extId is the guid, else the link, else `<source.id>-<index>`. Its url is the link or "". Its raw is the item itself. |
| RssAdapter.Attempt | backend/scraper/adapters/rss.ts:20-33 | A network error is rethrown to the retry loop. A 304 gives an empty list. Any other status gives the candidates parsed from the body. |
| RssAdapter.Fetch | backend/scraper/adapters/rss.ts:5-35 | A missing url throws "RSS feed URL not configured" before any request, and a null config throws before any request. At most 4 requests are made, each to the feed url with the conditional headers. With a url the fetch is `FetchFeed`. |
| RssAdapter.FetchFeed | backend/scraper/adapters/rss.ts:11-34 | The request is issued 1 to 4 times. The result is the attempt on the last response, and every earlier issue threw. It succeeds iff one of the first four issues got a response. The waits are the backoff delays, one fewer than the issues. |
| RssAdapter.NotModifiedYieldsNothing | backend/scraper/adapters/rss.ts:22-24 | A 304 on the first request ends the fetch with no candidates after exactly one request. |
| RssAdapter.Normalize | backend/scraper/adapters/rss.ts:64-88 | title, url and summary default to "" when falsy. author is copied. postedAt is set iff pubDate is truthy. tags are [] for a falsy category, `String(c)` of each item, in order, for an array, and one string otherwise. |
| RssAdapter.ParsedItemsHaveNoTags | backend/scraper/adapters/rss.ts:51-78 | Items produced by `parseRSS` never carry a category, so their normalised tags are always empty. |
| HtmlAdapter.ReadSelectors | backend/scraper/adapters/html.ts:7-43 | Without a `selectors` object every selector takes its default: article, "h2, h3", a and p. For each of the four, a truthy configured value replaces its default and a falsy one leaves the default. The container selector is converted to its string, as its template literal does. The title, link and summary selectors are kept as configured values, so a non-string one reaches `selector.split`. |
| HtmlAdapter.TagName | backend/scraper/adapters/html.ts:52 | The tag is the longest prefix of the selector that contains none of `.`, `[`, `#` or whitespace. |
| HtmlAdapter.DefaultTitleTag | backend/scraper/adapters/html.ts:41-52 | The default title selector "h2, h3" yields the tag name "h2,". |
| HtmlAdapter.DefaultTitleNeedsLiteralTag | backend/scraper/adapters/html.ts:41-55 | Under the default selectors, no title is found in a container unless it literally contains `<h2,`. |
| HtmlAdapter.ExtractFirst | backend/scraper/adapters/html.ts:51-63 | Nothing is found when the container holds no `<tag…>…</tag>` block of the selector's tag. Otherwise the leftmost block gives its body with tags removed and trimmed, or the `href` inside the whole block. |
| HtmlAdapter.ExtractFirstTrimmed | backend/scraper/adapters/html.ts:62 | Extracted text holds no match of `<[^>]+>` and carries no leading or trailing whitespace. |
| HtmlAdapter.ExtractHrefHasNoQuote | backend/scraper/adapters/html.ts:57-59 | An extracted link never contains a quote character. |
| HtmlAdapter.KeepItem | backend/scraper/adapters/html.ts:65-73 | The item `{title, url, summary}` is kept iff its title or its url is truthy, and it then holds exactly those three fields. |
| HtmlAdapter.ParseHtml | backend/scraper/adapters/html.ts:39-77 | The loop over the container matches returns the specification `Parsed(html, selectors)`. |
| HtmlAdapter.Parsed | backend/scraper/adapters/html.ts:39-77 | Parsing throws "selector.split is not a function" iff the page holds a container and the title, link or summary selector is not a string. Otherwise it gives one item per container with a title or a link, in document order. |
| HtmlAdapter.UnsplittableYieldsNothing | backend/scraper/adapters/html.ts:48-52 | With a selector that is not a string no container yields an item, so a page without containers parses to no items. |
| HtmlAdapter.ParsedItemsHaveTitleOrUrl | backend/scraper/adapters/html.ts:71-73 | Every item `parseHTML` returns is an object with a truthy title or a truthy url. |
| HtmlAdapter.PageHeaders | backend/scraper/adapters/html.ts:14-20 | Every request carries the fixed User-Agent. It carries `If-None-Match` iff an etag is stored. It never carries `If-Modified-Since`, and carries no other header. |
| HtmlAdapter.Candidates | backend/scraper/adapters/html.ts:31-35 | There is one candidate per item, in order. Its url is the item's url or else the page url. Its extId hashes that url with the title, or with `item-<index>` when the title is missing. |
| HtmlAdapter.Attempt | backend/scraper/adapters/html.ts:22-35 | A network error is rethrown to the retry loop. A 304 gives no candidates. Any other status is parsed without checking it. A parse that throws is rethrown, and otherwise each item becomes a candidate. |
| HtmlAdapter.SplittableAttemptFailsOnlyOffline | backend/scraper/adapters/html.ts:22-35 | With string selectors an attempt succeeds iff the request got a response. |
| HtmlAdapter.UnsplittableSelectorFails | backend/scraper/adapters/html.ts:28-52 | With a non-string title, link or summary selector, a non-304 response throws iff the page holds a container; without one it gives no candidates. |
| HtmlAdapter.Fetch | backend/scraper/adapters/html.ts:5-37 | A missing url throws "HTML page URL not configured" before any request, and a null config throws before any request. At most 4 requests are made, each to the page url with the page headers. With a url the fetch is `FetchPage` with the configured selectors. |
| HtmlAdapter.FetchPage | backend/scraper/adapters/html.ts:13-36 | The request is issued 1 to 4 times. The result is the attempt on the last response, and every earlier attempt threw. The fetch succeeds iff one of the first four attempts succeeds, and then some issue got a response. The waits are the backoff delays, one fewer than the issues. |
| HtmlAdapter.SplittablePageFailsOnlyOffline | backend/scraper/adapters/html.ts:13-36 | With string selectors every earlier issue met a network error, and the fetch succeeds iff one of the first four issues got a response. |
| HtmlAdapter.Normalize | backend/scraper/adapters/html.ts:79-88 | title and url default to "". summary and author are copied. postedAt is set iff it is truthy. tags default to []. |
| Readability.PageRequest | backend/enrichment/enrichers/readability.ts:10-14 | The page is requested at the given url with only the enrichment User-Agent header. |
| Readability.BodyHtml | backend/enrichment/enrichers/readability.ts:22-23 | The body is the inner text of the first `<body…>` element, or the whole page when there is none. |
| Readability.ReadingTime | backend/enrichment/enrichers/readability.ts:34 | The reading time is the least t with 200·t ≥ wordCount, which is `Math.ceil(wordCount / 200)`. |
| Readability.Enrich | backend/enrichment/enrichers/readability.ts:8-48 | A thrown fetch or a non-2xx status gives `{wordCount: 0, readingTime: 0}` with no content. A page that was read gives the result computed from its HTML. |
| Readability.PageShape | backend/enrichment/enrichers/readability.ts:25-43 | The content is trimmed, with only single spaces between words. The excerpt is its prefix of at most 500 characters, exactly 500 when the content is that long. wordCount counts its words. readingTime is wordCount/200 rounded up. |
| Readability.NoBodyUsesWholePage | backend/enrichment/enrichers/readability.ts:22-23 | A page without a `<body>` element is processed whole. |
| ApiAdapter.ConfigText | backend/scraper/adapters/api.ts:8-9 | A truthy configured value is used as its string. Otherwise the default field name applies. |
| ApiAdapter.ApiHeaders | backend/scraper/adapters/api.ts:16-26 | `Accept: application/json` is always sent. `Authorization: Bearer <key>` is sent iff an api key is configured. `If-None-Match` is sent iff an etag is stored. No other header is sent. |
| ApiAdapter.SelectItems | backend/scraper/adapters/api.ts:39 | An array is used as is. A null or undefined body throws. Otherwise the items come from `data.items`, else `data.data`, else []. |
| ApiAdapter.MapItems | backend/scraper/adapters/api.ts:41-45 | The mapping succeeds iff no item is null or undefined. It then gives one candidate per item, in order, with extId `item[idField] \|\| item.id \|\| ''` and url `item[urlField] \|\| item.url \|\| ''`. |
| ApiAdapter.Attempt | backend/scraper/adapters/api.ts:28-45 | A network error is rethrown. A 304 gives no candidates. A non-ok status throws "API error: <status>". For an ok status, a body that is not JSON throws its parse error, an items selection that throws is passed on, and otherwise the result is the mapping of the selected items. |
| ApiAdapter.Fetch | backend/scraper/adapters/api.ts:5-47 | A missing url throws "API URL not configured" before any request, and a null config throws before any request. At most 4 requests are made, each to the api url with the api headers. With a url the fetch is `FetchApi` with the configured id and url fields. |
| ApiAdapter.FetchApi | backend/scraper/adapters/api.ts:15-46 | The request is issued 1 to 4 times. The result is the last attempt's, and every earlier attempt failed. It succeeds iff one of the first four attempts would. Success needs a response. The waits are the backoff delays, one fewer than the issues. |
| ApiAdapter.ServerErrorsAreRetried | backend/scraper/adapters/api.ts:34-36 | An error status is thrown inside the retried block. A server that always answers with one uses all 4 attempts and ends with "API error: <status>". |
| ApiAdapter.Normalize | backend/scraper/adapters/api.ts:49-78 | Each field is read under its configured name or its default. title and url default to "". postedAt is set iff the date field is truthy. tags are [] when falsy, the array when it is one, and a one-string list otherwise. |
| ScraperTypes.Retried | backend/scraper/adapters/base.ts:20-32 | Retrying one request issues it 1 to 4 times, always unchanged. The result is the last attempt's; every earlier attempt failed. It succeeds iff one of the first four attempts would, and after a failure all 4 were made. Success implies some issue got a response. The waits are the backoff delays in order, one fewer than the attempts. |
| ScraperTypes.RetriedOnResponse | backend/scraper/adapters/base.ts:20-32 | When an attempt succeeds exactly when its issue got a response, every earlier issue met a network error and the retry succeeds iff one of the first four issues got a response. |
| Sources.Supplied | backend/scraper/sources.ts:57-65 | Zero, one or two fields are supplied. Zero means that neither `enabled` nor `config` was given. |
| Sources.Clauses | backend/scraper/sources.ts:53-71 | There is one SET clause per supplied field, followed by `updated_at = NOW()`. |
| Sources.Values | backend/scraper/sources.ts:54-72 | There is one bound value per supplied field, followed by the id. |
| Sources.UpdateSource | backend/scraper/sources.ts:49-81 | The update succeeds iff some field is supplied. An empty request issues no statement. Otherwise it issues exactly the built query with the built values. |
| Sources.PlaceholdersMatchValues | backend/scraper/sources.ts:53-77 | The query has exactly as many `$` placeholders as there are bound values: one per supplied field, and one for the id in the WHERE clause. |
| Sources.ClausesBindTheirValues | backend/scraper/sources.ts:57-65 | `enabled` takes `$1` and binds the flag. `config` takes the next number and binds its JSON text. |
| Sources.QueryCount | backend/scraper/sources.ts:75 | The full query contains one placeholder more than there are supplied fields. |
| ScrapeRun.CreateAdapter | backend/scraper/run.ts:115-126 | Each of rss, api and html gets its own adapter iff the source has that type. Any other type throws "Unknown source type: <type>". |
| ScrapeRun.Selected | backend/scraper/run.ts:34-50 | A source is selected iff it is enabled and, when a non-empty name is requested, carries that name. |
| ScrapeRun.ProcessItem | backend/scraper/run.ts:61-96 | One candidate publishes at most one event and never writes `sources`. |
| ScrapeRun.ProcessItems | backend/scraper/run.ts:61-96 | The inner loop publishes at most one event per candidate, one per candidate counted as normalised, and leaves `sources` alone. |
| ScrapeRun.ProcessSource | backend/scraper/run.ts:55-104 | For one source, the normalised count never exceeds the fetched count, and one event is published per normalised item. |
| ScrapeRun.RunAll | backend/scraper/run.ts:55-105 | Over all selected sources, itemsNormalized ≤ itemsFound, and the event log grows by exactly itemsNormalized. |
| ScrapeRun.RunSpec | backend/scraper/run.ts:30-113 | The response reports no more normalised items than found ones, and exactly one event per normalised item was published. |
| ScrapeRun.ScrapeStore.constructor | backend/scraper/run.ts:39 | The store starts with the given `sources` table, no raw items and no published events. |
| ScrapeRun.ScrapeStore.InsertRawItem | backend/scraper/run.ts:73-80 | The row is appended unflagged with the next id, which is returned. Nothing else changes. |
| ScrapeRun.ScrapeStore.FlagNormalized | backend/scraper/run.ts:84-87 | Sets `normalized = true` on the rows with that id and changes nothing else. |
| ScrapeRun.ScrapeStore.Publish | backend/scraper/run.ts:89-93 | Appends the event to the topic and changes nothing else. |
| ScrapeRun.ScrapeStore.TouchSource | backend/scraper/run.ts:98-101 | Stamps `last_fetch_at` on that source and changes nothing else. |
| ScrapeRun.HandleCandidate | backend/scraper/run.ts:61-96 | The statements issued for one candidate take the store to exactly the state the specification `ProcessItem` gives. |
| ScrapeRun.HandleCandidates | backend/scraper/run.ts:61-96 | The inner loop, left at the first throw, takes the store to the state `ProcessItems` gives. |
| ScrapeRun.Run | backend/scraper/run.ts:30-113 | The endpoint's response and final store are exactly those of the specification `RunSpec`. |
| ScrapeRun.FailureStops | backend/scraper/run.ts:55-104 | Once a candidate throws, the rest of that source's candidates change nothing. |
| ScrapeRun.DuplicateSkipped | backend/scraper/run.ts:62-71 | A candidate whose hash is stored already is skipped: no row is inserted and nothing is published. |
| ScrapeRun.NewItemPublished | backend/scraper/run.ts:73-95 | A new candidate is stored as the next row, flagged normalised, and announced with that row's id and the normalised title and url. |
| ScrapeRun.FlagFailureLeavesRowUnflagged | backend/scraper/run.ts:80-89 | When the flagging statement throws, the inserted row stays unflagged and nothing is published. |
| ScrapeRun.FlagOnlyNew | backend/scraper/run.ts:84-87 | With sequential ids, flagging the row just inserted changes that row only. |
| ScrapeRun.AppendRowConsistent | backend/scraper/run.ts:64-80 | Appending a row with the next id and an unseen hash keeps the store consistent: hashes stay unique and ids sequential. |
| ScrapeRun.AppendEventConsistent | backend/scraper/run.ts:89-93 | Announcing the newest row once it is flagged keeps every event pointing at a flagged row, in increasing id order. |
| ScrapeRun.ItemPreserves | backend/scraper/run.ts:61-96 | Handling one candidate keeps the store consistent, keeps every row and event, and leaves `sources` alone. |
| ScrapeRun.ItemsPreserve | backend/scraper/run.ts:61-96 | The inner loop keeps the store consistent and keeps every row and event. |
| ScrapeRun.SourcePreserves | backend/scraper/run.ts:55-104 | Handling a source keeps the store consistent, and writes no column of `sources` except `last_fetch_at`. |
| ScrapeRun.TouchPreserves | backend/scraper/run.ts:98-101 | Stamping `last_fetch_at` keeps consistency and writes nothing else. |
| ScrapeRun.RunAllPreserves | backend/scraper/run.ts:55-105 | The outer loop keeps the store consistent and only stamps `last_fetch_at`. |
| ScrapeRun.RunPreserves | backend/scraper/run.ts:30-113 | A run keeps the store consistent, so no two raw items ever share a hash. It keeps every row and event it found, and never writes back `etag` or `last_modified`. sourcesProcessed is the number of selected sources, whatever failed. |
| ScrapeRun.ItemKeepsHashes | backend/scraper/run.ts:61-96 | A stored hash stays stored after one candidate. |
| ScrapeRun.ItemsKeepHashes | backend/scraper/run.ts:61-96 | A stored hash stays stored after the inner loop. |
| ScrapeRun.AllStored | backend/scraper/run.ts:61-96 | Without faults, every candidate's hash is stored once its source has been handled. |
| ScrapeRun.AllSkipped | backend/scraper/run.ts:62-71 | Candidates whose hashes are all stored change nothing when no lookup fails. |
| ScrapeRun.ReprocessingAddsNothing | backend/scraper/run.ts:61-96 | Handling the same candidates a second time, without faults, inserts nothing and publishes nothing. |
| ScrapeRun.SourceRerunAddsNothing | backend/scraper/run.ts:55-104 | Re-running a source on identical data, without faults, adds no row and no event. |
| ScrapeRun.StampedOnCompletion | backend/scraper/run.ts:98-103 | `last_fetch_at` is stamped exactly when the source completed. A source that threw leaves `sources` as it was. |
| ScrapeRun.UnknownTypeNoOp | backend/scraper/run.ts:55-126 | A source of unknown type changes nothing and counts nothing. |
| ScrapeRun.UnknownTypeIsolated | backend/scraper/run.ts:55-105 | Removing a source of unknown type from the selection leaves the result for the sources after it unchanged. |
| EnrichPipeline.TitleOf | backend/enrichment/pipeline.ts:32 | The title is the raw item's title when truthy, else the event's title when truthy, else "". |
| EnrichPipeline.SummaryOf | backend/enrichment/pipeline.ts:33 | The summary is the raw summary when truthy, else the raw description when truthy, else "". |
| EnrichPipeline.RawTags | backend/enrichment/pipeline.ts:61-63 | The item's own tags are the `String` of each element when `raw.tags` is an array, and none otherwise. |
| EnrichPipeline.EnrichText | backend/enrichment/pipeline.ts:37-44 | The keyphrases of the signals are exactly those `extractKeyphrases` computes from `title summary`. |
| EnrichPipeline.Analyze | backend/enrichment/pipeline.ts:29-64 | Reading a field of a null or undefined raw item throws. The analysis succeeds iff the raw item is an object-like value and the chosen title is a string, which `hashTitle` needs. It then carries that title, the summary and the raw item. |
| EnrichPipeline.FindItem | backend/enrichment/pipeline.ts:20-27 | A row is found iff some raw item has the event's id, and the row found has that id. |
| EnrichPipeline.FailJobs | backend/enrichment/pipeline.ts:93-98 | The failure update rewrites rows in place and never adds or removes one. |
| EnrichPipeline.CompleteJobs | backend/enrichment/pipeline.ts:85-88 | The completion update rewrites rows in place and never adds or removes one. |
| EnrichPipeline.Record | backend/enrichment/pipeline.ts:46-88 | The writes after the analysis leave raw items alone, keep the number of job rows, and append at most one idea while keeping the earlier ones. A failed duplicate query, idea insert or completion update throws and leaves the jobs as they were. |
| EnrichPipeline.AttemptWith | backend/enrichment/pipeline.ts:14-88 | The `try` block adds one job row unless the insert itself failed, appends at most one idea, and never touches raw items. After the insert, a failure of any later query throws, and a block that throws leaves the new job running. |
| EnrichPipeline.HandleWith | backend/enrichment/pipeline.ts:12-100 | A delivery never changes the raw items. When the `try` block throws and the `catch` block's update fails too, the tables stay as the `try` block left them. |
| EnrichPipeline.Rejection | backend/enrichment/pipeline.ts:89-99 | The handler rejects iff the `try` block threw and the `catch` block's update failed, and it rejects with that update's error. |
| EnrichPipeline.EnrichStore.constructor | backend/enrichment/pipeline.ts:11 | The store starts with the given raw items, jobs and ideas. |
| EnrichPipeline.EnrichStore.AddJob | backend/enrichment/pipeline.ts:15-18 | Appends the job row and changes nothing else. |
| EnrichPipeline.EnrichStore.AddIdea | backend/enrichment/pipeline.ts:66-83 | Appends the idea and changes nothing else. |
| EnrichPipeline.EnrichStore.Complete | backend/enrichment/pipeline.ts:85-88 | Marks the item's jobs done with the result and changes nothing else. |
| EnrichPipeline.EnrichStore.Fail | backend/enrichment/pipeline.ts:93-98 | Marks the item's jobs failed with one more attempt and the error, and changes nothing else. |
| EnrichPipeline.RunEnrichers | backend/enrichment/pipeline.ts:37-44 | The six enrichers compute the specification `EnrichText`. |
| EnrichPipeline.AnalyzeItem | backend/enrichment/pipeline.ts:29-64 | The field reads, the enrichers and the tag list compute the specification `Analyze`. |
| EnrichPipeline.ItemTags | backend/enrichment/pipeline.ts:60-64 | The tag loop computes the specification `Tags`. |
| EnrichPipeline.Process | backend/enrichment/pipeline.ts:14-88 | The `try` block takes the store to the state, and yields the error, that `AttemptWith` gives. |
| EnrichPipeline.Persist | backend/enrichment/pipeline.ts:46-88 | The duplicate query, the idea insert and the completion produce the state and error `Record` gives. |
| EnrichPipeline.HandleDelivery | backend/enrichment/pipeline.ts:12-100 | One delivery, with its `catch` block, takes the store to the state `Handle` gives, and rejects with the error `Rejection` gives. |
| EnrichPipeline.RecordSettlesOnSuccess | backend/enrichment/pipeline.ts:85-88 | When the writes succeed, no job of the item is left running. |
| EnrichPipeline.DeliverySettlesJobs | backend/enrichment/pipeline.ts:14-99 | Unless the handler rejects, after a delivery no job of the item is left running or queued. |
| EnrichPipeline.FailedCatchLeavesJobRunning | backend/enrichment/pipeline.ts:14-99 | When a query after the job insert fails and the `catch` block's update fails too, the new job is left running, so the item's jobs do not settle, and the handler rejects with the update's error. |
| EnrichPipeline.DeliveryAddsJob | backend/enrichment/pipeline.ts:15-18 | Each delivery whose insert succeeds adds one job row without checking for an existing one, and adds at most one idea. |
| EnrichPipeline.DuplicateDeliveryAddsRows | backend/enrichment/pipeline.ts:15-18 | Delivering the same event twice, which at-least-once delivery allows, leaves two job rows for it. |
| EnrichPipeline.MissingItemFailsJobs | backend/enrichment/pipeline.ts:25-27 | When the `catch` block's update succeeds, a missing raw item inserts no idea, and fails every job row of the item, the new one included, with one more attempt and the not-found error. |
| EnrichPipeline.SuccessfulDelivery | backend/enrichment/pipeline.ts:46-88 | A fault-free delivery appends exactly one idea with the next id. `isDuplicate` holds iff an earlier idea has the same title hash. Every job of the item is done with `{ideaId, signals}`, and other jobs are unchanged. |
| EnrichPipeline.InsertedIdeaShape | backend/enrichment/pipeline.ts:66-81 | The inserted idea is 'completed' with source 'scraper'. It keeps the event's url, the title, summary, tags and raw data, and the title hash. |
| EnrichPipeline.FailedWriteInsertsNoIdea | backend/enrichment/pipeline.ts:46-98 | A failed duplicate query or idea insert leaves the ideas alone. Unless the `catch` block's update fails too, it fails the item's jobs. |
| EnrichPipeline.TagsShape | backend/enrichment/pipeline.ts:60-64 | The tags are the item's own tags followed by the phrases of at most five keyphrases, in rank order. |
| EnrichPipeline.TitleHashCollisions | backend/enrichment/pipeline.ts:103-106 | Titles that differ only in letter case, or in surrounding whitespace, share a title hash. |
| EnrichRun.Eligible | backend/enrichment/run.ts:41-45 | An item is eligible iff it is a normalized raw item with no done or running job. Table order is kept. |
| EnrichRun.Selected | backend/enrichment/run.ts:41-45 | The bulk query returns at most 100 rows. |
| EnrichRun.QueuedJobs | backend/enrichment/run.ts:47-52 | One queued job per selected item, in order. |
| EnrichRun.RunSpec | backend/enrichment/run.ts:21-56 | Enqueuing never touches raw items or ideas. |
| EnrichRun.Run | backend/enrichment/run.ts:21-56 | The endpoint's response and final store are those of the specification `RunSpec`. |
| EnrichRun.SingleQueuesOnlyWithoutOpenJob | backend/enrichment/run.ts:25-38 | A single-item run appends one queued job iff the item has no queued or running job, and otherwise changes nothing. It reports itemsQueued = 1 either way. |
| EnrichRun.SingleIsIdempotent | backend/enrichment/run.ts:25-36 | Asking twice for the same item queues it once. |
| EnrichRun.BulkQueuesEligible | backend/enrichment/run.ts:41-54 | A bulk run selects the first 100 eligible items, or all of them when there are fewer. It appends one queued job for each and reports how many, which is at most 100. |
| EnrichRun.QueuedJobsClaimNothing | backend/enrichment/run.ts:42-43 | Queued jobs never count as done or running for the bulk query's exclusion. |
| EnrichRun.EligibleUnderQueued | backend/enrichment/run.ts:42-43 | Adding queued jobs leaves the set of eligible items unchanged. |
| EnrichRun.BulkRequeues | backend/enrichment/run.ts:42-52 | A second bulk run selects the same items again and queues a second job for each. |
| Keyphrases.KeepWords | backend/enrichment/enrichers/keyphrases.ts:11 | Every kept word is longer than three characters, is not a stop word and comes from the input. Every such input word is kept. |
| Keyphrases.Tokens | backend/enrichment/enrichers/keyphrases.ts:11 | Every token is a kept word that contains no whitespace. |
| Keyphrases.Count | backend/enrichment/enrichers/keyphrases.ts:13-16 | A word's count is positive iff the word occurs, and never exceeds the number of words. |
| Keyphrases.Distinct | backend/enrichment/enrichers/keyphrases.ts:13-18 | The keys of `wordFreq` are exactly the words that occur, each once. |
| Keyphrases.CountWords | backend/enrichment/enrichers/keyphrases.ts:13-16 | The `forEach` builds a table whose keys are exactly the words, each mapped to its number of occurrences, with the keys in first-occurrence order. |
| Keyphrases.EntriesOf | backend/enrichment/enrichers/keyphrases.ts:18 | `Object.entries` gives one (word, count) pair per distinct word, in key order. |
| Keyphrases.Insert | backend/enrichment/enrichers/keyphrases.ts:19 | Inserting into a list sorted by descending count keeps it sorted and adds one entry. |
| Keyphrases.InsertPermutes | backend/enrichment/enrichers/keyphrases.ts:19 | Insertion adds exactly the one entry, as a multiset. |
| Keyphrases.SortDesc | backend/enrichment/enrichers/keyphrases.ts:19 | The sort by `b[1] - a[1]` returns a list sorted by descending count, of the same length. |
| Keyphrases.SortPermutes | backend/enrichment/enrichers/keyphrases.ts:19 | The sort is a permutation of its input. |
| Keyphrases.Ranked | backend/enrichment/enrichers/keyphrases.ts:18-20 | At most ten entries are kept, sorted by descending frequency. |
| Keyphrases.MaxFreq | backend/enrichment/enrichers/keyphrases.ts:22 | The divisor is at least 1, so the scores are always defined. |
| Keyphrases.Scored | backend/enrichment/enrichers/keyphrases.ts:24-27 | One keyphrase per ranked entry, whose score is its frequency divided by the largest frequency. |
| Keyphrases.ScoredBounds | backend/enrichment/enrichers/keyphrases.ts:22-27 | Over sorted counted entries, the first score is exactly 1, every score lies in (0, 1], and the scores do not increase. |
| Keyphrases.ExtractKeyphrases | backend/enrichment/enrichers/keyphrases.ts:10-30 | The imperative pipeline returns the keyphrases of the specification `KeyphrasesOf`. |
| Keyphrases.EntryOccurs | backend/enrichment/enrichers/keyphrases.ts:13-18 | Every entry counts a word that occurs, with its exact number of occurrences. |
| Keyphrases.RankedAreCounted | backend/enrichment/enrichers/keyphrases.ts:11-20 | Each kept phrase is a token of the text, and its frequency is its number of occurrences. |
| Keyphrases.RankedDistinct | backend/enrichment/enrichers/keyphrases.ts:18-20 | No phrase is ranked twice. |
| Keyphrases.KeyphraseBounds | backend/enrichment/enrichers/keyphrases.ts:10-30 | There are at most ten distinct phrases. The first score is 1, all lie in (0, 1], and they do not increase. |
| Keyphrases.NoTokensNoPhrases | backend/enrichment/enrichers/keyphrases.ts:11-29 | A text none of whose words survives the filter has no keyphrases. |
| Keyphrases.EmptyTextNoPhrases | backend/enrichment/enrichers/keyphrases.ts:11-29 | The empty text has no keyphrases. |
| Language.Tokens | backend/enrichment/enrichers/language.ts:14 | At most the first 100 words are considered. |
| Language.Hits | backend/enrichment/enrichers/language.ts:19 | A language's score never exceeds the number of words. |
| Language.CountHits | backend/enrichment/enrichers/language.ts:18-20 | The loop fills one score per language code, equal to the specification `ScoresOf`. |
| Language.Best | backend/enrichment/enrichers/language.ts:22 | The first entry after the stable descending sort is the first language holding the largest score. |
| Language.Confidence | backend/enrichment/enrichers/language.ts:28 | For a positive count the confidence lies in [0.1, 1]. |
| Language.DetectLanguage | backend/enrichment/enrichers/language.ts:13-34 | The imperative detection returns the specification `LanguageOf(text)`. |
| Language.NoHitsDefaultsToEnglish | backend/enrichment/enrichers/language.ts:24-26 | When no language scores, the result is English with confidence 0.5. |
| Language.WinnerHasMostHits | backend/enrichment/enrichers/language.ts:22-33 | When some language scores, the winner has the most hits, the earlier language in table order wins a tie, and the confidence lies in [0.1, 1]. |
| Sentiment.RawScore | backend/enrichment/enrichers/sentiment.ts:19-24 | The raw score, positive hits minus negative hits, lies between minus and plus the number of words. |
| Sentiment.Accumulate | backend/enrichment/enrichers/sentiment.ts:19-24 | The `forEach` loop computes the specification `RawScore`. |
| Sentiment.Normalized | backend/enrichment/enrichers/sentiment.ts:26 | The normalised score always lies in [-1, 1]. |
| Sentiment.LabelOf | backend/enrichment/enrichers/sentiment.ts:28-35 | The label is positive iff the score is above 0.1, negative iff it is below -0.1, and neutral iff it lies in [-0.1, 0.1]. |
| Sentiment.AnalyzeSentiment | backend/enrichment/enrichers/sentiment.ts:16-38 | The imperative analysis returns the specification `SentimentOf(text)`. |
| Sentiment.NormalizedSign | backend/enrichment/enrichers/sentiment.ts:26 | The normalised score lies in [-1, 1] and has the sign of the raw score, in all three cases. |
| Sentiment.ShortTextSaturates | backend/enrichment/enrichers/sentiment.ts:26 | With at most ten words the divisor is 1, so a net score of +1 or more gives exactly 1, and -1 or less gives exactly -1. |
| Sentiment.NoHitsIsNeutral | backend/enrichment/enrichers/sentiment.ts:16-37 | A text with no word from either set scores 0 and is neutral. |
| Sentiment.SentimentBounds | backend/enrichment/enrichers/sentiment.ts:16-38 | The result's score lies in [-1, 1] and agrees in sign with the raw score, and its label follows the 0.1 thresholds. |
| Entities.Tagged | backend/enrichment/enrichers/entities.ts:16-19 | There is one entity per match, in order, carrying the matched text and the pattern's type. |
| Entities.RunAt | backend/enrichment/enrichers/entities.ts:22 | A capitalised-run match starting at p ends after one of the words of the longest `[A-Z][a-z]+` chain from p, other than the first, and lies within the text. |
| Entities.Kept | backend/enrichment/enrichers/entities.ts:24-26 | Each match contributes at most one proper noun. |
| Entities.EntitiesOf | backend/enrichment/enrichers/entities.ts:12-30 | At most 50 entities are returned. They are a prefix of everything pushed, and all of it when fewer than 50 were pushed. |
| Entities.PushTagged | backend/enrichment/enrichers/entities.ts:17-19 | The inner loop appends exactly the tagged matches of one pattern. |
| Entities.ScanProperNouns | backend/enrichment/enrichers/entities.ts:22-27 | The scan over capitalised runs computes the specification `ProperNounsFrom(text, 0)`. |
| Entities.ScanStep | backend/enrichment/enrichers/entities.ts:22-27 | The global search either skips a position or takes the run that starts there and resumes at its end. |
| Entities.ExtractEntities | backend/enrichment/enrichers/entities.ts:12-30 | The imperative extraction returns the specification `EntitiesOf`. |
| Entities.ChainWordCount | backend/enrichment/enrichers/entities.ts:22-24 | A capitalised chain cut after its j-th word splits on whitespace into j + 1 words. |
| Entities.RunWords | backend/enrichment/enrichers/entities.ts:22 | A capitalised-run match has at least two words and occurs in the text. |
| Entities.ProperNounWords | backend/enrichment/enrichers/entities.ts:22-27 | A kept proper noun has two to four words and occurs in the text. |
| Entities.LongRunDropped | backend/enrichment/enrichers/entities.ts:24 | A run of more than four words is dropped whole, and the scan goes on after it. |
| Entities.PatternEntitiesOrdered | backend/enrichment/enrichers/entities.ts:15-20 | The pattern entities come in the declaration order email, url, money, percentage, and each occurs in the text. |
| Entities.EntitiesShape | backend/enrichment/enrichers/entities.ts:12-30 | Every entity's text occurs in the input. Pattern entities come in declaration order and before every proper noun. A proper noun has two to four words. |
| Embeddings.Weight | backend/enrichment/enrichers/embeddings.ts:24 | A character's weight lies in [0, 1). |
| Embeddings.Bucket | backend/enrichment/enrichers/embeddings.ts:23 | Every character lands in one of the 1536 buckets. |
| Embeddings.Buckets | backend/enrichment/enrichers/embeddings.ts:18-25 | The unscaled vector has 1536 entries, each the sum of the weights of the characters that land in it. |
| Embeddings.Scaled | backend/enrichment/enrichers/embeddings.ts:29 | Each entry is divided by the magnitude. |
| Embeddings.FillBuckets | backend/enrichment/enrichers/embeddings.ts:18-25 | The in-place loop over a fresh 1536-entry array leaves exactly the bucket sums in it. |
| Embeddings.Magnitude2 | backend/enrichment/enrichers/embeddings.ts:27 | The `reduce` loop computes the sum of the squares of the array. |
| Embeddings.SimpleHash | backend/enrichment/enrichers/embeddings.ts:17-30 | The imperative hash returns the specification `HashVector`. |
| Embeddings.GenerateEmbedding | backend/enrichment/enrichers/embeddings.ts:6-15 | The result is `EmbeddingOf(text)`: a 1536-entry vector tagged 'simple-hash-v1'. |
| Embeddings.OnlyPrefixMatters | backend/enrichment/enrichers/embeddings.ts:7 | Only the first 8000 characters influence the embedding. |
| Embeddings.BucketSumPrefix | backend/enrichment/enrichers/embeddings.ts:20-25 | A bucket's value depends only on the characters read so far. |
| Embeddings.BucketsHoldMass | backend/enrichment/enrichers/embeddings.ts:20-25 | Each character adds its weight to exactly one bucket, so the buckets together hold the total weight of the text. |
| Embeddings.SumSquaresScaled | backend/enrichment/enrichers/embeddings.ts:27-29 | Scaling by m scales the sum of squares by 1/m². |
| Embeddings.UnitLength | backend/enrichment/enrichers/embeddings.ts:27-29 | A vector with a non-zero magnitude comes out with unit length. |
| Embeddings.ScaledIsUnit | backend/enrichment/enrichers/embeddings.ts:29 | Dividing by the square root of the sum of squares gives a unit vector. |
| Embeddings.WeightlessIsZero | backend/enrichment/enrichers/embeddings.ts:27-29 | A text without weight, such as the empty text, gives the zero vector, unscaled. |
| Compliance.CountTrue | backend/compliance/scan.ts:87-91 | The number of risk factors never exceeds the number of frameworks checked. |
| Compliance.CheckFramework | backend/compliance/scan.ts:73-83 | A framework concerns the idea iff a trigger word occurs. It is compliant iff no trigger occurs or some safeguard word does. |
| Compliance.Recommend | backend/compliance/scan.ts:99-116 | The pushes give one line per framework at risk, in GDPR, HIPAA, PCI order, or the single no-issues line when none is at risk. |
| Compliance.AnalyzeCompliance | backend/compliance/scan.ts:68-126 | The step-by-step analysis returns the specification `Analysis(title, description)`. |
| Compliance.ComplianceStore.constructor | backend/compliance/scan.ts:46-62 | The `compliance_scans` table starts empty. |
| Compliance.ComplianceStore.Scan | backend/compliance/scan.ts:19-66 | An unknown user throws "User not found" and changes nothing. An idea that is missing or owned by someone else throws "Idea not found" and changes nothing. Otherwise the analysis is returned and upserted as the idea's only scan row. |
| Compliance.AtRiskIffNotCompliant | backend/compliance/scan.ts:74-91 | A framework is a risk factor exactly when it is not compliant, because non-compliance already implies a trigger word. |
| Compliance.RiskLevels | backend/compliance/scan.ts:86-97 | The risk factors are the non-compliant frameworks. None is low, one is medium, and two or more is high. |
| Compliance.Recommendations | backend/compliance/scan.ts:100-116 | The list is never empty. It is the no-issues line iff all three frameworks are compliant, and otherwise one line per non-compliant framework, in order. |
| Compliance.SecureMitigatesHealthAndPayment | backend/compliance/scan.ts:79-83 | "secure" anywhere in the idea makes it compliant for both HIPAA and PCI-DSS. |
| Compliance.CaseInsensitive | backend/compliance/scan.ts:69-71 | The scan ignores case: lower-casing the title and description does not change the analysis. |
| Migrations.Int32 | backend/db/migrations.ts:56 | `hash & hash` is ECMAScript ToInt32: the result is the integer in [-2^31, 2^31) congruent to its input modulo 2^32. |
| Migrations.Hash | backend/db/migrations.ts:52-57 | The running hash always stays a signed 32-bit integer. |
| Migrations.NatToHex | backend/db/migrations.ts:58 | A natural number renders as a non-empty string of lower-case hexadecimal digits. |
| Migrations.ToHex | backend/db/migrations.ts:58 | `toString(16)` puts a `-` first exactly when the number is negative. |
| Migrations.GenerateChecksum | backend/db/migrations.ts:50-59 | The loop over the code units computes the specification `Checksum(sql)`. |
| Migrations.StepIsTimes31 | backend/db/migrations.ts:55-56 | Each step `(hash << 5) - hash + char` is `31 * hash + char` reduced to 32 bits. |
| Migrations.NatToHexRoundTrip | backend/db/migrations.ts:58 | Reading the hexadecimal digits back gives the number rendered. |
| Migrations.ToHexInjective | backend/db/migrations.ts:58 | Different hashes render to different checksums, so comparing checksums compares hashes. |
| Migrations.ChecksumShape | backend/db/migrations.ts:50-59 | A checksum is an optional `-`, present iff the hash is negative, followed by hex digits of a magnitude of at most 2^31. |
| Migrations.Int32Times31 | backend/db/migrations.ts:55-56 | Reducing the running value before multiplying does not change the 32-bit result. |
| Migrations.HashIsPolynomial | backend/db/migrations.ts:52-57 | Reducing at every step is the same as reducing once at the end: the hash is the 32-bit residue of the polynomial Σ code·31^k. |
| Migrations.Find | backend/db/migrations.ts:68 | `find` returns the first file with the version, and `None` iff no file has it. |
| Migrations.FirstModified | backend/db/migrations.ts:67-78 | Returns the first applied record whose file exists with a different checksum. `None` means no record has a modified file. |
| Migrations.Unapplied | backend/db/migrations.ts:80 | The pending list is never longer than the file list. |
| Migrations.UnappliedContents | backend/db/migrations.ts:80 | A file is pending iff no applied record has its version. |
| Migrations.UnappliedInFileOrder | backend/db/migrations.ts:80 | The pending list keeps file order: it is the files at strictly increasing positions. |
| Migrations.MaxVersion | backend/db/migrations.ts:164 | `Math.max` of the versions is an applied version at least as large as every other. |
| Migrations.InsertSpec | backend/db/migrations.ts:123-126 | Inserting a new version keeps the table ordered by version. It adds exactly that row and no other version. |
| Migrations.Apply | backend/db/migrations.ts:109-149 | A committed transaction keeps the table ordered. |
| Migrations.Run | backend/db/migrations.ts:108-150 | The loop of transactions keeps the table ordered by version. |
| Migrations.ApplyFailure | backend/db/migrations.ts:136-148 | A failed transaction throws "Migration <filename> failed: …" naming its own file. |
| Migrations.RunCommitsPrefix | backend/db/migrations.ts:108-150 | A run commits a prefix of the pending list and keeps every earlier row. It is complete iff the prefix is the whole list. Otherwise the error names the first migration not committed. |
| Migrations.RunKeepsVersions | backend/db/migrations.ts:108-150 | A complete run keeps every applied version and records every pending one. |
| Migrations.NothingPendingAfterRun | backend/db/migrations.ts:92-157 | After a run that completes, no file is left pending. |
| Migrations.Gaps | backend/db/migrations.ts:173-186 | The scan warns at most once per version. |
| Migrations.GapWarnings | backend/db/migrations.ts:173-186 | The loop over the sorted versions produces the specification `Gaps`. |
| Migrations.NoGapsIffConsecutive | backend/db/migrations.ts:173-186 | No gap is reported iff each version is one more than the one before. |
| Migrations.GapsAreBetweenNeighbours | backend/db/migrations.ts:174-185 | Every reported gap lies between neighbouring versions, and its size, at least 1, is the number of versions missing between them. |
| Migrations.IntactHasNoModified | backend/db/migrations.ts:61-81 | A table that passes validation never makes `getPendingMigrations` throw. |
| Migrations.MigrationManager.constructor | backend/db/migrations.ts:20-48 | The manager works over the known migration file and the table as it stands. |
| Migrations.MigrationManager.GetPendingMigrations | backend/db/migrations.ts:61-81 | Throws the modified-after-applied error for the first record whose file checksum differs. Otherwise it returns the files without an applied record. |
| Migrations.MigrationManager.GetLastMigrationVersion | backend/db/migrations.ts:159-165 | null iff nothing is applied. Otherwise the largest applied version. |
| Migrations.MigrationManager.ValidateMigrations | backend/db/migrations.ts:167-231 | The verdict is true iff every applied record has a file with a matching checksum. The gap scan only warns. |
| Migrations.MigrationManager.RunMigrations | backend/db/migrations.ts:92-157 | The table and the outcome are those of `Migrate`. A modified file throws before any transaction. Otherwise each pending migration runs in its own transaction until the first failure, and the earlier ones stay committed. |
| Scoring.Configured | backend/validation/score.ts:23-29 | `configuredDims` has distinct keys, and a later row with the same key overwrites the earlier one. |
| Scoring.Clamp | backend/validation/score.ts:38 | A supplied value is clamped into [0, 100]. A value already inside is kept, a negative one becomes 0 and one above 100 becomes 100. |
| Scoring.Ranked | backend/validation/score.ts:78 | The sort is a permutation of the entries, ordered by descending score. |
| Scoring.ConfigureDimensions | backend/validation/score.ts:23-29 | The rows loop computes the configured dimensions and the total weight. |
| Scoring.AdjustDimensions | backend/validation/score.ts:35-40 | The loop over the supplied entries computes the specification `Adjusted`. |
| Scoring.OverallScore | backend/validation/score.ts:42-46 | The summing loop computes the specification `Overall`. |
| Scoring.GenerateRationale | backend/validation/score.ts:67-86 | The pushes and the join compute the specification `Rationale`. |
| Scoring.AdjustedDims | backend/validation/score.ts:35-40 | `dims` has exactly the configured keys, in order. A supplied configured key takes its clamped value, an unconfigured supplied key is ignored, and an unsupplied key keeps its weight as its score. |
| Scoring.OverallIsWeightedSum | backend/validation/score.ts:42-46 | The overall score is Σ score·weight/100 over the configured dimensions. |
| Scoring.ConfiguredRows | backend/validation/score.ts:26-29 | With distinct keys, every row becomes one configured dimension, in row order. |
| Scoring.TermBound | backend/validation/score.ts:45 | A score in [0, 100] times a non-negative weight, over 100, lies between 0 and the weight. |
| Scoring.OverallBounded | backend/validation/score.ts:19-46 | With distinct keys, non-negative weights and the required total of 100, the overall score lies in [0, 100]. |
| Scoring.ConfiguredTotal | backend/validation/score.ts:26-29 | With distinct keys, the configured weights total what the rows total. |
| Scoring.WeightsBounded | backend/validation/score.ts:31-33 | Non-negative weights summing to 100 are each at most 100. |
| Scoring.OpenerBands | backend/validation/score.ts:70-76 | The opener is strong iff overall ≥ 75, moderate iff 50 ≤ overall < 75, and weak iff overall < 50. |
| Scoring.RationaleSentences | backend/validation/score.ts:82-85 | The rationale is the opener and the two dimension sentences, separated by single spaces. |
| Scoring.TopAndBottom | backend/validation/score.ts:78-80 | The strongest list holds three dimensions, or all when there are fewer, each scoring at least as high as any left out. The attention list holds the three lowest. Both list only dimensions of `dims`. |
| Scoring.LabelHasNoUnderscore | backend/validation/score.ts:79-80 | A label keeps the key's length and has every underscore replaced by a space. |
| Scoring.ScoreStore.constructor | backend/validation/score.ts:50-61 | No validation is stored yet, and the ideas' scores are as given. |
| Scoring.ScoreStore.Score | backend/validation/score.ts:15-65 | Weights that do not sum to exactly 100 throw "Dimension weights must sum to 100, got <total>" before any write. Otherwise the response is upserted as the idea's validation, and the idea's score is set when the idea exists. |
| Compare.Ideas | backend/compare/compare.ts:33-50 | One idea per row, in row order, carrying the row's id, title and metrics object. |
| Compare.MaxOf | backend/compare/compare.ts:59 | `Math.max` is at least every value. |
| Compare.MinOf | backend/compare/compare.ts:60 | `Math.min` is at most every value. |
| Compare.MaxMinIn | backend/compare/compare.ts:59-60 | The maximum and the minimum are each one of the values. |
| Compare.DeltasFor | backend/compare/compare.ts:57-64 | One delta per metric, in order. |
| Compare.CompareIdeas | backend/compare/compare.ts:18-69 | An empty id list throws "No idea IDs provided". Otherwise the response holds the mapped ideas and their deltas. |
| Compare.ComputeDeltas | backend/compare/compare.ts:54-65 | The loop over the four scored metrics computes the specification `DeltasFor`. |
| Compare.SameMetricKeys | backend/compare/compare.ts:36-49 | Every idea carries the same twelve metric keys, whatever its row holds. |
| Compare.NullCountsAsZero | backend/compare/compare.ts:58 | A null column counts as 0 in the deltas, and a number counts as itself. |
| Compare.DeltaKeys | backend/compare/compare.ts:52-65 | There are deltas for exactly score, validationScore, overallScore and marketPotential when two or more ideas were found, and none otherwise. |
| Compare.DeltaBounds | backend/compare/compare.ts:58-63 | For each delta min ≤ avg ≤ max and range = max − min ≥ 0, with max and min among the values. |
| Compare.AverageBounds | backend/compare/compare.ts:61 | The average lies between the minimum and the maximum. |
| Compare.AllDeltasBounded | backend/compare/compare.ts:52-65 | Every reported delta obeys min ≤ avg ≤ max and has a non-negative range. |
| BulkImport.Lines | backend/imports/bulk.ts:82 | Splitting the trimmed data on newlines always gives at least one line. |
| BulkImport.Column | backend/imports/bulk.ts:98-100 | Column `k` is the trimmed part `k` when it exists, and `undefined` otherwise. |
| BulkImport.DecodeCsv | backend/imports/bulk.ts:95-106 | A CSV line decodes exactly when its first comma-separated part trims to a non-empty title; otherwise it is rejected with "Title is required". |
| BulkImport.DecodeJson | backend/imports/bulk.ts:93-94 | A JSON parse error rejects the line with the parser's message. Otherwise the line decodes exactly when the parsed title is a non-empty string, and the decoded fields are the document's `title`, `description` and `url`. |
| BulkImport.Decode | backend/imports/bulk.ts:89-102 | A line is skipped exactly when it trims to nothing. |
| BulkImport.Outcomes | backend/imports/bulk.ts:87-122 | There is one outcome per line processed. |
| BulkImport.Insert | backend/imports/bulk.ts:110-115 | `ON CONFLICT (title_hash, owner_id) DO NOTHING`: an idea whose owner already has that hash leaves the table as it was, and any other idea is appended. |
| BulkImport.Take | backend/imports/bulk.ts:129 | `slice(0, n)` keeps the first min(length, n) elements. |
| BulkImport.ImportStore.constructor | backend/imports/bulk.ts:62-140 | The store starts with the given imports and ideas. |
| BulkImport.ImportStore.ImportLines | backend/imports/bulk.ts:82-122 | The line loop leaves `successCount`, `errors` and the ideas table equal to the specification over the outcomes of all lines, and does not touch the imports. |
| BulkImport.ImportStore.ImportLine | backend/imports/bulk.ts:88-121 | One loop pass appends line `i`'s outcome. It inserts the idea only when the line decoded. |
| BulkImport.ImportStore.CommitImport | backend/imports/bulk.ts:62-140 | An unknown import throws "Import not found" and changes nothing. Otherwise the import row ends up completed with the line count, the counters and the errors; the ideas hold the inserted lines; and the response reports success with the first 10 errors. |
| BulkImport.UpdateTwice | backend/imports/bulk.ts:77-130 | The final `completed` update overwrites the intermediate `processing` status. |
| BulkImport.Step | backend/imports/bulk.ts:117-121 | Each line adds one to exactly the counter of its outcome; a rejected line appends "Line i+1: message"; and only a decoded line can insert. |
| BulkImport.Tally | backend/imports/bulk.ts:87-121 | successCount + errorCount + blank lines = totalRows, so successCount + errorCount ≤ totalRows. |
| BulkImport.OutcomeAt | backend/imports/bulk.ts:87-89 | Line `k`'s outcome depends only on line `k` and its index. |
| BulkImport.EmptyDataIsOneBlankRow | backend/imports/bulk.ts:82-134 | Empty or all-whitespace data still counts as one row. That row is neither a success nor an error. |
| BulkImport.EmptyLineIsBlank | backend/imports/bulk.ts:90 | An empty line is skipped. |
| BulkImport.ErrorOfLine | backend/imports/bulk.ts:118-121 | Every rejected line shows up in the errors under its 1-based number, with the message it threw. |
| BulkImport.ExtraColumnsIgnored | backend/imports/bulk.ts:96-101 | CSV has no quoting, and anything after the third comma is ignored. |
| BulkImport.SameFirstColumns | backend/imports/bulk.ts:96-101 | Two lines whose first three parts agree decode to the same title, description and url. |
| BulkImport.BlankTitleRejected | backend/imports/bulk.ts:98-106 | A CSV line whose first column is blank is rejected with "Title is required". |
| BulkImport.ConflictCountsAsSuccess | backend/imports/bulk.ts:110-117 | An insert that hits an existing (title_hash, owner) is skipped silently, yet it still counts as a success. |
| BulkImport.StoredKeepsHashesUnique | backend/imports/bulk.ts:110-115 | An import never gives an owner two ideas with the same title hash. |
| BulkImport.InsertKeepsUnique | backend/imports/bulk.ts:110-115 | One conflict-guarded insert keeps the title hashes unique per owner. |
| BulkImport.ResponseErrorsPrefixStored | backend/imports/bulk.ts:129-137 | The response's at most 10 errors are the first ones of the at most 100 the import row stores. |
| Cache.Live | backend/cache/cache.ts:139-149 | `cleanup` keeps exactly the entries that have not expired. |
| Cache.TtlOf | backend/cache/cache.ts:43 | `ttl \|\| defaultTTL`: a missing ttl or a ttl of 0 means the default. |
| Cache.OldestScan | backend/cache/cache.ts:159-167 | The slot the eviction scan settles on is one of the slots it scanned. |
| Cache.MemoryCache.constructor | backend/cache/cache.ts:14-20 | A new cache is empty and keeps its size bound and default ttl. |
| Cache.MemoryCache.Get | backend/cache/cache.ts:22-40 | A missing key gives null. An entry with now > expiresAt is deleted and gives null. Otherwise `get` returns the stored value. Keys stay distinct. |
| Cache.MemoryCache.Has | backend/cache/cache.ts:86-99 | `has` is true exactly when `get` would return a value. It deletes an expired entry just as `get` does. |
| Cache.MemoryCache.Set | backend/cache/cache.ts:42-61 | The new entries are the specification `Stored`: an eviction first when size ≥ maxSize, then the key with expiresAt = now + (ttl \|\| defaultTTL). |
| Cache.MemoryCache.Delete | backend/cache/cache.ts:63-74 | `delete` returns true exactly when the key was present, and it removes that key only. |
| Cache.MemoryCache.Clear | backend/cache/cache.ts:76-84 | `clear` empties the cache. |
| Cache.MemoryCache.Keys | backend/cache/cache.ts:101-112 | `keys` returns the keys of the unexpired entries, in insertion order, without deleting anything. |
| Cache.MemoryCache.Size | backend/cache/cache.ts:114-117 | `size` runs `cleanup` first, then reports the number of live entries. |
| Cache.MemoryCache.Cleanup | backend/cache/cache.ts:139-156 | The expired entries are deleted and counted. What remains is exactly the live entries. |
| Cache.MemoryCache.EvictOldest | backend/cache/cache.ts:158-176 | The entry the oldest-scan finds is removed when its key is truthy. Nothing else changes. |
| Cache.OldestIsFirstMinimum | backend/cache/cache.ts:159-167 | The scan finds the first entry with the minimum createdAt strictly below now, and nothing when no entry predates now. |
| Cache.SameMillisecondOverflow | backend/cache/cache.ts:158-176 | When no entry was created before now, nothing is evicted: setting a new key appends it even when the cache is at or over maxSize. |
| Cache.SameMillisecondGrowsWithoutBound | backend/cache/cache.ts:42-55 | n sets of distinct new keys in the same millisecond leave the cache n entries larger, however far over maxSize it already is. |
| Cache.FullCacheStaysBounded | backend/cache/cache.ts:47-55 | A full cache whose oldest entry predates now, under a non-empty key, stays at maxSize after `set`. |
| Cache.OverwriteStillEvicts | backend/cache/cache.ts:47-49 | `set` evicts whenever size ≥ maxSize, even when the key is already present. |
| Cache.GetAfterSet | backend/cache/cache.ts:22-55 | A value just set is read back up to and including its expiry time, and reads as absent after it. |
| Cache.KeysAreLive | backend/cache/cache.ts:101-112 | `keys` reports a key exactly when its entry has now ≤ expiresAt. |
| Cache.StoreNewKey | backend/cache/cache.ts:47-55 | A new key set into a cache with room is appended and nothing is evicted. |
| Cache.FourthSetEvictsFirst | backend/tests/cache.test.ts:65-82 | With maxSize 3, setting four distinct keys at increasing times evicts the first key and keeps the other three. |
| Cache.CacheKeySplits | backend/cache/cache.ts:217-219 | `generateCacheKey` joins the prefix and the parts with `:`, so splitting on `:` gives them back when none of them holds a `:`. |
| Cache.AnalysisKeysDistinct | backend/cache/cache.ts:229-231 | `analysis:<id>:<type>` keys are equal only for equal ids and track types. |
| Errors.NewAppError | backend/logging/errors.ts:17-27 | An `AppError` keeps its code and message. Its status code is the given one, or 500 when none is given. |
| Errors.ValidationError | backend/logging/errors.ts:29-33 | A `ValidationError` has code VALIDATION_ERROR and status 400, and its data names the field. |
| Errors.NotFoundError | backend/logging/errors.ts:35-39 | A `NotFoundError` has code NOT_FOUND, status 404 and the message "<resource> not found". |
| Errors.UnauthorizedError | backend/logging/errors.ts:41-45 | An `UnauthorizedError` has code AUTHORIZATION_ERROR and status 403. Its message defaults to "Unauthorized". |
| Errors.ConflictError | backend/logging/errors.ts:47-51 | A `ConflictError` has code CONFLICT, status 409 and the given message. |
| Errors.InsufficientCreditsError | backend/logging/errors.ts:53-62 | An `InsufficientCreditsError` has code INSUFFICIENT_CREDITS and status 402. Required defaults to 1 and available to 0, and the message names both. |
| Errors.ExternalServiceError | backend/logging/errors.ts:64-73 | An `ExternalServiceError` has code EXTERNAL_SERVICE_ERROR, status 502 and the message "External service error: <service>". |
| Errors.DatabaseError | backend/logging/errors.ts:75-84 | A `DatabaseError` has code DATABASE_ERROR, status 500 and the message "Database error during <operation>". |
| Errors.HandleError | backend/logging/errors.ts:86-127 | `handleError` always throws. An AppError becomes internal with its own message, whatever its status code. A plain Error is classified by the first rule its message matches: "not found", then "unauthorized" or "invalid token", then "credits", then unique or duplicate, then "foreign key constraint". Anything else becomes a generic internal error. Both directions are stated for each kind. |
| Errors.AppErrorsAreInternal | backend/logging/errors.ts:96-98 | A 404 `NotFoundError` still reaches the client as an internal error; its status code is ignored. |
| Errors.CreditsMessageIsInternal | backend/logging/errors.ts:110-112 | A message about credits, matching no earlier rule, stays an internal error with its own text. |
| Errors.NotFoundBeatsDuplicate | backend/logging/errors.ts:102-117 | The rules overlap and the earlier one wins: "not found" beats "duplicate key". |
| Validation.Fail | backend/logging/validation.ts:11 | Every failure throws a `ValidationError` carrying the given message. |
| Validation.ValidateRequired | backend/logging/validation.ts:9-13 | The check throws "<field> is required" exactly for undefined, null and ''. `0` and `false` pass. |
| Validation.ValidateString | backend/logging/validation.ts:15-46 | A non-string throws "must be a string", and a too-short string throws "must be at least N characters". The check passes exactly for a string within both inclusive bounds that matches the pattern, when one is given. A minLength of 0 is honoured. |
| Validation.ValidateNumber | backend/logging/validation.ts:48-68 | A non-number and NaN throw "must be a number", and a non-integer under `integer` throws "must be an integer". The check passes exactly when min ≤ value ≤ max for the bounds given. |
| Validation.ValidateEmail | backend/logging/validation.ts:70-73 | An email passes exactly when it is a string that the email pattern accepts. |
| Validation.ValidateUrl | backend/logging/validation.ts:75-96 | undefined, null and '' pass. Anything else passes exactly when it is a string that `new URL` accepts with protocol http: or https:. Every failure is "<field> must be a valid URL". |
| Validation.ValidateEnum | backend/logging/validation.ts:98-109 | The check throws exactly when the value is not one of the listed values, and its message lists them joined by ", ". |
| Validation.Rethrown | backend/logging/validation.ts:138-145 | An item's `ValidationError` is rethrown prefixed with `field[index]: `. Any other error is rethrown unchanged. |
| Validation.CheckItems | backend/logging/validation.ts:135-147 | The forEach passes exactly when every item from the index on passes. |
| Validation.ValidateArray | backend/logging/validation.ts:111-149 | A non-array throws "must be an array". The check passes exactly for an array within the truthy length bounds whose every item passes. |
| Validation.FirstFailingItem | backend/logging/validation.ts:134-148 | When items 0..k−1 pass and item k fails, the error is item k's, prefixed with `field[k]: `. |
| Validation.ItemsFrom | backend/logging/validation.ts:135-147 | The forEach stops at the first failing item. |
| Validation.ZeroBoundIgnored | backend/logging/validation.ts:120-132 | A minLength or maxLength of 0 is the same as leaving it out, because both checks test truthiness. |
| Validation.StringMinZeroHonoured | backend/logging/validation.ts:24 | `validateString` compares minLength with `!== undefined`, so a 0 bound is applied, and every string passes it. |
| Validation.SanitizeString | backend/logging/validation.ts:151-154 | The result has no whitespace other than single spaces and none at either end. A non-string gives ''. |
| Validation.SanitizeIdempotent | backend/logging/validation.ts:151-154 | Sanitising twice gives the same result as sanitising once. |
| Validation.SanitizedHasNoDoubleSpace | backend/logging/validation.ts:153 | No two spaces in a row survive. |
| RateLimit.Max0 | backend/security/ratelimit.ts:60 | `Math.max(0, x)` is the larger of 0 and x. |
| RateLimit.UserTotals | backend/security/ratelimit.ts:135-141 | The per-user totals list each user once. |
| RateLimit.RateLimiter.constructor | backend/security/ratelimit.ts:22-30 | A new limiter has no entries and keeps its config, with the `${userId}:${endpoint}` key as the default. |
| RateLimit.RateLimiter.CheckLimit | backend/security/ratelimit.ts:32-94 | The verdict and the new entries are the specification `Checked`, and the entries stay well formed. |
| RateLimit.RateLimiter.Reset | backend/security/ratelimit.ts:96-109 | The entries become the specification `AfterReset`: one key when the endpoint is truthy, otherwise every key prefixed `userId:`. |
| RateLimit.RateLimiter.Cleanup | backend/security/ratelimit.ts:111-128 | The entries with now ≥ resetTime are deleted. |
| RateLimit.RateLimiter.GetStats | backend/security/ratelimit.ts:130-153 | The stats are computed from the current entries: entry count, number of users and top users. |
| RateLimit.ApplyRateLimit | backend/security/ratelimit.ts:178-193 | `applyRateLimit` throws resourceExhausted exactly when the call is refused. The details carry the limit, the remaining allowance, the reset time and retryAfter = ceil((resetTime − now)/1000). |
| RateLimit.CheckKeepsWellFormed | backend/security/ratelimit.ts:41-58 | Every stored count stays between 1 and maxRequests, and every window is windowMs long. |
| RateLimit.CheckOutcome | backend/security/ratelimit.ts:41-60 | A missing entry or now ≥ resetTime opens a new window with count 0. The call is allowed exactly when the count is below maxRequests. An allowed call stores that window with count + 1 and leaves every other key alone; a refused call changes nothing. remaining = max(0, maxRequests − count). |
| RateLimit.CheckAll | backend/security/ratelimit.ts:32-94 | Repeated checks allow at most as many calls as were made. |
| RateLimit.AllowedPerWindow | backend/security/ratelimit.ts:44-58 | Within one window opened by the first call, exactly min(n, maxRequests) of n calls are allowed, and the stored window counts them. |
| RateLimit.ResetEndpointDropsOneKey | backend/security/ratelimit.ts:97-99 | A reset with an endpoint deletes only that key and keeps every other entry. |
| RateLimit.ResetUserDropsPrefixed | backend/security/ratelimit.ts:100-107 | A reset without an endpoint deletes exactly the keys starting with `userId:`, and those include every default key of the user. |
| RateLimit.ResetUserReachesColonUsers | backend/security/ratelimit.ts:102-105 | The prefix match also deletes the keys of another user whose id begins with `userId:`. |
| RateLimit.CleanupKeepsOpenWindows | backend/security/ratelimit.ts:115-120 | Cleanup keeps exactly the entries whose window is still open. |
| RateLimit.UserTotalsOwners | backend/security/ratelimit.ts:137-141 | A user appears in the totals exactly when some key's part before the first `:` names them. |
| RateLimit.UserTotalsAreSums | backend/security/ratelimit.ts:137-141 | Each user's total is the sum of the counts of that user's entries. |
| RateLimit.TopUsersAreTop | backend/security/ratelimit.ts:143-146 | topUsers holds min(users, 10) of the totals, sorted by descending total. No user left out has a larger total than a listed one. |
| RateLimit.IpRateLimiter.constructor | backend/security/ratelimit.ts:206-212 | A new IP limiter is empty and keeps its window and maximum. |
| RateLimit.IpRateLimiter.CheckLimit | backend/security/ratelimit.ts:214-237 | The verdict and the new entries are the specification `IpChecked`, and every stored count stays within bounds. |
| RateLimit.IpRateLimiter.Cleanup | backend/security/ratelimit.ts:239-256 | The entries with now ≥ resetTime are deleted and the rest are kept. |
| RateLimit.IpCheckOutcome | backend/security/ratelimit.ts:214-237 | The first call in a window stores count 1 and is allowed. A later call is denied once count ≥ max and otherwise increments the count. Other addresses are untouched. |
| RateLimit.IpCheckKeepsWellFormed | backend/security/ratelimit.ts:214-237 | Every stored IP count stays between 1 and the maximum. |
| PlanLimit.PlanLimits | backend/platform/ratelimit.ts:6-15 | Any plan other than pro or enterprise gets the free limits. Every plan has a 60 s window and at least 10 calls. |
| PlanLimit.RateLimitStore.constructor | backend/platform/ratelimit.ts:12 | The module-level store starts empty. |
| PlanLimit.RateLimitStore.CheckRateLimit | backend/platform/ratelimit.ts:14-46 | The decision and the new store are the specification `Decide` of the old store. |
| PlanLimit.LiveWindowDecision | backend/platform/ratelimit.ts:22-31 | Against a live window (resetAt > now) a call is refused exactly when count ≥ max. A refusal leaves the store as it was and reports retryAfter = ceil((resetAt − now)/1000) ≥ 1. An allowed call increments the count. |
| PlanLimit.NewWindowDecision | backend/platform/ratelimit.ts:34-41 | A missing or expired entry is replaced by count 1 and resetAt = now + window·1000, and the call is allowed. |
| PlanLimit.UnknownPlanIsFree | backend/platform/ratelimit.ts:6-15 | An unknown plan gets the free limits: 10 calls per 60 s. |
| PlanLimit.OtherKeysUntouched | backend/platform/ratelimit.ts:16-41 | Only the caller's `${userId}:${route}` entry can change. |
| PlanLimit.FailsOpen | backend/platform/ratelimit.ts:42-45 | An internal error lets the call through and leaves the store as it was. |
| PlanLimit.DecideAll | backend/platform/ratelimit.ts:14-46 | Repeated calls allow at most as many calls as were made. |
| PlanLimit.AllowedPerWindow | backend/platform/ratelimit.ts:22-41 | Starting from no live window, n calls inside the window the first call opens allow exactly min(n, max), and the stored entry counts them. |
| Webhooks.Subscribers | backend/integrations/webhooks.ts:41-44 | The query returns exactly the enabled webhooks whose events include the event type. |
| Webhooks.Queued | backend/integrations/webhooks.ts:46-54 | One new row per subscriber, each pending with 0 attempts, next_retry = NOW(), the subscriber's id and the `{ event, data }` payload. |
| Webhooks.HookOf | backend/integrations/webhooks.ts:62 | The join finds a webhook with the delivery's id, when one exists. |
| Webhooks.EligibleRows | backend/integrations/webhooks.ts:59-65 | The eligible rows, in table order: pending, next_retry ≤ NOW(), attempts < 5, with a joined webhook. |
| Webhooks.Selected | backend/integrations/webhooks.ts:59-65 | `LIMIT 100` selects at most 100 eligible rows, and every eligible row when fewer than 100 are selected. |
| Webhooks.SigningKey | backend/integrations/webhooks.ts:107 | The HMAC key is the secret, or 'default-secret' when the secret is empty. |
| Webhooks.Backoff | backend/integrations/webhooks.ts:86 | The retry wait is at least one minute. |
| Webhooks.Settled | backend/integrations/webhooks.ts:80-102 | An ok response sets status 'success'. A non-ok response or an exception sets 'failed', attempts + 1 and next_retry = now + 2^attempts·60000, using the attempts before the increment. |
| Webhooks.AfterPass | backend/integrations/webhooks.ts:67-103 | A delivery pass keeps the same rows with the same ids. |
| Webhooks.WebhookStore.constructor | backend/integrations/webhooks.ts:39-104 | The store starts with the given webhooks and no deliveries. |
| Webhooks.WebhookStore.ProcessWebhook | backend/integrations/webhooks.ts:30-37 | An inbound provider call appends one row with no webhook, status success and 1 attempt. |
| Webhooks.WebhookStore.TriggerWebhooks | backend/integrations/webhooks.ts:39-55 | The deliveries grow by exactly the queued rows of the subscribers, and the webhooks stay unchanged. |
| Webhooks.WebhookStore.DeliverPendingWebhooks | backend/integrations/webhooks.ts:57-104 | The selected rows are posted in order, each signed with the HMAC of its payload under its webhook's key, and the table becomes the specification `AfterPass`. |
| Webhooks.WebhookStore.PostRow | backend/integrations/webhooks.ts:68-102 | One iteration posts the k-th selected row and settles it. |
| Webhooks.AfterPassRows | backend/integrations/webhooks.ts:67-103 | A row outside the pass is unchanged, and the k-th row of the pass is settled by the k-th outcome. |
| Webhooks.TriggerQueuesSubscribers | backend/integrations/webhooks.ts:39-55 | A webhook gets a row exactly when it is enabled and subscribed to the event. Every queued row is pending, with 0 attempts, and due now. |
| Webhooks.UnsubscribedGetsNothing | backend/integrations/webhooks.ts:42 | A disabled or unsubscribed webhook gets no row. |
| Webhooks.PassOutcome | backend/integrations/webhooks.ts:59-103 | A pass posts only eligible rows, at most 100, and every eligible row when fewer than 100 qualify. Each posted row is settled by its own outcome, and every other row is unchanged. |
| Webhooks.SettledNeverReselected | backend/integrations/webhooks.ts:63-89 | A posted row has left 'pending', so it is never eligible again, and the retry time it was given is never used. |
| Webhooks.PassedRowsStayDone | backend/integrations/webhooks.ts:59-103 | No row of one pass is selected by any later pass. |
| Webhooks.BackoffDoubles | backend/integrations/webhooks.ts:86-95 | The retry wait is one minute after no attempts and doubles with each attempt. |
| Webhooks.InboundNeverPosted | backend/integrations/webhooks.ts:32-63 | An inbound row has no webhook and is not pending, so no pass ever posts it. |
| Webhooks.QueuedAreDue | backend/integrations/webhooks.ts:50-63 | A queued row is due to any pass that runs no earlier than the trigger, while its webhook exists. |
| Security.AgentFinding | backend/security/security.ts:33-53 | A missing User-Agent adds 20 and one threat. Otherwise the first suspicious pattern it contains, if any, adds 30 and names that pattern. A check that adds nothing reports nothing. |
| Security.AttackFinding | backend/security/security.ts:55-69 | Any attack pattern in the joined header values adds 50 and one threat, however many patterns match. |
| Security.RefererFinding | backend/security/security.ts:71-84 | A truthy referer containing a suspicious domain adds 40 and names the first such domain. |
| Security.Recommendations | backend/security/security.ts:86-96 | Three recommendations above 70, two above 40, one above 20, and none otherwise. |
| Security.FirstHit | backend/security/security.ts:46-52 | The loop that breaks at the first hit finds the first listed pattern the string contains. |
| Security.FirstContainedAt | backend/security/security.ts:46-52 | The pattern found is the one at the first index that matches. |
| Security.CheckAgent | backend/security/security.ts:33-53 | The User-Agent loop computes the specification `AgentFinding`. |
| Security.CheckAttacks | backend/security/security.ts:55-69 | The attack-pattern loop computes the specification `AttackFinding`. |
| Security.CheckReferer | backend/security/security.ts:71-84 | The referer loop computes the specification `RefererFinding`. |
| Security.AnalyzeRequest | backend/security/security.ts:28-104 | `analyzeRequest` computes the specification `Analyze`: the three findings summed, their threats in order, the recommendations for the score, and allowRequest. |
| Security.ScoreShape | backend/security/security.ts:28-104 | riskScore is a sum drawn from {0,20,30} + {0,50} + {0,40}, so 0 ≤ riskScore ≤ 120. There are at most three threats, and none exactly when the score is 0. The request is allowed exactly when riskScore < 70. |
| Security.MissingAgentCounts | backend/security/security.ts:34-36 | A missing or empty User-Agent is the first threat, and no suspicious-agent threat accompanies it. |
| Security.SeventyIsRefusedButOnlyMonitored | backend/security/security.ts:87-102 | A score of exactly 70 is refused, yet gets only the two monitoring recommendations. |
| Security.SecurityHeaders | backend/security/security.ts:198-207 | `getSecurityHeaders` returns the same seven fixed headers on every call. |
| Security.HeaderNamesDistinct | backend/security/security.ts:199-207 | No header name repeats, so all seven are sent. |
| Notifications.Without | backend/notifications/websocket.ts:136-138 | The streams that remain after the deletions are exactly those not deleted, and they stay distinct. |
| Notifications.DeliveriesTo | backend/notifications/websocket.ts:118-133 | A message is delivered to exactly the streams whose send does not throw. |
| Notifications.Hub.constructor | backend/notifications/websocket.ts:20 | The registry starts empty and nothing has been sent. |
| Notifications.Hub.Connect | backend/notifications/websocket.ts:35-49 | The stream is added to the user's set, and the set is created when absent. The welcome message is sent to that stream unless the send throws. |
| Notifications.Hub.Receive | backend/notifications/websocket.ts:53-79 | A 'ping' system message is answered with 'pong' on the same stream. A failing pong send ends the stream, and any other message changes nothing. |
| Notifications.Hub.Disconnect | backend/notifications/websocket.ts:80-89 | On end or error the stream is removed, and the user is deleted once the set is empty. Nothing is sent. |
| Notifications.Hub.SendToUser | backend/notifications/websocket.ts:100-143 | The registry and the sent messages become the specification `Sent`, and no user maps to an empty set. |
| Notifications.Hub.SendEach | backend/notifications/websocket.ts:118-133 | The sending loop delivers to every stream that does not throw and collects exactly the ones that do. |
| Notifications.Hub.Broadcast | backend/notifications/websocket.ts:146-159 | `broadcastNotification` performs one `sendNotificationToUser` per user registered at the start, in key order, and keeps the registry well formed. |
| Notifications.Hub.GetStats | backend/notifications/websocket.ts:170-181 | connectedUsers is the number of keys and totalConnections the sum of the set sizes. userStats lists each user with the size of their set. |
| Notifications.Prune | backend/notifications/websocket.ts:136-138 | The cleanup loop leaves exactly the streams whose send did not throw. |
| Notifications.DeliveriesPrefixAll | backend/notifications/websocket.ts:118-133 | The loop's partial deliveries, taken over all streams, are the specification `DeliveriesTo`. |
| Notifications.WithoutTwice | backend/notifications/websocket.ts:136-138 | Removing one set of streams and then another is the same as removing their union. |
| Notifications.SumMatchesTotal | backend/notifications/websocket.ts:175 | The `reduce` over userStats equals the sum of the set sizes. |
| Notifications.ConnectedKeepsRegistry | backend/notifications/websocket.ts:36-39 | After connecting, the keys stay distinct and every set stays non-empty and duplicate-free. |
| Notifications.DisconnectedKeepsRegistry | backend/notifications/websocket.ts:82-88 | After a disconnect, no user maps to an empty set. |
| Notifications.SentKeepsRegistry | backend/notifications/websocket.ts:136-142 | After a send, no user maps to an empty set. |
| Notifications.ConnectRegisters | backend/notifications/websocket.ts:36-39 | The new stream is among the user's streams, the user's earlier streams stay, and no other user changes. |
| Notifications.DisconnectRemoves | backend/notifications/websocket.ts:80-89 | The ended stream is gone; the user stays registered exactly when another stream remains; and no other user changes. |
| Notifications.SendDeliversAndPrunes | backend/notifications/websocket.ts:100-143 | With no connections the send does nothing. Otherwise every stream that does not throw receives the notification tagged with the userId, the throwing streams are removed, and an emptied user is deleted. No other user changes. |
| Notifications.BroadcastDelivers | backend/notifications/websocket.ts:146-159 | Each listed user receives exactly what a send to that user alone would deliver. Unlisted users are untouched. |
| Notifications.ConnectCountsOne | backend/notifications/websocket.ts:36-39 | A new stream adds one to totalConnections. |
| Notifications.DisconnectCountsOne | backend/notifications/websocket.ts:82-88 | Ending a listed stream takes one off totalConnections. |
| Notifications.WithoutOne | backend/notifications/websocket.ts:84 | Deleting a present stream shrinks its set by one. |
| PlatformLog.Masks | backend/platform/logger.ts:57-65 | `redact` makes one assignment per entry, under the entry's own key, in entry order. |
| PlatformLog.MaskEntry | backend/platform/logger.ts:58-64 | A sensitive key gets '[REDACTED]'. Otherwise a non-null object is redacted recursively, and any other value is copied unchanged. |
| PlatformLog.ItemMasks | backend/platform/logger.ts:57-64 | An array's entries are its items under the keys "0", "1", and so on. |
| PlatformLog.RedactLoop | backend/platform/logger.ts:54-68 | The loop over `Object.entries(obj)` assigning into `result` computes the specification `Redact`. |
| PlatformLog.MaskLoop | backend/platform/logger.ts:58-64 | The loop body computes the specification `MaskEntry`: it recurses into objects and arrays and masks sensitive keys. |
| PlatformLog.RedactItemsLoop | backend/platform/logger.ts:54-68 | `redact` applied to an array computes the specification `RedactArray`. |
| PlatformLog.ErrorMeta | backend/platform/logger.ts:34-36 | `error()` stores `error.stack \|\| error` under 'error', replacing any 'error' in meta. |
| PlatformLog.ApiKeyNeverMatches | backend/platform/logger.ts:17-58 | The 'apiKey' entry has an upper-case K and is compared against a lower-cased key, so it never matches. |
| PlatformLog.SensitiveKeys | backend/platform/logger.ts:17-59 | A key is redacted exactly when its lower-cased form contains 'password', 'token', 'secret' or 'authorization'. |
| PlatformLog.MasksKeys | backend/platform/logger.ts:57-65 | The redacted object has exactly the keys of the original. |
| PlatformLog.MasksLast | backend/platform/logger.ts:57-65 | Under a repeated key the last assignment wins, and it is the mask of that entry's value. |
| PlatformLog.EntryPrecedence | backend/platform/logger.ts:42-49 | In an entry, redacted meta keys override context keys, which override ts, level and message. Context values are not redacted. |
| PlatformLog.RedactLookup | backend/platform/logger.ts:54-68 | Every key of the original is read back from the redacted object as the mask of its value. |
| PlatformLog.SecretsMasked | backend/platform/logger.ts:43-59 | A sensitive meta key always reads '[REDACTED]' in the logged entry, whatever its value. |
| PlatformLog.ChildOverrides | backend/platform/logger.ts:70-72 | `child` merges the contexts, and the child's keys win. |
| Logging.OrStr | backend/logging/logger.ts:45 | `a \|\| b` over optional strings: a is taken when it is a non-empty string, and b otherwise. |
| Logging.Cleaned | backend/logging/logger.ts:57-60 | The cleaned record keeps exactly the fields whose value is not undefined. |
| Logging.SinkFor | backend/logging/logger.ts:62-68 | ERROR goes to console.error, WARN to console.warn, and DEBUG and INFO to console.log, in both directions. |
| Logging.Logger.constructor | backend/logging/logger.ts:19-20 | A new logger starts at level INFO and has written nothing. |
| Logging.Logger.SetLevel | backend/logging/logger.ts:22-24 | `setLevel` changes the level and nothing else. |
| Logging.Logger.Log | backend/logging/logger.ts:26-69 | A message below the configured level writes nothing. Otherwise it writes exactly one record, to the sink for its level. The level never changes. |
| Logging.RecordShape | backend/logging/logger.ts:41-60 | A written record has no undefined field, and it always carries its level name and message. |
| Logging.ContextUserWins | backend/logging/logger.ts:45 | A non-empty context.userId takes precedence over the signed-in user's id. |
| Logging.NoUserNoField | backend/logging/logger.ts:45-60 | With no context user and no signed-in user the record has no userId field. |
| WebVitals.Thresholds | frontend/hooks/useWebVitals.ts:52-60 | The [good, poor] bounds are CLS 0.1/0.25, LCP 2500/4000, INP 200/500, TTFB 800/1800 and FCP 1800/3000. Any other metric gets [0, 0]. |
| WebVitals.GetRating | frontend/hooks/useWebVitals.ts:51-65 | value ≤ good is 'good', good < value ≤ poor is 'needs-improvement', and anything above is 'poor'. Both bounds are inclusive, and each rating is stated in both directions. |
| WebVitals.UnknownMetric | frontend/hooks/useWebVitals.ts:60-64 | An unknown metric is good at or below 0 and poor above it, never needs-improvement. |
| WebVitals.RatingMonotone | frontend/hooks/useWebVitals.ts:51-65 | For a fixed metric the rating never improves as the value grows. |
| AiResponse.FirstIndexOf | backend/ai/startup-analysis.ts:426 | The index returned holds `c` and no earlier index does. None means `c` does not occur at all. |
| AiResponse.LastIndexOf | backend/ai/startup-analysis.ts:426 | The index returned holds `c` and no later index does. None means `c` does not occur at all. |
| AiResponse.JsonCandidate | backend/ai/startup-analysis.ts:426-432 | The greedy brace pattern matches exactly when some `}` comes after some `{`. When there is no match, the reply has no JSON candidate. |
| AiResponse.JsonCandidateIsOutermost | backend/ai/startup-analysis.ts:426-434 | The candidate is a substring of the reply that starts with `{` and ends with `}`. No `{` comes before it and no `}` comes after it. |
| AiResponse.Route | backend/ai/startup-analysis.ts:187-214 | Claude's reply is used when Claude succeeds. GPT is asked only when Claude threw. The routing fails exactly when both threw. The providers asked are Claude, or Claude then GPT. |
| StartupAnalysis.VerdictOf | backend/ai/startup-analysis.ts:568-570 | A value is kept exactly when it is one of the strings "Strong", "Moderate" or "Weak"; anything else becomes "Moderate". |
| StartupAnalysis.Viability | backend/ai/startup-analysis.ts:438 | The score is NaN or lies in [1, 10]. A falsy score becomes 5, an in-range number is kept, and numbers above 10 or non-zero numbers below 1 are clamped. NaN results exactly from a truthy value that does not coerce to a number. |
| StartupAnalysis.SliceThree | backend/ai/startup-analysis.ts:503-506 | `?.slice(0, 3)` gives undefined on null and undefined, and a prefix of at most three items of an array or characters of a string. Any other value throws. |
| StartupAnalysis.ParseDimensions | backend/ai/startup-analysis.ts:439-501 | Eight dimensions in framework order, each read from its own property of the parsed object. |
| StartupAnalysis.FallbackExactlyWhenUnusable | backend/ai/startup-analysis.ts:423-566 | The fallback is returned when there is no JSON, JSON.parse throws, or reading the object throws. Otherwise the object read is returned. |
| StartupAnalysis.FallbackIsNeutral | backend/ai/startup-analysis.ts:526-564 | The fallback scores 5 and rates all eight dimensions "Moderate" with the parsing-failed text. |
| StartupAnalysis.ParseObjectFails | backend/ai/startup-analysis.ts:434-508 | Reading throws exactly on a null or undefined object, or when one of the three short lists cannot be sliced. |
| StartupAnalysis.ResultShape | backend/ai/startup-analysis.ts:423-566 | Every reply, parsed or fallback, has eight dimensions and a score that is NaN or in [1, 10]. |
| StartupAnalysis.ParsedViability | backend/ai/startup-analysis.ts:438 | The parsed score is what `Viability` makes of the reply's `viability_score`. |
| StartupAnalysis.ParsedDimension | backend/ai/startup-analysis.ts:439-501 | Each dimension's verdict is kept only when valid. Its analysis text is kept when truthy, otherwise "Analysis not available". |
| StartupAnalysis.TopThreeKept | backend/ai/startup-analysis.ts:503-506 | A sliceable list becomes its first three items, or ["Analysis pending"] when the slice is falsy. |
| StartupAnalysis.ParsedFields | backend/ai/startup-analysis.ts:503-506 | Strengths and concerns are the truncated reply fields. Pivots are the reply's own value, or [] when falsy. |
| StartupAnalysis.ParsedLists | backend/ai/startup-analysis.ts:503-506 | Strengths, concerns and next steps hold at most the first three items of the reply's lists. |
| StartupAnalysis.ParsedPivots | backend/ai/startup-analysis.ts:505 | Pivots are passed through whole, however long; a falsy value becomes []. |
| StartupAnalysis.PerformOrder | backend/ai/startup-analysis.ts:187-214 | The analysis is Claude's parsed reply when Claude succeeds, otherwise GPT's. It fails exactly when both providers threw. |
| StartupAnalysis.Invalid | backend/ai/startup-analysis.ts:34-39 | No validation error exactly when the idea id is present and an integer of at least 1, and the depth is absent or one of "standard", "deep" or "executive". |
| StartupAnalysis.Admit | backend/ai/startup-analysis.ts:31-57 | An admitted request names an existing idea, and the title returned is that idea's. |
| StartupAnalysis.AdmitExactly | backend/ai/startup-analysis.ts:31-57 | The rate limit is checked first. A request is admitted exactly when it is well formed, the user exists and owns the idea. An unknown user is NotFoundError("User", clerkId). |
| StartupAnalysis.TimesTen | backend/ai/startup-analysis.ts:140 | The completion notice carries the viability score on a 100-point scale. |
| StartupAnalysis.RefusedChangesNothing | backend/ai/startup-analysis.ts:31-57 | A refused request changes no state and is answered through handleError. A rate-limit error wins over every other check. |
| StartupAnalysis.CacheHitChangesNothing | backend/ai/startup-analysis.ts:59-71 | A cache hit returns the stored analysis, whatever the providers would say. It changes no idea, analysis, status or notice. |
| StartupAnalysis.FreshAnalysis | backend/ai/startup-analysis.ts:73-179 | After a cache miss, the status goes "analyzing" then "completed" or "failed", and two notices are sent. On success the analysis is stored, cached for 24 hours and returned. On failure the ExternalServiceError is rethrown and nothing is stored or cached. |
| StartupAnalysis.CachedForADay | backend/ai/startup-analysis.ts:59-132 | A second request within 24 hours of a completed analysis returns the same analysis from the cache and changes nothing. |
| StartupAnalysis.AdmitIgnoresStatus | backend/ai/startup-analysis.ts:42-57 | Admission does not depend on an idea's status. |
| StartupAnalysis.StartupAnalyzer.constructor | backend/ai/startup-analysis.ts:17-19 | Starts with the given ideas, no analyses, no status writes or notices, and an empty cache. |
| StartupAnalysis.StartupAnalyzer.AnalyzeStartup | backend/ai/startup-analysis.ts:17-185 | The reply and the new tables, notices and cache are those of the endpoint's specification for the providers' outcome. The cache keeps its invariant. |
| StartupAnalysis.StartupAnalyzer.Finish | backend/ai/startup-analysis.ts:73-180 | After a cache miss, marks the idea, sends the notice, then records or fails, as the specification says. |
| StartupAnalysis.StartupAnalyzer.Start | backend/ai/startup-analysis.ts:73-86 | Sets the status to "analyzing", logs that write and sends the analysis_started notice. |
| StartupAnalysis.StartupAnalyzer.Complete | backend/ai/startup-analysis.ts:93-152 | Upserts the analysis, sets the status to "completed", caches the result for 24 hours and sends the completion notice. |
| StartupAnalysis.StartupAnalyzer.Fail | backend/ai/startup-analysis.ts:154-179 | Sets the status to "failed", sends the analysis_failed notice and rethrows the ExternalServiceError as handleError reports it. |
| IdeaAnalysis.FallbackExactlyWhenUnusable | backend/ai/analyze.ts:235-284 | The fixed fallback is returned when there is no JSON, JSON.parse throws, or the value is null. Otherwise the object read is returned. |
| IdeaAnalysis.ParseObjectFails | backend/ai/analyze.ts:243-262 | Reading throws exactly when the parsed value is null or undefined. |
| IdeaAnalysis.ParsedScores | backend/ai/analyze.ts:247-253 | Each truthy score is kept as it is, with no clamping. A falsy score becomes 50, compliance becomes 70, and the text becomes "Analysis not available". |
| IdeaAnalysis.ParsedCosts | backend/ai/analyze.ts:254-261 | Each cost figure is kept when truthy. Otherwise it defaults to 100, 10000, 500, 1000, 20 or 12. |
| IdeaAnalysis.MissingCostsAreDefaults | backend/ai/analyze.ts:254-282 | A reply without a cost object gets the same default figures as the fallback. |
| IdeaAnalysis.FallbackIsTheDefaults | backend/ai/analyze.ts:246-283 | An empty object reads as the fallback, except for the analysis text. |
| IdeaAnalysis.PerformOrder | backend/ai/analyze.ts:124-139 | The result is Claude's parsed reply when Claude succeeds, otherwise GPT's. It fails exactly when both threw. |
| IdeaAnalysis.Owned | backend/ai/analyze.ts:39-54 | No error exactly when the user exists and owns the idea. An unknown user gives "User not found", and otherwise "Idea not found". |
| IdeaAnalysis.NotOwnedChangesNothing | backend/ai/analyze.ts:39-54 | A missing user or idea throws before anything is written. |
| IdeaAnalysis.Lifecycle | backend/ai/analyze.ts:56-120 | The status goes "analyzing" then "completed" or "failed". On success the scores are upserted under (idea, track) and the costs under the idea. On failure "AI analysis unavailable" is thrown and neither table changes. |
| IdeaAnalysis.OtherTracksKept | backend/ai/analyze.ts:66-85 | The scores of any other (idea, track) are unchanged. |
| IdeaAnalysis.IdeaAnalyzer.constructor | backend/ai/analyze.ts:33-35 | Starts with the given ideas, no scores or costs, and no status writes. |
| IdeaAnalysis.IdeaAnalyzer.AnalyzeIdea | backend/ai/analyze.ts:33-122 | The reply and the new tables are those of the endpoint's specification for the routed outcome. |

## Left out

- Network transport: the HTTP requests of the adapters, the readability fetch, the Anthropic/OpenAI calls and the webhook POSTs. Their responses, or the fact that they threw, are inputs.
- SQL semantics: tables are maps and sequences in store classes. `ON CONFLICT` upserts are map updates, serial ids are `|rows| + 1` (sequence gaps are not modelled), and `applied_at`/`created_at` timestamps are not stored.
- Database errors are an input only for these queries: the scrape run's item lookup, insert, flag and publish (an oracle saying which fails); each query of the enrichment pipeline, its `catch` update included (`EnrichPipeline.Step`); the bulk import's idea inserts (`insertFails`); each migration's transaction (`exec`); and the plan limiter's `try` block. Every other query never fails in the model, as the following lines, one per member, record. The writes of the startup and idea analysis endpoints never fail in the model either. The schema effects of migration SQL are not modelled; only whether each migration's transaction fails, and with which message.
- EnrichPipeline.MissingItemFailsJobs and EnrichPipeline.FailedWriteInsertsNoIdea: these promise failed jobs only when the `catch` block's update succeeds. When that update fails too, the new job stays running and the handler rejects (`EnrichPipeline.FailedCatchLeavesJobRunning`).
- Scoring.ScoreStore.Score: the dimensions SELECT (backend/validation/score.ts:19-21), the score upsert (score.ts:50-56) and the `ideas` UPDATE (score.ts:58-61) never fail in the model. In the source a failing UPDATE rejects the request after the upsert was written.
- Compliance.ComplianceStore.Scan: the user and idea lookups (backend/compliance/scan.ts:25-39) and the `compliance_scans` INSERT (scan.ts:46-62) never fail in the model.
- Sources.UpdateSource: the UPDATE (backend/scraper/sources.ts:74-77) never fails in the model.
- Webhooks.WebhookStore.ProcessWebhook: the inbound INSERT (backend/integrations/webhooks.ts:32-35) never fails in the model.
- Webhooks.WebhookStore.TriggerWebhooks: the subscribers SELECT (webhooks.ts:41-44) and the delivery INSERTs (webhooks.ts:49-52) never fail in the model.
- Webhooks.WebhookStore.DeliverPendingWebhooks: the pending SELECT (webhooks.ts:59-65) and the per-row UPDATEs (webhooks.ts:81-101) never fail in the model. In the source an UPDATE that fails inside the `catch` block aborts the rest of the pass.
- EnrichRun.Run: the open-job SELECT and the INSERT for one item (backend/enrichment/run.ts:26-35), and the eligible-items SELECT and the INSERTs of a bulk run (run.ts:41-52), never fail in the model.
- BulkImport.ImportStore.CommitImport: the import SELECT (backend/imports/bulk.ts:66-69), the `processing` UPDATE (bulk.ts:77-80) and the final UPDATE (bulk.ts:124-130) never fail in the model; only the per-line idea insert does.
- Migrations.MigrationManager.GetPendingMigrations: `ensureMigrationsTable` and the `getAppliedMigrations` SELECT (backend/db/migrations.ts:24-90) never fail in the model, and neither does reading the migration files. The applied records are the manager's state.
- Migrations.MigrationManager.ValidateMigrations: for the same reason the `catch` block that returns false (migrations.ts:223-230) is never reached in the model; false comes only from a missing or modified migration.
- Pub/sub transport: publishing appends to an event log, and the subscription handler is applied to any sequence of deliveries. At-least-once redelivery is covered by applying the same delivery twice.
- Cryptography (`sha256` for content and title hashes, HMAC-SHA256 for webhook signatures), `JSON.parse`, `JSON.stringify`, the `URL` constructor, `new Date(...)` parsing and `Math.sqrt`: each is a function parameter, and no property depends on its value.
- The email, URL, money and percentage patterns of the entity extractor, `validateEmail`'s pattern, and `sanitizeHtml`: their matches are inputs.
- Floating point: numbers are `real`. Rounding, `toFixed`, `Intl.NumberFormat` and the rendering of non-integral numbers are not modelled, and `Math.sqrt` is a parameter of the embedding's normalisation.
- Clocks, timers and randomness: `Date.now()`, the retry jitter and the logger's random request id are parameters. The `setInterval` cleanup timers and the per-key `setTimeout` in the plan limiter are not modelled; the cleanup methods and the expiry checks are.
- Concurrency: the pipeline's `Promise.all` fan-out is composed sequentially, which is faithful because the extractors are pure. Concurrent stream handlers and overlapping scrape runs are not modelled.
- Strings: one UTF-16 code unit per `char`. Supplementary-plane characters are not modelled, and `toLowerCase` folds ASCII letters only.
- `Object.entries` order: objects keep insertion order. The rule that integer-like keys come first is not modelled (keyphrase frequency tables, score dimensions).
- JavaScript coercion: `JsValue.ToNumber` converts numbers, booleans, null, undefined and optionally signed decimal-integer strings (trimmed) as JavaScript does. Strings with a fraction, exponent, hex prefix or `Infinity`, and all arrays, become NaN in the model, whereas JavaScript gives them a number (`[]` is 0).
- LLM prompt templates (`buildStartupAnalysisPrompt`, `buildAnalysisPrompt`) are constant strings and are not modelled. Each provider call (request, `ok` check, reply extraction) is one `Result<string>` input.
- Logging side effects: the loggers' records are modelled in `Logging` and `PlatformLog`. The log calls made by the endpoints and by `handleError` are not.
- Encore's request-schema checks before a handler runs are not modelled. `analysis_depth` is validated but otherwise unused, since it only enters the prompt.
- IdeaAnalysis.IdeaAnalyzer.AnalyzeIdea: `idea_id` is an `int` in the model, whereas the endpoint accepts any JSON number (backend/ai/analyze.ts:10). A fractional id matches no row of `ideas` in the SELECT at analyze.ts:47-50, so the source throws "Idea not found"; the model has no such input.
- `listSources` (backend/scraper/sources.ts:24-43): a plain SELECT with no logic of its own.
- `getSignals` (backend/enrichment/run.ts:58-74): it calls an undefined `getDB()`.
- `createImport` and `getImport` (backend/imports/bulk.ts): a plain INSERT and SELECT around the modelled `commitImport`.
- `MemoryCache.stats()` and the `cached` decorator (backend/cache/cache.ts): reporting and a wrapper around `get`/`set`. The four shared cache instances appear only where an endpoint uses one (the analysis cache).
- `wrapAsync` (backend/logging/errors.ts): a try/catch that calls the modelled `handleError`.
- `sanitizeHtml` (backend/logging/validation.ts): a chain of complex regular-expression replacements.
- The security endpoints `getRateLimitStats`, `resetUserRateLimit` and `analyzeSecurityRisk`, and the `apply*RateLimit` wrappers with their fixed limits: thin wrappers over the modelled `RateLimiter`, `applyRateLimit` and `analyzeRequest`.
- The notification `sendTest` endpoint: a call to the modelled `sendNotificationToUser`. A stream's `send` failure is the `broken` set of stream ids, and the welcome message's failure is the `welcomeFails` input.
- ScrapeRun.Run: the sources SELECT (backend/scraper/run.ts:39) and the `last_fetch_at` UPDATE (run.ts:98-101) never fail in the model. In the source a failing SELECT rejects the whole request, and a failing UPDATE is caught for its source after that source's items were stored.
- Scoring.AdjustedDims: reads the request's and the configuration's own keys only. A request key inherited from `Object.prototype`, such as `constructor`, passes the `in` test (backend/validation/score.ts:37) and then makes `overall` NaN (score.ts:44); the model ignores such keys.
- Scoring.OverallBounded: the [0, 100] bound holds for own keys only, so not for a request key such as `constructor`, for the reason given for `Scoring.AdjustedDims`.
- Keyphrases.CountWords: the frequency table holds own keys only. In the source the tokens `constructor` and `__proto__` read inherited values at backend/enrichment/enrichers/keyphrases.ts:15: `constructor` gets a string count and `__proto__` is lost.
- Keyphrases.KeyphraseBounds: the phrase count and the score bounds hold for texts without the tokens `constructor` and `__proto__`, for the reason given for `Keyphrases.CountWords`.
- PlanLimit.PlanLimits: the plan table is read by own keys only. A plan named `constructor` or `__proto__` finds an inherited value at backend/platform/ratelimit.ts:15 whose `max` is undefined, so the source allows every call for it.
- PlanLimit.UnknownPlanIsFree: holds for plan names that are not inherited `Object.prototype` names, for the reason given for `PlanLimit.PlanLimits`.
- ApiAdapter.MapItems: `item[idField]` and `item[urlField]` read own fields only; an inherited field name such as `constructor` configured as `idField` gives a function in the source (backend/scraper/adapters/api.ts:42-43).
- HtmlAdapter.ParseHtml: the configured container selector and the tag names enter `new RegExp` unescaped (backend/scraper/adapters/html.ts:45 and html.ts:53). The model matches them as literal text, so regular-expression metacharacters in a selector are not modelled: `div.post` also matches `<divXpost>` in the source, `a|b` changes the pattern, and `(` throws.
- WebVitals.Thresholds: the threshold table is read by own keys only. For a name inherited from `Object.prototype`, such as `constructor`, `__proto__` or `toString`, `thresholds[name]` at frontend/hooks/useWebVitals.ts:59 is a truthy value that is not iterable, so the source's destructuring throws a TypeError; the model gives such a name [0, 0].
- WebVitals.UnknownMetric: holds only for names that are not inherited `Object.prototype` names. For `constructor` or `__proto__` the source throws at useWebVitals.ts:59 instead of rating against [0, 0].
- The web-vitals hook's metric buffer and reporting timers are not modelled.
- Auth, monitoring and CRUD glue: Clerk auth is the `clerkId`/`users` inputs. Sentry, the frontend pages, leaderboards, digests and the idea/user CRUD endpoints are outside this model.
