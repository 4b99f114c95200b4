# PersonalNewsFeed digest pipeline, in Dafny

This project models the core of PersonalNewsFeed, a pipeline that turns RSS
feeds into a digest written by a language model. The modelled parts are:

- **Feed post-processing** (app/rss_utils.py). `parse_feed` keeps the items
  of one feed published strictly after a cutoff, in feed order.
  `fetch_recent_entries` merges the feeds' results in the order their
  workers complete, drops the feeds whose worker raised, and sorts the
  merge newest first with a stable sort.
- **Session managers** (src/summary_manager.py and its older variant
  app/summary_manager.py). Each session remembers the links it has handed
  out. It hands out only the unseen entries. It summarises them with the
  language model, picks the top entries out of the summary and, on request,
  summarises each of those with one more call.
- **Summarizer** (src/summarizer.py). It builds the prompts from templates
  and splits the entries greedily into chunks under a token limit. It makes
  one call per chunk, then one overall call over the chunk summaries.
- **Top-entry extractor** (src/response_parser.py). It finds the
  `Top Source Links:` section of the overall summary and takes the first
  URL of each of its lines. It normalises that URL with `normalize_url`,
  which is modelled on CPython's `urlparse` and `urlunparse`. It keeps the
  known entries the URLs name, in text order, without duplicates, capped
  at `max_count`.
- **Cost estimator** (app/token_utils.py). It looks up the model's prices
  per 1000 tokens, with `gpt-4` as the fallback, and rounds the price to
  six decimals. The model uses integer micro-dollars, so the rounding is
  round-half-even to the whole micro-dollar.

The language-model service is an oracle: a function from the call's
position in the session and its messages to the reply text and cost. The
client (`Llm.LlmClient`) keeps the log of the calls made. The managers are
classes whose methods update `seenLinks` and the call log. Their contracts
state the whole new log, the digest and the costs in terms of that oracle.

The module layout follows the source:

| module | models |
|---|---|
| `Text` | the Python `str` helpers used: `strip`, `rstrip(c)`, `splitlines`, `find` |
| `Url` | `normalize_url`, with `urlparse` and `urlunparse` |
| `Sequences` | de-duplication in order of first occurrence, truncation |
| `Feed` | the entry record |
| `ResponseParser` | `extract_top_entries_from_summary` |
| `Llm` | `LLMClient.chat` as an oracle with a call log |
| `Summarizer` | `Summarizer` of src/summarizer.py |
| `TokenCost` | `MODEL_PRICING` and `estimate_openai_cost` |
| `RssUtils` | `parse_feed` and `fetch_recent_entries` |
| `Session` | what both managers share: unseen entries, digest records |
| `SrcSummaryManager` | `SummaryManager` of src/summary_manager.py |
| `AppSummaryManager` | `SummaryManager` of app/summary_manager.py |

Three places where the code does something other than its names or
its prompts suggest; the model follows the code:

- The prompt templates ask the model for a `### Top Sources` section with
  `Top Sources:` lines (src/prompt_templates.py:21, 29), but the extractor
  searches for `Top Source Links:` (src/response_parser.py:12) and takes
  the text after it up to the first blank line or the end of the reply.
- Despite its name, `raw_entries` holds the selected entries, not every
  new entry (src/summary_manager.py:52, app/summary_manager.py:45).
- In app/summary_manager.py, `bulk_cost` is the cost of the bulk call
  alone (app/summary_manager.py:30-42); the entry calls are paid but not
  counted.

src/summary_manager.py also unpacks the extractor's single list into two
names (see Findings).

## Model

| member | source | states |
|---|---|---|
| Text.LStripCuts | src/response_parser.py:23 | `lstrip` removes exactly the longest all-whitespace prefix |
| Text.RStripCuts | src/response_parser.py:23 | `rstrip` removes exactly the longest all-whitespace suffix |
| Text.StripCutsOnlySpace | src/response_parser.py:23 | `strip` keeps a contiguous run of the string, cut only at whitespace, and the kept run starts and ends with non-whitespace |
| Text.RStripChar | src/response_parser.py:7 | `rstrip("/")` keeps a prefix, removes only `/` characters, and the result does not end in `/` |
| Text.SplitLines | src/response_parser.py:23 | no line of `splitlines()` contains a line boundary |
| Text.SplitLinesSplits | src/response_parser.py:23 | the lines, each followed by its boundary (one boundary character or `\r\n`, none after an unterminated last line), give back the text |
| Text.SplitsIntoUnique | src/response_parser.py:23 | any split of the text into boundary-free lines and boundaries, with `\r\n` as one boundary and no empty unterminated last line, is the one `splitlines` makes |
| Text.LineLength | src/response_parser.py:23 | a line runs up to, and not across, the first line boundary |
| Text.LowerAscii | src/response_parser.py:6 | the scheme is lower-cased character by character |
| Text.Find | src/response_parser.py:6 | the index of the first occurrence of the character, or the length when it is absent |
| Text.FindAbsent | src/response_parser.py:6 | `find` reports the length exactly when the character is absent |
| Text.RFind | src/response_parser.py:6 | the index of the last occurrence of the character, or the length when it is absent |
| Url.LStripControl | src/response_parser.py:6 | `urlparse` strips the leading run of C0 control characters and spaces: every removed character is at most U+0020, and the kept text does not start with one |
| Url.RemoveUnsafe | src/response_parser.py:6 | `urlparse` removes every tab, CR and LF |
| Url.RemoveUnsafeKeeps | src/response_parser.py:6 | every character other than tab, CR and LF is kept, as often as it occurs |
| Url.RemoveUnsafeConcat | src/response_parser.py:6 | the removal works character by character, so the kept characters stay in their order |
| Url.RemoveUnsafeNoop | src/response_parser.py:6 | a URL without tab, CR or LF is left unchanged by that removal |
| Url.Parse | src/response_parser.py:6 | none: `urlparse` as CPython 3.11 splits a URL; what it does to absolute `http(s)` URLs is stated by Url.ParseAbsolute and Url.ParseAbsoluteQuery, and to relative paths by Url.ParsePlainPath, Url.ParseSlashSemiXSlash and Url.ParseSlashSemiX |
| Url.SplitUrl | src/response_parser.py:6 | none: the scheme split of `urlsplit` followed by the rest; stated through Url.ParseAbsolute |
| Url.SplitNetloc | src/response_parser.py:6 | none: `_splitnetloc` after a leading `//`; Url.SplitNetlocAt states that the netloc runs up to the first `/`, `?` or `#` |
| Url.SplitAfterScheme | src/response_parser.py:6 | none: netloc, fragment, query and params in `urlsplit`'s order; stated through Url.ParseAbsolute |
| Url.SplitNetlocAt | src/response_parser.py:6 | after `//`, a netloc free of `/`, `?` and `#` is split off up to the path, query or fragment that follows it |
| Url.SplitOnceAt | src/response_parser.py:6 | `split(c, 1)` of a string whose first `c` follows `a` gives `a` and the text after that `c` |
| Url.ParseAbsoluteQuery | src/response_parser.py:6 | `urlparse` of `http(s)://netloc/path?query` gives exactly that scheme, netloc, path and query, with no params or fragment |
| Url.ParseAbsolute | src/response_parser.py:6 | `urlparse` of `http(s)://netloc/path` gives exactly that scheme, netloc and path, with no params, query or fragment |
| Url.Unparse | src/response_parser.py:8 | none: `urlunparse`; Url.UnparseAbsolute states that it rebuilds `scheme://netloc/path`, and Url.NormalizeSlashSemiXSlash and Url.NormalizeSlashSemiX state two relative cases |
| Url.UnparseAbsolute | src/response_parser.py:8 | `urlunparse` of a web scheme, a netloc and a path that is empty or starts with `/`, with nothing else, is `scheme://netloc` followed by the path |
| Url.FindNetlocEnd | src/response_parser.py:6 | the network location ends at the first `/`, `?` or `#` |
| Url.SplitOnce | src/response_parser.py:6 | `split(c, 1)` gives the text before the first `c` and the rest after it |
| Url.ParsePlainPath | src/response_parser.py:6 | a path without `:`, `?`, `#`, tab, CR or LF that does not start with a control character or with `//` parses to that path, with `;params` split off when present |
| Url.Normalize | src/response_parser.py:7-8 | normalisation empties the query, removes exactly the trailing `/` run of the path and keeps every other component |
| Url.NormalizeUrl | src/response_parser.py:4-8 | none: `normalize_url` is parse, normalise, unparse; Url.NormalizeUrlAbsolute and Url.NormalizeUrlAbsoluteQuery state its effect on `http(s)` URLs, Url.Normalize states the middle step, and Url.NormalizeUrlNotIdempotent shows that the whole is not idempotent on strings |
| Url.NormalizeUrlAbsoluteQuery | src/response_parser.py:4-8 | `normalize_url` of `http(s)://netloc/path?query` drops the query and every trailing `/` of the path, giving `scheme://netloc` plus the stripped path |
| Url.NormalizeUrlAbsolute | src/response_parser.py:4-8 | `normalize_url` of `http(s)://netloc/path` cuts every trailing `/` of the path and changes nothing else |
| Url.NormalizeUrlDropsQuery | src/response_parser.py:4-8 | the matching the function exists for: a web URL with a query and the same URL without it share one key |
| Url.NormalizeUrlDropsSlashes | src/response_parser.py:4-8 | a web URL with any number of trailing slashes added shares its key with the URL without them |
| Url.NormalizeUrlAbsoluteIdempotent | src/response_parser.py:4-8 | on `http(s)` URLs, with or without a query, normalising twice is the same as normalising once |
| Url.NormalizeUrlExample | src/response_parser.py:4-8 | `http://x.com/a/?q=1` and `http://x.com/a` both normalise to `http://x.com/a` |
| Url.NormalizeIdempotent | src/response_parser.py:4-8 | on parsed components, normalising twice is the same as normalising once |
| Url.NormalizeSlashSemiXSlash | src/response_parser.py:4-8 | `normalize_url("/;x/")` is `"/;x"` |
| Url.NormalizeSlashSemiX | src/response_parser.py:4-8 | `normalize_url("/;x")` is `";x"`, because the params split off the last path segment |
| Url.NormalizeUrlNotIdempotent | src/response_parser.py:4-8 | on strings, `normalize_url` is not idempotent: `"/;x/"` normalises to `"/;x"` and then to `";x"` |
| ResponseParser.FindHeading | src/response_parser.py:12-13 | the leftmost case-insensitive occurrence of the heading at or after a position, or None exactly when there is none |
| ResponseParser.SkipSpace | src/response_parser.py:12 | `\s*` after the heading consumes exactly the maximal whitespace run |
| ResponseParser.SectionEnd | src/response_parser.py:12 | the lazy group stops at the first `\n\n` or at the end of the text |
| ResponseParser.Section | src/response_parser.py:12-17 | None exactly when the heading occurs nowhere; otherwise the section is a prefix of the text after a heading occurrence |
| ResponseParser.SectionIsGroup | src/response_parser.py:12-17 | the section is the text from the end of the whitespace after the leftmost heading up to the first `\n\n` after it, or to the end of the text |
| ResponseParser.NonBlankStripped | src/response_parser.py:23 | every kept line is the stripped form of an input line and is not blank, and every input line that is not blank once stripped is kept |
| ResponseParser.NonBlankStrippedConcat | src/response_parser.py:23 | the comprehension keeps the order of the lines |
| ResponseParser.NormalizeDashes | src/response_parser.py:27 | no en or em dash remains, and a line without one is left unchanged |
| ResponseParser.NormalizeFirstDash | src/response_parser.py:27 | the leftmost dash, with the whitespace on both sides of it, becomes ` - `; the text before it is kept and the text after it is rewritten in turn |
| ResponseParser.UrlPrefixAt | src/response_parser.py:30 | a match starts with `https://` or `http://` and is followed by at least one URL character |
| ResponseParser.UrlRunEnd | src/response_parser.py:30 | `[^\s)]+` is greedy: it consumes URL characters up to the first space or `)` |
| ResponseParser.FindUrlStart | src/response_parser.py:30 | the leftmost position where a URL match starts, or None exactly when no position does |
| ResponseParser.FindUrl | src/response_parser.py:30-32 | None exactly when the line holds no URL match; otherwise the match starts with `http://` or `https://` and holds only URL characters |
| ResponseParser.EntryMapHas | src/response_parser.py:21 | every entry's normalised link is a key of the entry map |
| ResponseParser.EntryMapValue | src/response_parser.py:21 | each key of the entry map maps to one of the entries, whose normalised link is that key |
| ResponseParser.EntryMapLastWins | src/response_parser.py:21 | of several entries with the same normalised link the map keeps the last |
| ResponseParser.HitsMember | src/response_parser.py:35-38 | an entry is among the looked-up entries exactly when some URL of the section names it |
| ResponseParser.CappedAtStop | src/response_parser.py:40-41 | stopping when the cap is reached gives the capped selection |
| ResponseParser.CappedAtEnd | src/response_parser.py:25-43 | running out of lines below the cap gives every distinct hit |
| ResponseParser.Capped | src/response_parser.py:25-41 | none: the reference definition of the loop's result, whose meaning Capped{Distinct,Bound,Sound,Complete,Order} state |
| ResponseParser.TopEntries | src/response_parser.py:10-43 | none: the extractor's result as a function; ExtractTopEntries computes it and TopEntries{Sound,Complete,DistinctAndBounded} state what it holds |
| ResponseParser.CollectStep | src/response_parser.py:25-38 | a line without a URL changes nothing; a URL naming an entry not yet held appends that entry |
| ResponseParser.CollectTop | src/response_parser.py:25-43 | the loop returns the distinct entries named by the lines' URLs, in order of first mention, capped at `max_count` |
| ResponseParser.ExtractTopEntries | src/response_parser.py:10-43 | the extractor returns `TopEntries`: nothing without the heading, otherwise the capped selection from the section |
| ResponseParser.CappedDistinct | src/response_parser.py:37 | the selection holds no entry twice |
| ResponseParser.CappedBound | src/response_parser.py:40-41 | at most `max_count` entries, and at most one when `max_count <= 0` because the cap is checked after the append |
| ResponseParser.CappedSound | src/response_parser.py:35-38 | every selected entry is named by one of the URLs |
| ResponseParser.CappedComplete | src/response_parser.py:35-41 | with a cap at least the number of URLs, every entry a URL names is selected |
| ResponseParser.CappedOrder | src/response_parser.py:25-38 | selected entries appear in the order of their first mention |
| ResponseParser.NoHeadingNoEntries | src/response_parser.py:14-15 | a summary without the heading yields the empty list, not an error |
| ResponseParser.TopEntriesSound | src/response_parser.py:21-38 | every extracted entry is one of the given entries, and its normalised link is a URL read from the section |
| ResponseParser.TopEntriesComplete | src/response_parser.py:21-41 | with room for all URLs, the map's entry for every given entry whose normalised link is read from the section is extracted |
| ResponseParser.TopEntriesDistinctAndBounded | src/response_parser.py:37-41 | the extracted list has no duplicates and respects the cap |
| Sequences.Dedup | src/response_parser.py:37-38 | de-duplication never lengthens the list |
| Sequences.DedupSnoc | src/response_parser.py:37-38 | appending an element appends it to the output exactly when it is new |
| Sequences.DedupMember | src/response_parser.py:37-38 | de-duplication keeps exactly the elements of the input |
| Sequences.DedupDistinct | src/response_parser.py:37 | no element occurs twice in the output |
| Sequences.DedupPrefix | src/response_parser.py:40-41 | de-duplicating a prefix gives a prefix of the de-duplicated whole |
| Sequences.DedupOrder | src/response_parser.py:37-38 | the output lists elements in the order of their first occurrence |
| Sequences.Take | src/response_parser.py:40-41 | truncation keeps a prefix of length `min(n, len)` |
| Llm.LlmClient.Chat | src/llm_client.py:17-34 | one call is appended to the log, and the text and cost are the service's answer to it |
| Summarizer.FormatConcat | src/summarizer.py:11-14 | `format` of a template split in two is the concatenation of the two formatted halves |
| Summarizer.FormatField | src/summarizer.py:19-26 | each `{name}` field is replaced by the value given for that name |
| Summarizer.Blocks | src/summarizer.py:67 | one rendered block per entry of the chunk, in order |
| Summarizer.Extend | src/summarizer.py:52-58 | the greedy rule extends a chunk while the summed token count stays within the limit, and stops just before the entry that would exceed it |
| Summarizer.GreedyChunksValid | src/summarizer.py:47-61 | the greedy chunks concatenate back to the entries, are non-empty, stay within the limit unless a single entry is alone, and each chunk was closed only because the next entry did not fit |
| Summarizer.GreedyChunks | src/summarizer.py:47-61 | none: the greedy partition as a function; GreedyChunksValid and ValidChunkingUnique state what it is |
| Summarizer.ValidChunkingUnique | src/summarizer.py:47-61 | only one partition has those properties, so `chunk_entries` is determined by them |
| Summarizer.StartChunk | src/summarizer.py:52-55 | an entry that does not fit closes the open chunk and opens a new one |
| Summarizer.ExtendChunk | src/summarizer.py:56-58 | an entry that fits, or finds the open chunk empty, joins the open chunk |
| Summarizer.FinishChunking | src/summarizer.py:59-61 | closing the last non-empty chunk yields a valid partition of all entries |
| Summarizer.Summarizer.AudienceDescription | src/summarizer.py:10 | the configured audience description, or the empty string for an unknown key |
| Summarizer.Summarizer.SystemPrompt | src/summarizer.py:9-15 | none: the system template formatted with the subject area and the audience description; UnknownAudience and EntryMessages state its use |
| Summarizer.Summarizer.UnknownAudience | src/summarizer.py:9-15 | an unknown audience key formats the system prompt with an empty audience description |
| Summarizer.Summarizer.EntryMessages | src/summarizer.py:17-27 | a system message with the system prompt, then a user message |
| Summarizer.Summarizer.BulkMessages | src/summarizer.py:29-38 | a system message with the system prompt, then a user message |
| Summarizer.Summarizer.BulkRequestsAt | src/summarizer.py:66-75 | the `i`th request is the bulk prompt over the `i`th chunk's blocks, with summary length 1000 |
| Summarizer.Summarizer.SummarizeEntry | src/summarizer.py:41-44 | one call with the entry prompt at summary length 300; its reply is returned |
| Summarizer.Summarizer.ChunkEntries | src/summarizer.py:47-61 | the loop returns the greedy partition, which is a valid chunking |
| Summarizer.Summarizer.SummarizeBulkChunks | src/summarizer.py:63-81 | one call per chunk, in chunk order; the texts are the replies and the cost is their sum |
| Summarizer.Summarizer.SummarizeOverallSummaries | src/summarizer.py:83-94 | one call over the chunk summaries with content type `summaries` and length 2000; its reply is returned |
| TokenCost.PricingFor | app/token_utils.py:28 | the table's rates for a listed model, the `gpt-4` rates otherwise |
| TokenCost.RoundThousandths | app/token_utils.py:32 | rounding to the nearest micro-dollar, with ties to the even neighbour |
| TokenCost.RoundMonotone | app/token_utils.py:32 | rounding never reverses the order of two amounts |
| TokenCost.EstimateTiesToEven | app/token_utils.py:27-32 | a price strictly between two whole micro-dollars goes to the nearer one, and one exactly half-way goes to the even one |
| TokenCost.EstimateCost | app/token_utils.py:27-32 | the estimate is within half a micro-dollar of the exact price at the model's rates (the gpt-4 rates for an unknown model) |
| TokenCost.UnknownModelPricedAsGpt4 | app/token_utils.py:28 | an unlisted model is priced as `gpt-4` and never rejected |
| TokenCost.Gpt4PreviewSameAsGpt4 | app/token_utils.py:4-11 | `gpt-4-1106-preview` and `gpt-4` give the same cost |
| TokenCost.ZeroTokensCostNothing | app/token_utils.py:30-32 | zero tokens cost nothing |
| TokenCost.CostNonNegative | app/token_utils.py:30-32 | non-negative token counts never give a negative cost |
| TokenCost.CostMonotone | app/token_utils.py:30-32 | for a fixed model, more tokens of either kind never cost less |
| TokenCost.Gpt4oMiniExample | app/token_utils.py:20-32 | 1000 prompt and 1000 completion tokens on `gpt-4o-mini` cost 750 micro-dollars |
| TokenCost.HalfEvenExample | app/token_utils.py:30-32 | half a micro-dollar rounds to the even neighbour |
| RssUtils.ToEntry | app/rss_utils.py:21-27 | the record carries the item's title, link and publication time, and the HTML-to-text of its summary, or of `""` when it has none |
| RssUtils.RecentConcat | app/rss_utils.py:17-27 | the records of two runs of items are those of the first followed by those of the second, so feed order is kept |
| RssUtils.RecentMember | app/rss_utils.py:17-27 | a record comes out exactly for each item that has a publication time after the cutoff |
| RssUtils.RecentAfterCutoff | app/rss_utils.py:18-20 | every record is strictly newer than the cutoff |
| RssUtils.Recent | app/rss_utils.py:17-27 | at most one record per item; RecentMember and RecentConcat state which records, in which order |
| RssUtils.ParseFeed | app/rss_utils.py:10-29 | a failed download gives `[]`; otherwise the loop returns the recent records in feed order |
| RssUtils.MergedConcat | app/rss_utils.py:36-43 | the merge of two runs of feeds is the merge of the first followed by that of the second |
| RssUtils.Merged | app/rss_utils.py:36-43 | none: the records of the feeds, in the order the workers complete; MergedConcat and MergedPermutation state its properties |
| RssUtils.MergedPermutation | app/rss_utils.py:36-43 | reordering the feeds only reorders the merged records |
| RssUtils.InsertSorted | app/rss_utils.py:45 | insertion adds the record and keeps the list newest first |
| RssUtils.SortSorted | app/rss_utils.py:45 | the sort is a permutation whose result is newest first |
| RssUtils.SortNewestFirst | app/rss_utils.py:45 | the length is kept; SortSorted and SortStable state that it is a stable newest-first permutation |
| RssUtils.SortStable | app/rss_utils.py:45 | the sort is stable: records with the same publication time keep their order |
| RssUtils.FetchRecentEntries | app/rss_utils.py:31-46 | the cutoff is `now - days_limit` days; the result is the sorted merge of the feeds' records in completion order |
| RssUtils.FetchedIsSortedPermutation | app/rss_utils.py:36-45 | the result is newest first and holds exactly the records of the feeds in their given order, whatever order the workers complete in; nothing is de-duplicated |
| RssUtils.RaisedFeedContributesNothing | app/rss_utils.py:38-43 | a feed whose worker raised adds nothing, and the other feeds still add their records |
| Session.UnseenMember | src/summary_manager.py:16 | an entry is new exactly when it was fetched and its link was not seen |
| Session.Unseen | src/summary_manager.py:16 | never more entries than fetched; UnseenMember and UnseenConcat state which entries, in which order |
| Session.UnseenConcat | src/summary_manager.py:16 | filtering keeps the fetched order |
| Session.UnseenAgainEmpty | src/summary_manager.py:16-19 | once the new links are recorded, the same fetch yields nothing new |
| Session.SameLinkTwiceBothNew | src/summary_manager.py:16-19 | two fetched entries with the same unseen link are both new, because the links are recorded only after filtering |
| Session.RecordsAt | src/summary_manager.py:43-45 | the `k`th record carries the `k`th selected entry unchanged, with the text and cost of the `k`th reply |
| Session.RecordsCostIsTotal | src/summary_manager.py:44-46 | the records together cost what their calls cost |
| SrcSummaryManager.UnpackPair | src/summary_manager.py:37 | unpacking into two names succeeds exactly for a two-element list |
| SrcSummaryManager.AsWrittenUnpackRaisesWithoutHeading | src/summary_manager.py:37 | as written, a bulk summary without the heading makes the unpacking raise |
| SrcSummaryManager.AsWrittenUnpackRaisesForTopOne | src/summary_manager.py:37 | as written, `top_k = 1` makes the unpacking raise whatever the summary says |
| SrcSummaryManager.SummaryManager.constructor | src/summary_manager.py:8-11 | a new session has seen no link |
| SrcSummaryManager.SummaryManager.GetNewEntries | src/summary_manager.py:13-20 | the fetched entries with unseen links, in fetched order; their links are added to the seen set |
| SrcSummaryManager.SummaryManager.EntryCalls | src/summary_manager.py:43-44 | one entry call per selected entry |
| SrcSummaryManager.SummaryManager.EntryCallsAt | src/summary_manager.py:43-44 | the `k`th call is the entry prompt (summary length 300) for the `k`th selected entry |
| SrcSummaryManager.SummaryManager.SummarizeBulk | src/summary_manager.py:33-39 | the chunk calls then the overall call; the summary is the overall reply and the cost is the chunk costs plus the overall cost |
| SrcSummaryManager.SummaryManager.SummarizeEntries | src/summary_manager.py:41-46 | one call per selected entry, in order; one record each, and the summed cost |
| SrcSummaryManager.SummaryManager.SummarizeTop | src/summary_manager.py:41-46 | entry calls only when requested and something was selected |
| SrcSummaryManager.SummaryManager.SummarizeNew | src/summary_manager.py:31-53 | the log, digest and cost `Summarized` describes: the selection is the extractor's result on the overall reply |
| SrcSummaryManager.SummaryManager.CostIsAllCalls | src/summary_manager.py:39-49 | `bulk_cost` is the summed cost of every call the summarize made |
| SrcSummaryManager.SummaryManager.SelectionFromNewEntries | src/summary_manager.py:37 | `raw_entries` holds only new entries, none twice, at most `top_k` of them |
| SrcSummaryManager.SummaryManager.Summarize | src/summary_manager.py:22-53 | nothing new gives the all-empty sentinel and makes no call; otherwise the new entries are summarised as `Summarized` states; the seen links grow by the new links |
| SrcSummaryManager.SummaryManager.SummarizeSelected | src/summary_manager.py:55-61 | one entry call; the record carries the input entry unchanged with that call's text and cost |
| AppSummaryManager.AppSummarizer.SummarizeBulk | app/summarizer.py:44-48 | one call over all the entries; the selection is made from its reply |
| AppSummaryManager.AppSummarizer.SummarizeEntry | app/summarizer.py:39-42 | one call for the entry; its reply is returned |
| AppSummaryManager.SummaryManager.constructor | app/summary_manager.py:7-10 | a new session has seen no link |
| AppSummaryManager.SummaryManager.GetNewEntries | app/summary_manager.py:12-19 | the fetched entries with unseen links, in fetched order; their links are added to the seen set |
| AppSummaryManager.SummaryManager.EntryCalls | app/summary_manager.py:37-38 | one entry call per selected entry |
| AppSummaryManager.SummaryManager.EntryCallsAt | app/summary_manager.py:37-38 | the `k`th call is the entry prompt for the `k`th selected entry |
| AppSummaryManager.SummaryManager.SummarizeEntries | app/summary_manager.py:36-39 | one call per selected entry, in order, one record each |
| AppSummaryManager.SummaryManager.Summarize | app/summary_manager.py:21-46 | nothing new gives the sentinel and makes no call; otherwise one bulk call, then entry calls only when requested and something was selected; `bulk_cost` is the bulk call's cost alone and `raw_entries` is the selection |
| AppSummaryManager.SummaryManager.SummarizeSelected | app/summary_manager.py:48-54 | one entry call; the record carries the input entry unchanged |
| AppSummaryManager.SummaryManager.CostSplit | app/summary_manager.py:30-45 | the calls made cost `bulk_cost` plus the record costs, so the entry calls are paid for but not counted in `bulk_cost` |

## Left out

- Python's full Unicode case folding in the `IGNORECASE` heading search is
  left out. The heading is matched with ASCII case folding only; Python
  also equates a few other characters, such as the Kelvin sign with `k`.
- `urlparse` raising `ValueError` is left out: on malformed IPv6 brackets, and from the check `_checknetloc` makes that the NFKC normalisation of a non-ASCII netloc introduces no `/`, `?`, `#`, `@` or `:`.
  Bracket validation is not modelled.
- Url.NormalizeUrlAbsolute: the string-level lemmas cover `http(s)` URLs
  whose path has no `;` and which carry no fragment; a `;params` path or a
  `#fragment` goes through the same `Url.Parse` but has no lemma of its own.
- Url.NormalizeIdempotent: idempotence is stated on parsed components,
  and on strings only for `http(s)` URLs (`Url.NormalizeUrlAbsoluteIdempotent`).
  On strings in general, `normalize_url` is not idempotent
  (`Url.NormalizeUrlNotIdempotent`).
- Floating point is left out. Costs are exact integer micro-dollars, so
  the model does not claim bit-exact agreement with Python's `round` on
  floats.
- Threads are left out. The order in which `as_completed` hands back the
  workers is a parameter, `completed`, which must be a reordering of the
  feed URLs.
- feedparser, BeautifulSoup and the network are left out. A feed is given
  by its outcome: download failed, items read, or worker raised. The
  HTML-to-text step is a function parameter.
- RssUtils.ParseFeed: items without a title or link (where `entry.get`
  gives `None`) are not modelled; every item has both.
- The wall clock is left out. `datetime.utcnow()` is a parameter, `now`,
  in whole seconds.
- Llm.LlmClient.Chat: the error path is not modelled. The source returns
  the single string `"Error: ..."`, which the callers' two-name unpacking
  would reject. Every call here returns a text and a cost.
- `estimate_tokens` (src/token_utils.py) is not part of this model. The
  per-entry token count is a function parameter.
- The prompt templates (src/prompt_templates.py) and `Config.AUDIENCES`
  are constructor parameters. Templates are sequences of literal text and
  named fields.
- The `Config.SUBJECT_AREAS[subject_area][content_type]` lookup is left
  out, including its `KeyError`.
  - SrcSummaryManager.SummaryManager.Summarize receives the fetched
    entries. src/rss_utils.py is not part of this model.
  - AppSummaryManager.SummaryManager.Summarize receives the configured
    feed URLs and fetches through `RssUtils.FetchRecentEntries`.
- The `bulk` argument of both `summarize` methods is unused by the source,
  so it is not a parameter.
- app/summarizer.py's prompt assembly and the selection it takes from
  app/response_parser.py are not part of this model.
  `AppSummaryManager.AppSummarizer` receives them as functions.
- The Timsort of `entries.sort` is not modelled step by step. It is
  specified by a stable insertion sort (`RssUtils.SortNewestFirst`), proved
  sorted, a permutation and stable, which determines the result uniquely.
- Logging is left out.

## Findings

| source | as written | input that shows it | evidently intended | confidence | as-written member | corrected member |
|---|---|---|---|---|---|---|
| src/summary_manager.py:37 | `selected_entries, selected_urls = extract_top_entries_from_summary(...)` unpacks the single list the extractor returns | any selection whose length is not 2 raises `ValueError`: an overall summary without `Top Source Links:` (the extractor returns `[]`), `top_k = 1` (at most one entry), or three or more selected entries; exactly two selected entries bind `selected_entries` to the first entry's dict, and with `summarize_top_entries` set the loop at src/summary_manager.py:43-44 then passes that dict's keys, which are strings, as entries, and `entry["title"]` raises `TypeError` | `selected_entries = extract_top_entries_from_summary(...)`, with the digest built from that list | not executed | SrcSummaryManager.AsWrittenUnpackRaisesWithoutHeading | SrcSummaryManager.SummaryManager.Summarize |
