/**
 * `SummaryManager` of app/summary_manager.py, the older variant of the
 * session. It fetches the recent entries itself, keeps the ones whose link
 * it has not handed out yet, makes a single bulk call over all of them and,
 * on request, one call per selected entry. Unlike the src variant its
 * `bulk_cost` is the cost of the bulk call alone.
 *
 * Of app/summarizer.py the model keeps what the manager relies on: one
 * call per `summarize_bulk` and per `summarize_entry`, and the selection
 * made from the bulk reply. Its prompts come from `app.prompt_templates`
 * and its selection from app/response_parser.py, which are not part of
 * this model, so the messages and the selection are given as functions.
 */
module AppSummaryManager {
  import opened Feed
  import opened Llm
  import opened RssUtils
  import opened Session

  /** `app.summarizer.Summarizer` as the manager sees it: the client it
      calls, the messages of a bulk call and of an entry call, and the
      entries `summarize_bulk` picks out of the bulk reply. */
  class AppSummarizer {
    const llm: LlmClient
    /** `make_bulk_messages(entries, subject_area, audience_key, content_type, top_k=top_k)`. */
    const bulkMessages: (seq<Entry>, string, string, string, int) -> seq<Message>
    /** `make_entry_messages(entry, subject_area, audience_key, content_type)`. */
    const entryMessages: (Entry, string, string, string) -> seq<Message>
    /** `extract_top_entries_from_summary(summary, entries, max_count=top_k)`. */
    const select: (string, seq<Entry>, int) -> seq<Entry>

    constructor(llm: LlmClient, bulkMessages: (seq<Entry>, string, string, string, int) -> seq<Message>,
                entryMessages: (Entry, string, string, string) -> seq<Message>,
                select: (string, seq<Entry>, int) -> seq<Entry>)
      ensures this.llm == llm && this.bulkMessages == bulkMessages
      ensures this.entryMessages == entryMessages && this.select == select
    {
      this.llm := llm;
      this.bulkMessages := bulkMessages;
      this.entryMessages := entryMessages;
      this.select := select;
    }

    /** `summarize_bulk`: one call over all the entries; the selection is
        made from its reply. */
    method SummarizeBulk(entries: seq<Entry>, subjectArea: string, audienceKey: string, contentType: string, topK: int)
      returns (summary: string, cost: int, selected: seq<Entry>)
      modifies llm
      ensures llm.calls == old(llm.calls) + [bulkMessages(entries, subjectArea, audienceKey, contentType, topK)]
      ensures summary == Answer(llm.service, |old(llm.calls)|, bulkMessages(entries, subjectArea, audienceKey, contentType, topK)).text
      ensures cost == Answer(llm.service, |old(llm.calls)|, bulkMessages(entries, subjectArea, audienceKey, contentType, topK)).cost
      ensures selected == select(summary, entries, topK)
    {
      var msg := bulkMessages(entries, subjectArea, audienceKey, contentType, topK);
      summary, cost := llm.Chat(msg);
      selected := select(summary, entries, topK);
    }

    /** `summarize_entry`: one call for the entry. */
    method SummarizeEntry(entry: Entry, subjectArea: string, audienceKey: string, contentType: string)
      returns (summary: string, cost: int)
      modifies llm
      ensures llm.calls == old(llm.calls) + [entryMessages(entry, subjectArea, audienceKey, contentType)]
      ensures summary == Answer(llm.service, |old(llm.calls)|, entryMessages(entry, subjectArea, audienceKey, contentType)).text
      ensures cost == Answer(llm.service, |old(llm.calls)|, entryMessages(entry, subjectArea, audienceKey, contentType)).cost
    {
      var msg := entryMessages(entry, subjectArea, audienceKey, contentType);
      summary, cost := llm.Chat(msg);
    }
  }

  class SummaryManager {
    const summarizer: AppSummarizer
    /** The links of every entry handed out so far in the session. */
    var seenLinks: set<string>

    /** `SummaryManager(llm_client)`: no link seen yet. */
    constructor(summarizer: AppSummarizer)
      ensures this.summarizer == summarizer && seenLinks == {}
    {
      this.summarizer := summarizer;
      seenLinks := {};
    }

    /** `get_new_entries(feed_list, days_limit)` at wall-clock time `now`,
        the workers completing in the order `completed`: the fetched entries
        whose link was not seen before the call, in fetched order; their
        links are then recorded. */
    method GetNewEntries(feedUrls: seq<string>, daysLimit: int, now: int, feeds: string -> FeedOutcome,
                         htmlText: string -> string, completed: seq<string>)
      returns (newEntries: seq<Entry>)
      requires multiset(completed) == multiset(feedUrls)
      modifies this
      ensures newEntries == Unseen(Fetched(completed, daysLimit, now, feeds, htmlText), old(seenLinks))
      ensures seenLinks == old(seenLinks) + Links(newEntries)
    {
      var entries := FetchRecentEntries(feedUrls, daysLimit, now, feeds, htmlText, completed);
      newEntries := Unseen(entries, seenLinks);
      for i := 0 to |newEntries|
        invariant seenLinks == old(seenLinks) + Links(newEntries[..i])
      {
        LinksSnoc(newEntries, i);
        seenLinks := seenLinks + {newEntries[i].link};
      }
      assert newEntries[..|newEntries|] == newEntries;
    }

    /** The calls `summarize_entry` makes for each of `entries`, in order. */
    function EntryCalls(entries: seq<Entry>, subjectArea: string, audienceKey: string, contentType: string): (r: seq<seq<Message>>)
      ensures |r| == |entries|
    {
      if entries == [] then []
      else
        var n := |entries| - 1;
        EntryCalls(entries[..n], subjectArea, audienceKey, contentType)
        + [summarizer.entryMessages(entries[n], subjectArea, audienceKey, contentType)]
    }

    /** The `k`th call is the entry prompt for the `k`th entry. */
    lemma {:induction false} EntryCallsAt(entries: seq<Entry>, k: nat, subjectArea: string, audienceKey: string, contentType: string)
      requires k < |entries|
      ensures EntryCalls(entries, subjectArea, audienceKey, contentType)[k] == summarizer.entryMessages(entries[k], subjectArea, audienceKey, contentType)
      decreases |entries|
    {
      var n := |entries| - 1;
      if k < n {
        EntryCallsAt(entries[..n], k, subjectArea, audienceKey, contentType);
        assert entries[..n][k] == entries[k];
      }
    }

    lemma {:induction false} EntryCallsSnoc(entries: seq<Entry>, i: nat, subjectArea: string, audienceKey: string, contentType: string)
      requires i < |entries|
      ensures EntryCalls(entries[..i + 1], subjectArea, audienceKey, contentType)
              == EntryCalls(entries[..i], subjectArea, audienceKey, contentType)
                 + [summarizer.entryMessages(entries[i], subjectArea, audienceKey, contentType)]
    {
      assert entries[..i + 1][..i] == entries[..i];
    }

    /** What `summarize` does with new `entries`, the session going from
        `before` to `after`: the bulk call and, when requested and something
        was selected, one call per selected entry, in that order. The bulk
        summary is the bulk reply and `raw_entries` the selection made from
        it; each record carries the reply to its entry's call; `bulk_cost`
        is the bulk call's cost alone. */
    ghost predicate Summarized(before: seq<seq<Message>>, after: seq<seq<Message>>, entries: seq<Entry>,
                               subjectArea: string, contentType: string, audienceKey: string, topK: int,
                               summarizeTopEntries: bool, digest: Digest)
    {
      var service := summarizer.llm.service;
      var bulk := summarizer.bulkMessages(entries, subjectArea, audienceKey, contentType, topK);
      var reply := Answer(service, |before|, bulk);
      var selected := summarizer.select(reply.text, entries, topK);
      var requested := summarizeTopEntries && selected != [];
      var entryCalls := if requested then EntryCalls(selected, subjectArea, audienceKey, contentType) else [];
      && after == before + [bulk] + entryCalls
      && digest.bulkSummary == Some(reply.text)
      && digest.rawEntries == selected
      && digest.topEntries == (if requested then Records(selected, Replies(service, |before| + 1, entryCalls)) else [])
      && digest.bulkCost == Some(reply.cost)
    }

    /** The loop of `summarize` over the selected entries: one entry call
        each, in order, one record each. */
    method SummarizeEntries(selected: seq<Entry>, subjectArea: string, audienceKey: string, contentType: string)
      returns (records: seq<EntrySummary>)
      modifies summarizer.llm
      ensures summarizer.llm.calls == old(summarizer.llm.calls) + EntryCalls(selected, subjectArea, audienceKey, contentType)
      ensures records == Records(selected, Replies(summarizer.llm.service, |old(summarizer.llm.calls)|,
                                                   EntryCalls(selected, subjectArea, audienceKey, contentType)))
    {
      ghost var service, calls0 := summarizer.llm.service, summarizer.llm.calls;
      ghost var entryCalls: seq<seq<Message>> := [];
      ghost var cost := 0;
      records := [];
      for i := 0 to |selected|
        invariant entryCalls == EntryCalls(selected[..i], subjectArea, audienceKey, contentType)
        invariant Accounted(service, calls0, summarizer.llm.calls, entryCalls, selected[..i], records, cost)
      {
        var entry := selected[i];
        ghost var q := summarizer.entryMessages(entry, subjectArea, audienceKey, contentType);
        ghost var callsBefore := summarizer.llm.calls;
        EntryCallsSnoc(selected, i, subjectArea, audienceKey, contentType);
        var summary, c := summarizer.SummarizeEntry(entry, subjectArea, audienceKey, contentType);
        AccountedSnoc(service, calls0, callsBefore, entryCalls, selected[..i], records, cost, q, entry, summary, c);
        assert selected[..i + 1] == selected[..i] + [entry];
        records := records + [EntrySummary(c, summary, entry)];
        cost := cost + c;
        entryCalls := entryCalls + [q];
      }
      assert selected[..|selected|] == selected;
    }

    /** `summarize(subject_area, content_type, audience_key, days_limit,
        top_k, bulk, summarize_top_entries)`, with `feedUrls` the feeds
        configured for the subject area and content type: nothing new gives
        the sentinel and makes no call; otherwise the new entries are
        summarized as `Summarized` states. */
    method Summarize(subjectArea: string, contentType: string, audienceKey: string,
                     feedUrls: seq<string>, daysLimit: int, now: int, feeds: string -> FeedOutcome,
                     htmlText: string -> string, completed: seq<string>,
                     topK: int, summarizeTopEntries: bool)
      returns (digest: Digest)
      requires multiset(completed) == multiset(feedUrls)
      modifies this, summarizer.llm
      ensures var newEntries := Unseen(Fetched(completed, daysLimit, now, feeds, htmlText), old(seenLinks));
              && seenLinks == old(seenLinks) + Links(newEntries)
              && (newEntries == [] ==> digest == NothingNew && summarizer.llm.calls == old(summarizer.llm.calls))
              && (newEntries != [] ==>
                    Summarized(old(summarizer.llm.calls), summarizer.llm.calls, newEntries, subjectArea, contentType,
                               audienceKey, topK, summarizeTopEntries, digest))
    {
      var entries := GetNewEntries(feedUrls, daysLimit, now, feeds, htmlText, completed);
      if entries == [] {
        return NothingNew;
      }
      var bulkSummary, bulkCost, selected := summarizer.SummarizeBulk(entries, subjectArea, audienceKey, contentType, topK);
      var topEntries := [];
      if summarizeTopEntries && selected != [] {
        topEntries := SummarizeEntries(selected, subjectArea, audienceKey, contentType);
      }
      digest := Digest(Some(bulkCost), Some(bulkSummary), topEntries, selected);
    }

    /** `summarize_selected(entry, subject_area, audience_key, content_type)`:
        one entry call; the record carries the entry unchanged. */
    method SummarizeSelected(entry: Entry, subjectArea: string, audienceKey: string, contentType: string)
      returns (record: EntrySummary)
      modifies summarizer.llm
      ensures summarizer.llm.calls == old(summarizer.llm.calls) + [summarizer.entryMessages(entry, subjectArea, audienceKey, contentType)]
      ensures record == EntrySummary(
                Answer(summarizer.llm.service, |old(summarizer.llm.calls)|, summarizer.entryMessages(entry, subjectArea, audienceKey, contentType)).cost,
                Answer(summarizer.llm.service, |old(summarizer.llm.calls)|, summarizer.entryMessages(entry, subjectArea, audienceKey, contentType)).text,
                entry)
    {
      var summary, cost := summarizer.SummarizeEntry(entry, subjectArea, audienceKey, contentType);
      record := EntrySummary(cost, summary, entry);
    }

    /** The calls `summarize` makes cost the digest's `bulk_cost` plus the
        costs of its per-entry records: the entry calls are paid for but
        left out of `bulk_cost`. */
    lemma {:induction false} CostSplit(before: seq<seq<Message>>, after: seq<seq<Message>>, entries: seq<Entry>,
                                       subjectArea: string, contentType: string, audienceKey: string, topK: int,
                                       summarizeTopEntries: bool, digest: Digest)
      requires Summarized(before, after, entries, subjectArea, contentType, audienceKey, topK, summarizeTopEntries, digest)
      ensures |before| < |after| && digest.bulkCost.Some?
      ensures TotalCost(Replies(summarizer.llm.service, |before|, after[|before|..]))
              == digest.bulkCost.value + RecordsCost(digest.topEntries)
    {
      var service := summarizer.llm.service;
      var bulk := summarizer.bulkMessages(entries, subjectArea, audienceKey, contentType, topK);
      var reply := Answer(service, |before|, bulk);
      var selected := summarizer.select(reply.text, entries, topK);
      var requested := summarizeTopEntries && selected != [];
      var entryCalls := if requested then EntryCalls(selected, subjectArea, audienceKey, contentType) else [];
      var entryReplies := Replies(service, |before| + 1, entryCalls);
      CostOfOneThen(service, before, bulk, entryCalls);
      if requested {
        RecordsCostIsTotal(selected, entryReplies);
      }
    }
  }

  /** What `fetch_recent_entries(feed_urls, days_limit)` returns at time
      `now` with the workers completing in the order `completed`. */
  function Fetched(completed: seq<string>, daysLimit: int, now: int, feeds: string -> FeedOutcome,
                   htmlText: string -> string): seq<Entry>
  {
    SortNewestFirst(Merged(completed, feeds, now - daysLimit * SecondsPerDay, htmlText))
  }
}
