/**
 * `SummaryManager` of src/summary_manager.py: one session over the feeds.
 * It remembers the links it has handed out, and `summarize` runs the new
 * entries through the summarizer (one call per chunk, one overall call),
 * picks the top entries out of the overall summary and, on request, sums
 * up each of them with one more call, adding every call's cost.
 *
 * The entries `fetch_recent_entries` of src/rss_utils.py returns (that file
 * is not part of this model) are given as a parameter, as is the result of
 * the `Config.SUBJECT_AREAS` feed lookup they come from.
 */
module SrcSummaryManager {
  import opened Feed
  import opened Llm
  import opened Summarizer
  import opened ResponseParser
  import opened Session

  /** `a, b = xs` in Python: succeeds only when `xs` has exactly two
      elements, and raises `ValueError` otherwise. */
  function UnpackPair<T>(xs: seq<T>): (r: Option<(T, T)>)
    ensures r.Some? <==> |xs| == 2
    ensures r.Some? ==> r.value == (xs[0], xs[1])
  {
    if |xs| == 2 then Some((xs[0], xs[1])) else None
  }

  /** As written, `summarize` unpacks the extractor's single list into
      `selected_entries, selected_urls`. A bulk summary without the
      `Top Source Links:` heading gives the empty list, and the unpacking
      raises where the digest should have been returned. */
  lemma {:induction false} AsWrittenUnpackRaisesWithoutHeading(summary: string, entries: seq<Entry>, topK: int)
    requires forall i :: 0 <= i <= |summary| ==> !HeadingAt(summary, i)
    ensures UnpackPair(TopEntries(summary, entries, topK)) == None
  {
    NoHeadingNoEntries(summary, entries, topK);
  }

  /** With `top_k = 1` the extractor returns at most one entry, so the
      unpacking as written raises whatever the summary says. */
  lemma {:induction false} AsWrittenUnpackRaisesForTopOne(summary: string, entries: seq<Entry>)
    ensures UnpackPair(TopEntries(summary, entries, 1)) == None
  {
    TopEntriesDistinctAndBounded(summary, entries, 1);
  }

  class SummaryManager {
    const summarizer: Summarizer
    /** The links of every entry handed out so far in the session. */
    var seenLinks: set<string>

    /** `SummaryManager(llm_client)`, with the summarizer's configuration
        (token estimate, templates, audiences) passed on. */
    constructor(llm: LlmClient, estimate: (string, string) -> nat, templates: Templates, audiences: map<string, string>)
      requires WellFormed(templates)
      ensures seenLinks == {}
      ensures summarizer.llm == llm && summarizer.Valid()
    {
      summarizer := new Summarizer(llm, estimate, templates, audiences);
      seenLinks := {};
    }

    /** `get_new_entries(feed_list, days_limit)`, given the entries the
        fetch returned: the ones whose link was not seen before the call,
        in fetched order, whose links are then recorded. */
    method GetNewEntries(fetched: seq<Entry>) returns (newEntries: seq<Entry>)
      modifies this
      ensures newEntries == Unseen(fetched, old(seenLinks))
      ensures seenLinks == old(seenLinks) + Links(newEntries)
    {
      newEntries := Unseen(fetched, seenLinks);
      for i := 0 to |newEntries|
        invariant seenLinks == old(seenLinks) + Links(newEntries[..i])
      {
        LinksSnoc(newEntries, i);
        seenLinks := seenLinks + {newEntries[i].link};
      }
      assert newEntries[..|newEntries|] == newEntries;
    }

    /** The calls `summarize_bulk_chunks` makes for `entries`. */
    ghost function ChunkCalls(entries: seq<Entry>, subjectArea: string, audienceKey: string, contentType: string, topK: int): seq<seq<Message>>
      requires summarizer.Valid()
    {
      summarizer.BulkRequests(GreedyChunks(entries, TokensOf(summarizer.estimate, summarizer.llm.model), DefaultTokenLimit),
                              subjectArea, audienceKey, contentType, topK)
    }

    /** The calls `summarize_entry` makes for each of `entries`, in order. */
    function EntryCalls(entries: seq<Entry>, subjectArea: string, audienceKey: string, contentType: string): (r: seq<seq<Message>>)
      requires summarizer.Valid()
      ensures |r| == |entries|
    {
      if entries == [] then []
      else
        var n := |entries| - 1;
        EntryCalls(entries[..n], subjectArea, audienceKey, contentType)
        + [summarizer.EntryMessages(entries[n], subjectArea, audienceKey, contentType, 300)]
    }

    /** The `k`th call is the entry prompt for the `k`th entry. */
    lemma {:induction false} EntryCallsAt(entries: seq<Entry>, k: nat, subjectArea: string, audienceKey: string, contentType: string)
      requires summarizer.Valid() && k < |entries|
      ensures EntryCalls(entries, subjectArea, audienceKey, contentType)[k] == summarizer.EntryMessages(entries[k], subjectArea, audienceKey, contentType, 300)
      decreases |entries|
    {
      var n := |entries| - 1;
      if k < n {
        EntryCallsAt(entries[..n], k, subjectArea, audienceKey, contentType);
        assert entries[..n][k] == entries[k];
      }
    }

    lemma {:induction false} EntryCallsSnoc(entries: seq<Entry>, i: nat, subjectArea: string, audienceKey: string, contentType: string)
      requires summarizer.Valid() && i < |entries|
      ensures EntryCalls(entries[..i + 1], subjectArea, audienceKey, contentType)
              == EntryCalls(entries[..i], subjectArea, audienceKey, contentType)
                 + [summarizer.EntryMessages(entries[i], subjectArea, audienceKey, contentType, 300)]
    {
      assert entries[..i + 1][..i] == entries[..i];
    }

    /** The overall call `summarize` makes after the chunk calls
        `chunkCalls`, the session log having stood at `before`: the bulk
        prompt over the chunk summaries. */
    ghost function OverallCall(before: seq<seq<Message>>, chunkCalls: seq<seq<Message>>, subjectArea: string,
                               audienceKey: string, topK: int): seq<Message>
      requires summarizer.Valid()
    {
      summarizer.BulkMessages(Texts(Replies(summarizer.llm.service, |before|, chunkCalls)), subjectArea, audienceKey, "summaries", topK, 2000)
    }

    /** The reply to that overall call, made right after the chunk calls. */
    ghost function OverallReply(before: seq<seq<Message>>, chunkCalls: seq<seq<Message>>, subjectArea: string,
                                audienceKey: string, topK: int): Reply
      requires summarizer.Valid()
    {
      Answer(summarizer.llm.service, |before + chunkCalls|, OverallCall(before, chunkCalls, subjectArea, audienceKey, topK))
    }

    /** The cost of the bulk step: the chunk calls and the overall call. */
    ghost function BulkCost(before: seq<seq<Message>>, chunkCalls: seq<seq<Message>>, subjectArea: string,
                            audienceKey: string, topK: int): int
      requires summarizer.Valid()
    {
      TotalCost(Replies(summarizer.llm.service, |before|, chunkCalls))
      + OverallReply(before, chunkCalls, subjectArea, audienceKey, topK).cost
    }

    /** The bulk step of `summarize`: the chunk calls, then the overall
        call over the chunk summaries. The overall summary is the reply to
        the overall call, and the cost is the chunk calls' summed cost plus
        the overall call's. */
    method SummarizeBulk(entries: seq<Entry>, subjectArea: string, audienceKey: string, contentType: string, topK: int)
      returns (bulkSummary: string, cost: int)
      requires summarizer.Valid()
      modifies summarizer.llm
      ensures var chunkCalls := ChunkCalls(entries, subjectArea, audienceKey, contentType, topK);
              && summarizer.llm.calls == old(summarizer.llm.calls) + chunkCalls
                                         + [OverallCall(old(summarizer.llm.calls), chunkCalls, subjectArea, audienceKey, topK)]
              && bulkSummary == OverallReply(old(summarizer.llm.calls), chunkCalls, subjectArea, audienceKey, topK).text
              && cost == BulkCost(old(summarizer.llm.calls), chunkCalls, subjectArea, audienceKey, topK)
    {
      ghost var service, calls0 := summarizer.llm.service, summarizer.llm.calls;
      ghost var chunkCalls := ChunkCalls(entries, subjectArea, audienceKey, contentType, topK);
      var chunkedSummaries, chunkedCost := summarizer.SummarizeBulkChunks(entries, subjectArea, audienceKey, contentType, topK);
      assert chunkedSummaries == Texts(Replies(service, |calls0|, chunkCalls));
      assert |summarizer.llm.calls| == |calls0 + chunkCalls|;
      var overallCost;
      bulkSummary, overallCost := summarizer.SummarizeOverallSummaries(entries, chunkedSummaries, subjectArea, audienceKey, topK);
      cost := chunkedCost + overallCost;
    }

    /** The loop of `summarize` over the selected entries: one entry call
        each, in order, one record each, and the summed cost. */
    method SummarizeEntries(selected: seq<Entry>, subjectArea: string, audienceKey: string, contentType: string)
      returns (records: seq<EntrySummary>, cost: int)
      requires summarizer.Valid()
      modifies summarizer.llm
      ensures Accounted(summarizer.llm.service, old(summarizer.llm.calls), summarizer.llm.calls,
                        EntryCalls(selected, subjectArea, audienceKey, contentType), selected, records, cost)
    {
      var llm := summarizer.llm;
      ghost var service, calls0 := llm.service, llm.calls;
      records, cost := [], 0;
      for i := 0 to |selected|
        invariant EntriesDone(calls0, llm.calls, selected, i, subjectArea, audienceKey, contentType, records, cost)
      {
        ghost var callsBefore := llm.calls;
        var summary, c := summarizer.SummarizeEntry(selected[i], subjectArea, audienceKey, contentType);
        EntriesDoneStep(calls0, callsBefore, selected, i, subjectArea, audienceKey, contentType, records, cost, summary, c);
        records, cost := records + [EntrySummary(c, summary, selected[i])], cost + c;
      }
      assert selected[..|selected|] == selected;
    }

    /** The loop of `SummarizeEntries` has made the calls for `selected[..i]`. */
    ghost predicate EntriesDone(before: seq<seq<Message>>, calls: seq<seq<Message>>, selected: seq<Entry>, i: nat,
                                subjectArea: string, audienceKey: string, contentType: string,
                                records: seq<EntrySummary>, cost: int)
      requires summarizer.Valid()
    {
      && i <= |selected|
      && Accounted(summarizer.llm.service, before, calls, EntryCalls(selected[..i], subjectArea, audienceKey, contentType),
                   selected[..i], records, cost)
    }

    /** One more entry call keeps `EntriesDone`. */
    lemma {:induction false} EntriesDoneStep(before: seq<seq<Message>>, calls: seq<seq<Message>>, selected: seq<Entry>, i: nat,
                                             subjectArea: string, audienceKey: string, contentType: string,
                                             records: seq<EntrySummary>, cost: int, text: string, c: int)
      requires summarizer.Valid() && i < |selected|
      requires EntriesDone(before, calls, selected, i, subjectArea, audienceKey, contentType, records, cost)
      requires var q := summarizer.EntryMessages(selected[i], subjectArea, audienceKey, contentType, 300);
               text == Answer(summarizer.llm.service, |calls|, q).text && c == Answer(summarizer.llm.service, |calls|, q).cost
      ensures EntriesDone(before, calls + [summarizer.EntryMessages(selected[i], subjectArea, audienceKey, contentType, 300)],
                          selected, i + 1, subjectArea, audienceKey, contentType,
                          records + [EntrySummary(c, text, selected[i])], cost + c)
    {
      var q := summarizer.EntryMessages(selected[i], subjectArea, audienceKey, contentType, 300);
      EntryCallsSnoc(selected, i, subjectArea, audienceKey, contentType);
      AccountedSnoc(summarizer.llm.service, before, calls, EntryCalls(selected[..i], subjectArea, audienceKey, contentType),
                    selected[..i], records, cost, q, selected[i], text, c);
      assert selected[..i + 1] == selected[..i] + [selected[i]];
    }

    /** What `summarize` does with new `entries`, the session going from
        `before` to `after`: the chunk calls, the overall call and, when
        requested and something was selected, one call per selected entry,
        in that order. The top entries are the ones the extractor finds in
        the overall summary, each record carries the reply to its entry's
        call, and the cost is the summed cost of every call made. */
    ghost predicate Summarized(before: seq<seq<Message>>, after: seq<seq<Message>>, entries: seq<Entry>,
                               subjectArea: string, contentType: string, audienceKey: string, topK: int,
                               summarizeTopEntries: bool, digest: Digest)
      requires summarizer.Valid()
    {
      var chunkCalls := ChunkCalls(entries, subjectArea, audienceKey, contentType, topK);
      && Selected(before, chunkCalls, entries, subjectArea, audienceKey, topK, digest)
      && Recorded(before, after, chunkCalls, subjectArea, contentType, audienceKey, topK, summarizeTopEntries, digest)
    }

    /** The bulk summary is the overall reply, and the selection is what the
        extractor finds in it. */
    ghost predicate Selected(before: seq<seq<Message>>, chunkCalls: seq<seq<Message>>, entries: seq<Entry>,
                             subjectArea: string, audienceKey: string, topK: int, digest: Digest)
      requires summarizer.Valid()
    {
      var reply := OverallReply(before, chunkCalls, subjectArea, audienceKey, topK);
      && digest.bulkSummary == Some(reply.text)
      && digest.rawEntries == TopEntries(reply.text, entries, topK)
    }

    /** The calls made after the chunk calls `chunkCalls`, the records of the
        selected entries `digest.rawEntries` and the summed cost. */
    ghost predicate Recorded(before: seq<seq<Message>>, after: seq<seq<Message>>, chunkCalls: seq<seq<Message>>,
                             subjectArea: string, contentType: string, audienceKey: string, topK: int,
                             summarizeTopEntries: bool, digest: Digest)
      requires summarizer.Valid()
    {
      && CallsMade(before, after, chunkCalls, subjectArea, contentType, audienceKey, topK, summarizeTopEntries, digest)
      && RecordsMade(before, chunkCalls, subjectArea, contentType, audienceKey, topK, summarizeTopEntries, digest)
      && CostCounted(before, chunkCalls, subjectArea, contentType, audienceKey, topK, summarizeTopEntries, digest)
    }

    /** The calls: the chunk calls, the overall call, then the entry calls. */
    ghost predicate CallsMade(before: seq<seq<Message>>, after: seq<seq<Message>>, chunkCalls: seq<seq<Message>>,
                              subjectArea: string, contentType: string, audienceKey: string, topK: int,
                              summarizeTopEntries: bool, digest: Digest)
      requires summarizer.Valid()
    {
      after == before + chunkCalls + [OverallCall(before, chunkCalls, subjectArea, audienceKey, topK)]
                      + TopCalls(digest.rawEntries, subjectArea, audienceKey, contentType, summarizeTopEntries)
    }

    /** The replies to the entry calls, made once the bulk calls are done. */
    ghost function EntryReplies(before: seq<seq<Message>>, chunkCalls: seq<seq<Message>>, subjectArea: string, contentType: string,
                                audienceKey: string, topK: int, summarizeTopEntries: bool, digest: Digest): seq<Reply>
      requires summarizer.Valid()
    {
      var overall := OverallCall(before, chunkCalls, subjectArea, audienceKey, topK);
      Replies(summarizer.llm.service, |before + chunkCalls + [overall]|,
              TopCalls(digest.rawEntries, subjectArea, audienceKey, contentType, summarizeTopEntries))
    }

    /** One record per selected entry, carrying its entry call's reply, when
        requested and something was selected. */
    ghost predicate RecordsMade(before: seq<seq<Message>>, chunkCalls: seq<seq<Message>>,
                                subjectArea: string, contentType: string, audienceKey: string, topK: int,
                                summarizeTopEntries: bool, digest: Digest)
      requires summarizer.Valid()
    {
      var selected := digest.rawEntries;
      digest.topEntries
      == (if summarizeTopEntries && selected != []
          then Records(selected, EntryReplies(before, chunkCalls, subjectArea, contentType, audienceKey, topK, summarizeTopEntries, digest))
          else [])
    }

    /** `bulk_cost`: the chunk calls, the overall call and the entry calls. */
    ghost predicate CostCounted(before: seq<seq<Message>>, chunkCalls: seq<seq<Message>>,
                                subjectArea: string, contentType: string, audienceKey: string, topK: int,
                                summarizeTopEntries: bool, digest: Digest)
      requires summarizer.Valid()
    {
      digest.bulkCost == Some(BulkCost(before, chunkCalls, subjectArea, audienceKey, topK)
                              + TotalCost(EntryReplies(before, chunkCalls, subjectArea, contentType, audienceKey, topK, summarizeTopEntries, digest)))
    }

    /** The calls `summarize` makes for the `selected` entries: one each
        when requested and something was selected, none otherwise. */
    ghost function TopCalls(selected: seq<Entry>, subjectArea: string, audienceKey: string, contentType: string,
                            summarizeTopEntries: bool): seq<seq<Message>>
      requires summarizer.Valid()
    {
      if summarizeTopEntries && selected != [] then EntryCalls(selected, subjectArea, audienceKey, contentType) else []
    }

    /** The `if summarize_top_entries and selected_entries` step of
        `summarize`. */
    method SummarizeTop(selected: seq<Entry>, subjectArea: string, audienceKey: string, contentType: string,
                        summarizeTopEntries: bool)
      returns (records: seq<EntrySummary>, cost: int)
      requires summarizer.Valid()
      modifies summarizer.llm
      ensures var entryCalls := TopCalls(selected, subjectArea, audienceKey, contentType, summarizeTopEntries);
              var replies := Replies(summarizer.llm.service, |old(summarizer.llm.calls)|, entryCalls);
              && summarizer.llm.calls == old(summarizer.llm.calls) + entryCalls
              && records == (if summarizeTopEntries && selected != [] then Records(selected, replies) else [])
              && cost == TotalCost(replies)
    {
      records, cost := [], 0;
      if summarizeTopEntries && selected != [] {
        records, cost := SummarizeEntries(selected, subjectArea, audienceKey, contentType);
      }
    }

    /** `summarize` once there are new entries. */
    method SummarizeNew(subjectArea: string, contentType: string, audienceKey: string, entries: seq<Entry>,
                        topK: int, summarizeTopEntries: bool)
      returns (digest: Digest)
      requires summarizer.Valid()
      modifies summarizer.llm
      ensures Summarized(old(summarizer.llm.calls), summarizer.llm.calls, entries, subjectArea, contentType, audienceKey, topK, summarizeTopEntries, digest)
    {
      ghost var calls0 := summarizer.llm.calls;
      ghost var chunkCalls := ChunkCalls(entries, subjectArea, audienceKey, contentType, topK);
      var bulkSummary, bulkCost := SummarizeBulk(entries, subjectArea, audienceKey, contentType, topK);
      ghost var mid := summarizer.llm.calls;
      var selected := ExtractTopEntries(bulkSummary, entries, topK);
      var topEntries, entryCost := SummarizeTop(selected, subjectArea, audienceKey, contentType, summarizeTopEntries);
      digest := Digest(Some(bulkCost + entryCost), Some(bulkSummary), topEntries, selected);
      assert Selected(calls0, chunkCalls, entries, subjectArea, audienceKey, topK, digest);
      RecordedIntro(calls0, mid, summarizer.llm.calls, chunkCalls, subjectArea, contentType, audienceKey, topK,
                    summarizeTopEntries, bulkCost, entryCost, digest);
    }

    /** The steps of `summarize`, each as its method promises, add up to
        `Recorded`. */
    lemma {:induction false} RecordedIntro(before: seq<seq<Message>>, mid: seq<seq<Message>>, after: seq<seq<Message>>,
                                           chunkCalls: seq<seq<Message>>,
                                           subjectArea: string, contentType: string, audienceKey: string, topK: int,
                                           summarizeTopEntries: bool, bulkCost: int, entryCost: int, digest: Digest)
      requires summarizer.Valid()
      requires mid == before + chunkCalls + [OverallCall(before, chunkCalls, subjectArea, audienceKey, topK)]
      requires bulkCost == BulkCost(before, chunkCalls, subjectArea, audienceKey, topK)
      requires var entryCalls := TopCalls(digest.rawEntries, subjectArea, audienceKey, contentType, summarizeTopEntries);
               var replies := Replies(summarizer.llm.service, |mid|, entryCalls);
               && after == mid + entryCalls
               && digest.topEntries == (if summarizeTopEntries && digest.rawEntries != [] then Records(digest.rawEntries, replies) else [])
               && entryCost == TotalCost(replies)
      requires digest.bulkCost == Some(bulkCost + entryCost)
      ensures Recorded(before, after, chunkCalls, subjectArea, contentType, audienceKey, topK, summarizeTopEntries, digest)
    {
      var entryCalls := TopCalls(digest.rawEntries, subjectArea, audienceKey, contentType, summarizeTopEntries);
      var replies := Replies(summarizer.llm.service, |mid|, entryCalls);
      assert replies == EntryReplies(before, chunkCalls, subjectArea, contentType, audienceKey, topK, summarizeTopEntries, digest);
      assert CallsMade(before, after, chunkCalls, subjectArea, contentType, audienceKey, topK, summarizeTopEntries, digest);
    }

    /** `bulk_cost` is the summed cost of every call `summarize` makes:
        the chunk calls, the overall call and the entry calls. */
    lemma {:induction false} CostIsAllCalls(before: seq<seq<Message>>, after: seq<seq<Message>>, entries: seq<Entry>,
                         subjectArea: string, contentType: string, audienceKey: string, topK: int,
                         summarizeTopEntries: bool, digest: Digest)
      requires summarizer.Valid()
      requires Summarized(before, after, entries, subjectArea, contentType, audienceKey, topK, summarizeTopEntries, digest)
      ensures |before| < |after| && digest.bulkCost.Some?
      ensures digest.bulkCost.value == TotalCost(Replies(summarizer.llm.service, |before|, after[|before|..]))
    {
      RecordedCost(before, after, ChunkCalls(entries, subjectArea, audienceKey, contentType, topK),
                   subjectArea, contentType, audienceKey, topK, summarizeTopEntries, digest);
    }

    lemma {:induction false} RecordedCost(before: seq<seq<Message>>, after: seq<seq<Message>>, chunkCalls: seq<seq<Message>>,
                       subjectArea: string, contentType: string, audienceKey: string, topK: int,
                       summarizeTopEntries: bool, digest: Digest)
      requires summarizer.Valid()
      requires Recorded(before, after, chunkCalls, subjectArea, contentType, audienceKey, topK, summarizeTopEntries, digest)
      ensures |before| < |after| && digest.bulkCost.Some?
      ensures digest.bulkCost.value == TotalCost(Replies(summarizer.llm.service, |before|, after[|before|..]))
    {
      var overall := OverallCall(before, chunkCalls, subjectArea, audienceKey, topK);
      var entryCalls := TopCalls(digest.rawEntries, subjectArea, audienceKey, contentType, summarizeTopEntries);
      CostAfter(summarizer.llm.service, before, chunkCalls, overall, entryCalls);
    }

    /** The selection holds new entries only, none twice, and at most
        `top_k` of them (one when `top_k <= 0`). */
    lemma {:induction false} SelectionFromNewEntries(before: seq<seq<Message>>, after: seq<seq<Message>>, entries: seq<Entry>,
                                  subjectArea: string, contentType: string, audienceKey: string, topK: int,
                                  summarizeTopEntries: bool, digest: Digest)
      requires summarizer.Valid()
      requires Summarized(before, after, entries, subjectArea, contentType, audienceKey, topK, summarizeTopEntries, digest)
      ensures forall e :: e in digest.rawEntries ==> e in entries
      ensures forall i, j :: 0 <= i < j < |digest.rawEntries| ==> digest.rawEntries[i] != digest.rawEntries[j]
      ensures |digest.rawEntries| <= if topK >= 1 then topK else 1
    {
      SelectedFromNewEntries(before, ChunkCalls(entries, subjectArea, audienceKey, contentType, topK),
                             entries, subjectArea, audienceKey, topK, digest);
    }

    lemma {:induction false} SelectedFromNewEntries(before: seq<seq<Message>>, chunkCalls: seq<seq<Message>>, entries: seq<Entry>,
                                                    subjectArea: string, audienceKey: string, topK: int, digest: Digest)
      requires summarizer.Valid()
      requires Selected(before, chunkCalls, entries, subjectArea, audienceKey, topK, digest)
      ensures forall e :: e in digest.rawEntries ==> e in entries
      ensures forall i, j :: 0 <= i < j < |digest.rawEntries| ==> digest.rawEntries[i] != digest.rawEntries[j]
      ensures |digest.rawEntries| <= if topK >= 1 then topK else 1
    {
      var text := OverallReply(before, chunkCalls, subjectArea, audienceKey, topK).text;
      forall e | e in digest.rawEntries ensures e in entries {
        TopEntriesSound(text, entries, topK, e);
      }
      TopEntriesDistinctAndBounded(text, entries, topK);
    }

    /** `summarize(subject_area, content_type, audience_key, days_limit,
        top_k, bulk, summarize_top_entries)`, given the fetched entries, with
        the selection read as the one list the extractor returns: nothing new
        gives the sentinel and makes no call; otherwise the new entries are
        summarized as `Summarized` states. */
    method Summarize(subjectArea: string, contentType: string, audienceKey: string, fetched: seq<Entry>,
                     topK: int, summarizeTopEntries: bool)
      returns (digest: Digest)
      requires summarizer.Valid()
      modifies this, summarizer.llm
      ensures seenLinks == old(seenLinks) + Links(Unseen(fetched, old(seenLinks)))
      ensures Unseen(fetched, old(seenLinks)) == [] ==> digest == NothingNew && summarizer.llm.calls == old(summarizer.llm.calls)
      ensures Unseen(fetched, old(seenLinks)) != [] ==>
        Summarized(old(summarizer.llm.calls), summarizer.llm.calls, Unseen(fetched, old(seenLinks)),
                   subjectArea, contentType, audienceKey, topK, summarizeTopEntries, digest)
    {
      var entries := GetNewEntries(fetched);
      if entries == [] {
        return NothingNew;
      }
      digest := SummarizeNew(subjectArea, contentType, audienceKey, entries, topK, summarizeTopEntries);
    }

    /** `summarize_selected(entry, subject_area, audience_key, content_type)`:
        one entry call; the record carries the entry unchanged. */
    method SummarizeSelected(entry: Entry, subjectArea: string, audienceKey: string, contentType: string)
      returns (record: EntrySummary)
      requires summarizer.Valid()
      modifies summarizer.llm
      ensures summarizer.llm.calls == old(summarizer.llm.calls) + [summarizer.EntryMessages(entry, subjectArea, audienceKey, contentType, 300)]
      ensures record == EntrySummary(
                Answer(summarizer.llm.service, |old(summarizer.llm.calls)|, summarizer.EntryMessages(entry, subjectArea, audienceKey, contentType, 300)).cost,
                Answer(summarizer.llm.service, |old(summarizer.llm.calls)|, summarizer.EntryMessages(entry, subjectArea, audienceKey, contentType, 300)).text,
                entry)
    {
      var summary, cost := summarizer.SummarizeEntry(entry, subjectArea, audienceKey, contentType);
      record := EntrySummary(cost, summary, entry);
    }
  }
}
