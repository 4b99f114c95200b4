/**
 * What the two `SummaryManager` classes (src/summary_manager.py and
 * app/summary_manager.py) have in common: the filter of `get_new_entries`
 * against the links already seen in the session, and the shape of the
 * digest `summarize` returns.
 */
module Session {
  import opened Feed
  import opened Llm

  /** `[e for e in entries if e["link"] not in seen]`. */
  function Unseen(entries: seq<Entry>, seen: set<string>): (r: seq<Entry>)
    ensures |r| <= |entries|
  {
    if entries == [] then []
    else
      var last := entries[|entries| - 1];
      Unseen(entries[..|entries| - 1], seen) + (if last.link in seen then [] else [last])
  }

  /** The links of the given entries. */
  function Links(entries: seq<Entry>): set<string> {
    set e | e in entries :: e.link
  }

  lemma {:induction false} LinksSnoc(entries: seq<Entry>, i: nat)
    requires i < |entries|
    ensures Links(entries[..i + 1]) == Links(entries[..i]) + {entries[i].link}
  {
    assert entries[..i + 1] == entries[..i] + [entries[i]];
  }

  /** An entry is new exactly when it was fetched and its raw link has not
      been seen. */
  lemma {:induction false} UnseenMember(entries: seq<Entry>, seen: set<string>, e: Entry)
    ensures e in Unseen(entries, seen) <==> e in entries && e.link !in seen
  {
    if entries != [] {
      var p := entries[..|entries| - 1];
      UnseenMember(p, seen, e);
      assert entries == p + [entries[|entries| - 1]];
    }
  }

  /** The filter keeps fetched order: filtering two runs of entries gives
      the filtered first run followed by the filtered second run. */
  lemma {:induction false} UnseenConcat(a: seq<Entry>, b: seq<Entry>, seen: set<string>)
    ensures Unseen(a + b, seen) == Unseen(a, seen) + Unseen(b, seen)
  {
    if b == [] {
      assert a + b == a;
    } else {
      var b' := b[..|b| - 1];
      assert (a + b)[..|a + b| - 1] == a + b';
      UnseenConcat(a, b', seen);
    }
  }

  /** Once the returned links are recorded, the same fetch yields nothing
      new. */
  lemma {:induction false} UnseenAgainEmpty(entries: seq<Entry>, seen: set<string>)
    ensures Unseen(entries, seen + Links(Unseen(entries, seen))) == []
  {
    var seen' := seen + Links(Unseen(entries, seen));
    if Unseen(entries, seen') != [] {
      var e := Unseen(entries, seen')[0];
      UnseenMember(entries, seen', e);
      UnseenMember(entries, seen, e);
      assert false;
    }
  }

  /** The filter looks at the links seen before the call only: two fetched
      entries sharing a new link are both returned. */
  lemma {:induction false} SameLinkTwiceBothNew(e1: Entry, e2: Entry, seen: set<string>)
    requires e1.link == e2.link && e1.link !in seen
    ensures Unseen([e1, e2], seen) == [e1, e2]
  {
    assert [e1, e2][..1] == [e1];
    assert [e1][..0] == [];
  }

  /** A `{"cost", "summary", "entry"}` record of `top_entries`. */
  datatype EntrySummary = EntrySummary(cost: int, summary: string, entry: Entry)

  /** The dict `summarize` returns; `None` is `bulk_cost`/`bulk_summary`
      when there was nothing new. */
  datatype Digest = Digest(bulkCost: Option<int>, bulkSummary: Option<string>,
                           topEntries: seq<EntrySummary>, rawEntries: seq<Entry>)

  const NothingNew: Digest := Digest(None, None, [], [])

  /** One record per entry, from the reply to that entry's call. */
  function Records(entries: seq<Entry>, replies: seq<Reply>): (r: seq<EntrySummary>)
    requires |entries| == |replies|
    ensures |r| == |entries|
  {
    if entries == [] then []
    else
      var n := |entries| - 1;
      Records(entries[..n], replies[..n]) + [EntrySummary(replies[n].cost, replies[n].text, entries[n])]
  }

  /** The record of the `k`th entry carries that entry and the text and cost
      of the `k`th reply. */
  lemma {:induction false} RecordsAt(entries: seq<Entry>, replies: seq<Reply>, k: nat)
    requires |entries| == |replies| && k < |entries|
    ensures Records(entries, replies)[k] == EntrySummary(replies[k].cost, replies[k].text, entries[k])
  {
    var n := |entries| - 1;
    if k < n {
      RecordsAt(entries[..n], replies[..n], k);
    }
  }

  /** The summed cost of the records. */
  function RecordsCost(records: seq<EntrySummary>): int {
    if records == [] then 0 else RecordsCost(records[..|records| - 1]) + records[|records| - 1].cost
  }

  /** The records of a batch of replies cost what the replies cost. */
  lemma {:induction false} RecordsCostIsTotal(entries: seq<Entry>, replies: seq<Reply>)
    requires |entries| == |replies|
    ensures RecordsCost(Records(entries, replies)) == TotalCost(replies)
  {
    if entries != [] {
      var n := |entries| - 1;
      RecordsCostIsTotal(entries[..n], replies[..n]);
      assert Records(entries, replies)[..n] == Records(entries[..n], replies[..n]);
    }
  }

  /** The session went from `before` to `calls` by one call per entry, the
      `k`th request for the `k`th entry, and `records` and `cost` are what
      the replies to those calls give. */
  predicate Accounted(service: (nat, seq<Message>) -> Reply, before: seq<seq<Message>>, calls: seq<seq<Message>>,
                      requests: seq<seq<Message>>, entries: seq<Entry>, records: seq<EntrySummary>, cost: int)
  {
    && calls == before + requests
    && |requests| == |entries|
    && records == Records(entries, Replies(service, |before|, requests))
    && cost == TotalCost(Replies(service, |before|, requests))
  }

  /** One more entry call adds one record and its cost. */
  lemma {:induction false} AccountedSnoc(service: (nat, seq<Message>) -> Reply, before: seq<seq<Message>>, calls: seq<seq<Message>>,
                      requests: seq<seq<Message>>, entries: seq<Entry>, records: seq<EntrySummary>, cost: int,
                      q: seq<Message>, e: Entry, text: string, c: int)
    requires Accounted(service, before, calls, requests, entries, records, cost)
    requires text == Answer(service, |calls|, q).text && c == Answer(service, |calls|, q).cost
    ensures Accounted(service, before, calls + [q], requests + [q], entries + [e], records + [EntrySummary(c, text, e)], cost + c)
  {
    RepliesSnoc(service, |before|, requests, q);
    var r := Replies(service, |before|, requests + [q]);
    assert (entries + [e])[..|entries|] == entries;
    assert r[..|requests|] == Replies(service, |before|, requests);
  }

  /** The entry calls, accounted as calls: their texts are the records'
      summaries. */
  lemma {:induction false} AccountedAnswered(service: (nat, seq<Message>) -> Reply, before: seq<seq<Message>>, calls: seq<seq<Message>>,
                          requests: seq<seq<Message>>, entries: seq<Entry>, records: seq<EntrySummary>, cost: int)
    requires Accounted(service, before, calls, requests, entries, records, cost)
    ensures Answered(service, before, calls, requests, Texts(Replies(service, |before|, requests)), cost)
  {
  }
}
