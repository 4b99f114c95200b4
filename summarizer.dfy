/**
 * `Summarizer` of src/summarizer.py: the chat messages it builds from the
 * prompt templates, the greedy token-budget chunking of the entries, and
 * the map/reduce over the chat service (one call per chunk, then one call
 * over the chunk summaries, and one call per single entry).
 */
module Summarizer {
  import opened Text
  import opened Feed
  import opened Llm
  import opened Sequences

  /** The named fields the prompt templates use: `{subject_area}`,
      `{audience_description}`, `{content_type}`, `{title}`, `{summary}`,
      `{link}`, `{summary_length}`, `{blocks}` and `{top_entries}`. */
  datatype FieldName =
    | SubjectAreaField | AudienceField | ContentTypeField | TitleField | SummaryField
    | LinkField | LengthField | BlocksField | TopEntriesField

  /** A `str.format` template: literal text and `{name}` fields. */
  datatype Piece = Literal(text: string) | Field(name: FieldName)

  type Template = seq<Piece>

  predicate FieldsAmong(t: Template, names: set<FieldName>) {
    forall i :: 0 <= i < |t| && t[i].Field? ==> t[i].name in names
  }

  /** `template.format(**args)`; every field of the template must be given
      (Python raises `KeyError` otherwise). */
  function Format(t: Template, args: map<FieldName, string>): string
    requires FieldsAmong(t, args.Keys)
  {
    if t == [] then []
    else
      (match t[0] case Literal(s) => s case Field(n) => args[n]) + Format(t[1..], args)
  }

  /** Formatting is piecewise: a template split in two formats to the two
      halves' texts, one after the other. */
  lemma {:induction false} FormatConcat(t1: Template, t2: Template, args: map<FieldName, string>)
    requires FieldsAmong(t1, args.Keys) && FieldsAmong(t2, args.Keys)
    ensures FieldsAmong(t1 + t2, args.Keys)
    ensures Format(t1 + t2, args) == Format(t1, args) + Format(t2, args)
  {
    if t1 == [] {
      assert t1 + t2 == t2;
    } else {
      assert (t1 + t2)[0] == t1[0];
      assert (t1 + t2)[1..] == t1[1..] + t2;
      FormatConcat(t1[1..], t2, args);
    }
  }

  /** Each `{name}` field of the template is replaced by the value given
      for it, in place. */
  lemma FormatField(t: Template, i: nat, args: map<FieldName, string>)
    requires FieldsAmong(t, args.Keys) && i < |t| && t[i].Field?
    ensures Format(t, args) == Format(t[..i], args) + args[t[i].name] + Format(t[i + 1..], args)
  {
    assert t == t[..i] + t[i..];
    FormatConcat(t[..i], t[i..], args);
    assert t[i..][1..] == t[i + 1..];
  }

  const SystemFields: set<FieldName> := {SubjectAreaField, AudienceField}
  const EntryFields: set<FieldName> := {SubjectAreaField, ContentTypeField, TitleField, SummaryField, LinkField, LengthField}
  const BulkFields: set<FieldName> := {ContentTypeField, SubjectAreaField, BlocksField, TopEntriesField, LengthField}

  /** `SYSTEM_PROMPT_TEMPLATE`, `BASE_ENTRY_TEMPLATE` and `BASE_BULK_TEMPLATE`. */
  datatype Templates = Templates(system: Template, entry: Template, bulk: Template)

  /** Each template uses only the fields its caller supplies. */
  predicate WellFormed(ts: Templates) {
    FieldsAmong(ts.system, SystemFields) && FieldsAmong(ts.entry, EntryFields) && FieldsAmong(ts.bulk, BulkFields)
  }

  /** The block an entry contributes to a bulk prompt, and whose tokens the
      chunker counts. */
  function RenderBlock(e: Entry): string {
    "Title: " + e.title + "\nSummary: " + e.summary + "\nLink: " + e.link
  }

  function Blocks(chunk: seq<Entry>): (r: seq<string>)
    ensures |r| == |chunk| && forall i :: 0 <= i < |r| ==> r[i] == RenderBlock(chunk[i])
  {
    seq(|chunk|, i requires 0 <= i < |chunk| => RenderBlock(chunk[i]))
  }

  /** The token count the chunker gives an entry: `estimate_tokens(model, block)`. */
  function TokensOf(estimate: (string, string) -> nat, model: string): Entry -> nat {
    e => estimate(model, RenderBlock(e))
  }

  /** The summed token count of a chunk. */
  function Sum(chunk: seq<Entry>, tok: Entry -> nat): nat {
    if chunk == [] then 0 else Sum(chunk[..|chunk| - 1], tok) + tok(chunk[|chunk| - 1])
  }

  lemma SumSnoc(s: seq<Entry>, n: nat, tok: Entry -> nat)
    requires n < |s|
    ensures Sum(s[..n + 1], tok) == Sum(s[..n], tok) + tok(s[n])
  {
    assert s[..n + 1][..n] == s[..n];
  }

  /** A chunk's count is at least that of any of its prefixes. */
  lemma {:induction false} SumPrefix(s: seq<Entry>, n: nat, tok: Entry -> nat)
    requires n <= |s|
    ensures Sum(s[..n], tok) <= Sum(s, tok)
  {
    if n < |s| {
      SumPrefix(s[..|s| - 1], n, tok);
      assert s[..|s| - 1][..n] == s[..n];
    } else {
      assert s[..n] == s;
    }
  }

  function Flatten(chunks: seq<seq<Entry>>): seq<Entry> {
    if chunks == [] then [] else chunks[0] + Flatten(chunks[1..])
  }

  lemma {:induction false} FlattenSnoc(chunks: seq<seq<Entry>>, c: seq<Entry>)
    ensures Flatten(chunks + [c]) == Flatten(chunks) + c
  {
    if chunks != [] {
      assert (chunks + [c])[1..] == chunks[1..] + [c];
      FlattenSnoc(chunks[1..], c);
    } else {
      assert [c][1..] == [];
    }
  }

  /** The rule a chunk obeys: one entry alone (however large), or a total
      within the limit. */
  predicate Fits(chunk: seq<Entry>, tok: Entry -> nat, limit: int) {
    |chunk| == 1 || Sum(chunk, tok) <= limit
  }

  /** Why a chunk was closed: the next entry would have pushed it over the limit. */
  predicate ClosedBefore(chunk: seq<Entry>, next: Entry, tok: Entry -> nat, limit: int) {
    Sum(chunk, tok) + tok(next) > limit
  }

  /** What `chunk_entries` promises: the chunks concatenate back to the
      input, none is empty, each fits, and each was closed only because the
      first entry of the next chunk did not fit in it. */
  predicate ValidChunking(entries: seq<Entry>, chunks: seq<seq<Entry>>, tok: Entry -> nat, limit: int) {
    Flatten(chunks) == entries
    && (forall i :: 0 <= i < |chunks| ==> chunks[i] != [] && Fits(chunks[i], tok, limit))
    && (forall i :: 0 <= i < |chunks| - 1 ==> ClosedBefore(chunks[i], chunks[i + 1][0], tok, limit))
  }

  /** How far the greedy rule extends a chunk that holds `entries[..n]`:
      it takes the next entry while the total stays within the limit. */
  function Extend(entries: seq<Entry>, tok: Entry -> nat, limit: int, n: nat, sum: int): (m: nat)
    requires 1 <= n <= |entries| && sum == Sum(entries[..n], tok)
    ensures n <= m <= |entries|
    ensures m > n ==> Sum(entries[..m], tok) <= limit
    ensures m < |entries| ==> Sum(entries[..m], tok) + tok(entries[m]) > limit
    decreases |entries| - n
  {
    if n < |entries| && sum + tok(entries[n]) <= limit then
      SumSnoc(entries, n, tok);
      Extend(entries, tok, limit, n + 1, sum + tok(entries[n]))
    else n
  }

  /** The greedy partition, chunk by chunk from the front: each chunk is the
      longest run that the greedy rule keeps together. */
  function GreedyChunks(entries: seq<Entry>, tok: Entry -> nat, limit: int): seq<seq<Entry>>
    decreases |entries|
  {
    if entries == [] then []
    else
      var m := FirstChunkLength(entries, tok, limit);
      [entries[..m]] + GreedyChunks(entries[m..], tok, limit)
  }

  /** The length of the first greedy chunk. */
  function FirstChunkLength(entries: seq<Entry>, tok: Entry -> nat, limit: int): (m: nat)
    requires entries != []
    ensures 1 <= m <= |entries|
  {
    assert entries[..1] == [entries[0]];
    assert Sum(entries[..1], tok) == tok(entries[0]) by { assert entries[..1][..0] == []; }
    Extend(entries, tok, limit, 1, tok(entries[0]))
  }

  /** The greedy partition has every property `chunk_entries` promises. */
  lemma {:induction false} GreedyChunksValid(entries: seq<Entry>, tok: Entry -> nat, limit: int)
    ensures ValidChunking(entries, GreedyChunks(entries, tok, limit), tok, limit)
  {
    if entries != [] {
      assert entries[..1] == [entries[0]];
      assert Sum(entries[..1], tok) == tok(entries[0]) by { assert entries[..1][..0] == []; }
      var m := Extend(entries, tok, limit, 1, tok(entries[0]));
      assert m == FirstChunkLength(entries, tok, limit);
      var rest := GreedyChunks(entries[m..], tok, limit);
      GreedyChunksValid(entries[m..], tok, limit);
      var chunks := [entries[..m]] + rest;
      assert chunks[1..] == rest;
      assert entries[..m] + entries[m..] == entries;
      if rest != [] {
        assert rest[0] + Flatten(rest[1..]) == entries[m..];
        assert rest[0][0] == entries[m];
      }
      forall i | 0 <= i < |chunks| - 1
        ensures ClosedBefore(chunks[i], chunks[i + 1][0], tok, limit)
      {
        if i > 0 {
          assert chunks[i] == rest[i - 1] && chunks[i + 1] == rest[i];
        }
      }
    }
  }

  /** The first chunk of a valid partition is a prefix of the input, and
      the remaining chunks partition the rest validly. */
  lemma ValidChunkingTail(entries: seq<Entry>, chunks: seq<seq<Entry>>, tok: Entry -> nat, limit: int)
    requires ValidChunking(entries, chunks, tok, limit) && chunks != []
    ensures |chunks[0]| <= |entries| && entries[..|chunks[0]|] == chunks[0]
    ensures ValidChunking(entries[|chunks[0]|..], chunks[1..], tok, limit)
    ensures chunks[1..] != [] ==> |chunks[0]| < |entries| && chunks[1][0] == entries[|chunks[0]|]
  {
    var rest := chunks[1..];
    assert entries == chunks[0] + Flatten(rest);
    assert entries[|chunks[0]|..] == Flatten(rest);
    forall i | 0 <= i < |rest| - 1
      ensures ClosedBefore(rest[i], rest[i + 1][0], tok, limit)
    {
      assert rest[i] == chunks[i + 1] && rest[i + 1] == chunks[i + 2];
    }
    if rest != [] {
      assert chunks[1] == rest[0] && rest[0] != [];
      assert Flatten(rest) == rest[0] + Flatten(rest[1..]);
    }
  }

  /** In two valid partitions of the same input, the first chunk of one is
      no shorter than that of the other: a shorter one would have been
      closed by an entry the longer one takes in, pushing it over the limit. */
  lemma FirstChunkNotShorter(entries: seq<Entry>, c1: seq<seq<Entry>>, c2: seq<seq<Entry>>, tok: Entry -> nat, limit: int)
    requires ValidChunking(entries, c1, tok, limit) && ValidChunking(entries, c2, tok, limit)
    requires c1 != [] && c2 != []
    ensures |c1[0]| >= |c2[0]|
  {
    ValidChunkingTail(entries, c1, tok, limit);
    ValidChunkingTail(entries, c2, tok, limit);
    var a, b := c1[0], c2[0];
    if |a| < |b| {
      assert c1[1..] != [];
      assert ClosedBefore(c1[0], c1[1][0], tok, limit);
      assert b[..|a|] == a && b[|a|] == entries[|a|];
      SumSnoc(b, |a|, tok);
      SumPrefix(b, |a| + 1, tok);
      assert false;
    }
  }

  /** A partition with the promised properties is unique: `chunk_entries`
      is completely determined by them. */
  lemma {:induction false} ValidChunkingUnique(entries: seq<Entry>, c1: seq<seq<Entry>>, c2: seq<seq<Entry>>, tok: Entry -> nat, limit: int)
    requires ValidChunking(entries, c1, tok, limit) && ValidChunking(entries, c2, tok, limit)
    ensures c1 == c2
    decreases |entries|
  {
    if c1 != [] && c2 != [] {
      FirstChunkNotShorter(entries, c1, c2, tok, limit);
      FirstChunkNotShorter(entries, c2, c1, tok, limit);
      ValidChunkingTail(entries, c1, tok, limit);
      ValidChunkingTail(entries, c2, tok, limit);
      ValidChunkingUnique(entries[|c1[0]|..], c1[1..], c2[1..], tok, limit);
      assert c1 == [c1[0]] + c1[1..] && c2 == [c2[0]] + c2[1..];
    }
  }

  /** The state of `chunk_entries` after the entries `done`: the closed
      chunks and the open chunk `current` obey the promised rules so far. */
  predicate PartialChunking(done: seq<Entry>, chunks: seq<seq<Entry>>, current: seq<Entry>, tok: Entry -> nat, limit: int) {
    Flatten(chunks) + current == done
    && (forall k :: 0 <= k < |chunks| ==> chunks[k] != [] && Fits(chunks[k], tok, limit))
    && (forall k :: 0 <= k < |chunks| - 1 ==> ClosedBefore(chunks[k], chunks[k + 1][0], tok, limit))
    && (chunks != [] ==> current != [] && ClosedBefore(chunks[|chunks| - 1], current[0], tok, limit))
    && (done != [] ==> current != [])
    && (current == [] || Fits(current, tok, limit))
  }

  /** An entry that does not fit closes the open chunk and opens a new one. */
  lemma StartChunk(done: seq<Entry>, chunks: seq<seq<Entry>>, current: seq<Entry>, e: Entry, tok: Entry -> nat, limit: int)
    requires PartialChunking(done, chunks, current, tok, limit)
    requires current != [] && Sum(current, tok) + tok(e) > limit
    ensures PartialChunking(done + [e], chunks + [current], [e], tok, limit)
  {
    FlattenSnoc(chunks, current);
    assert [e][..0] == [];
    var chunks' := chunks + [current];
    forall k | 0 <= k < |chunks'| - 1
      ensures ClosedBefore(chunks'[k], chunks'[k + 1][0], tok, limit)
    {
      if k < |chunks| - 1 {
        assert chunks'[k] == chunks[k] && chunks'[k + 1] == chunks[k + 1];
      }
    }
  }

  /** An entry that fits (or finds the open chunk empty) joins the open chunk. */
  lemma ExtendChunk(done: seq<Entry>, chunks: seq<seq<Entry>>, current: seq<Entry>, e: Entry, tok: Entry -> nat, limit: int)
    requires PartialChunking(done, chunks, current, tok, limit)
    requires current == [] || Sum(current, tok) + tok(e) <= limit
    ensures PartialChunking(done + [e], chunks, current + [e], tok, limit)
    ensures Sum(current + [e], tok) == Sum(current, tok) + tok(e)
  {
    assert (current + [e])[..|current|] == current;
    if current == [] {
      assert Flatten(chunks) == done;
    }
  }

  /** Closing the last open chunk yields a valid partition of the entries seen. */
  lemma FinishChunking(done: seq<Entry>, chunks: seq<seq<Entry>>, current: seq<Entry>, tok: Entry -> nat, limit: int)
    requires PartialChunking(done, chunks, current, tok, limit)
    ensures ValidChunking(done, if current == [] then chunks else chunks + [current], tok, limit)
  {
    if current != [] {
      FlattenSnoc(chunks, current);
      var chunks' := chunks + [current];
      forall k | 0 <= k < |chunks'| - 1
        ensures ClosedBefore(chunks'[k], chunks'[k + 1][0], tok, limit)
      {
        if k < |chunks| - 1 {
          assert chunks'[k] == chunks[k] && chunks'[k + 1] == chunks[k + 1];
        }
      }
    }
  }

  /** The `token_limit` that `summarize_bulk_chunks` leaves at its default. */
  const DefaultTokenLimit: int := 6000

  /** `Summarizer` of src/summarizer.py: prompt assembly and the summary
      calls, made through one LLM client. */
  class Summarizer {
    const llm: LlmClient
    /** `estimate_tokens` of src/token_utils.py, which is not part of this model. */
    const estimate: (string, string) -> nat
    /** The templates of src/prompt_templates.py. */
    const templates: Templates
    /** `Config.AUDIENCES` of src/config.py. */
    const audiences: map<string, string>

    constructor(llm: LlmClient, estimate: (string, string) -> nat, templates: Templates, audiences: map<string, string>)
      requires WellFormed(templates)
      ensures this.llm == llm && this.estimate == estimate && this.templates == templates && this.audiences == audiences
      ensures Valid()
    {
      this.llm := llm;
      this.estimate := estimate;
      this.templates := templates;
      this.audiences := audiences;
    }

    predicate Valid() {
      WellFormed(templates)
    }

    /** `Config.AUDIENCES.get(audience_key, "")`. */
    function AudienceDescription(audienceKey: string): (r: string)
      ensures audienceKey in audiences ==> r == audiences[audienceKey]
      ensures audienceKey !in audiences ==> r == ""
    {
      if audienceKey in audiences then audiences[audienceKey] else ""
    }

    /** `get_system_prompt(subject_area, audience_key)`. */
    function SystemPrompt(subjectArea: string, audienceKey: string): string
      requires Valid()
    {
      var args := map[SubjectAreaField := subjectArea, AudienceField := AudienceDescription(audienceKey)];
      assert args.Keys == SystemFields;
      Format(templates.system, args)
    }

    /** An unknown audience key gives the system prompt an empty audience
        description; it is not an error. */
    lemma UnknownAudience(subjectArea: string, audienceKey: string)
      requires Valid() && audienceKey !in audiences
      ensures FieldsAmong(templates.system, map[SubjectAreaField := subjectArea, AudienceField := ""].Keys)
      ensures SystemPrompt(subjectArea, audienceKey)
              == Format(templates.system, map[SubjectAreaField := subjectArea, AudienceField := ""])
    {
    }

    /** `make_entry_messages(...)`: the system prompt, then the entry
        template filled with the entry and stripped. */
    function EntryMessages(entry: Entry, subjectArea: string, audienceKey: string, contentType: string, maxLength: int): (r: seq<Message>)
      requires Valid()
      ensures |r| == 2 && r[0].role == System && r[1].role == User
      ensures r[0].content == SystemPrompt(subjectArea, audienceKey)
    {
      var args := map[SubjectAreaField := subjectArea, ContentTypeField := contentType, TitleField := entry.title,
                      SummaryField := entry.summary, LinkField := entry.link, LengthField := IntToString(maxLength)];
      assert args.Keys == EntryFields;
      [Message(System, SystemPrompt(subjectArea, audienceKey)), Message(User, Strip(Format(templates.entry, args)))]
    }

    /** `make_bulk_messages(...)`: the system prompt, then the bulk template
        filled with the blocks joined by blank lines, and stripped. */
    function BulkMessages(blocks: seq<string>, subjectArea: string, audienceKey: string, contentType: string, topK: int, maxLength: int): (r: seq<Message>)
      requires Valid()
      ensures |r| == 2 && r[0].role == System && r[1].role == User
      ensures r[0].content == SystemPrompt(subjectArea, audienceKey)
    {
      var args := map[ContentTypeField := contentType, SubjectAreaField := subjectArea, BlocksField := Join(blocks, "\n\n"),
                      TopEntriesField := IntToString(topK), LengthField := IntToString(maxLength)];
      assert args.Keys == BulkFields;
      [Message(System, SystemPrompt(subjectArea, audienceKey)), Message(User, Strip(Format(templates.bulk, args)))]
    }

    /** The requests `summarize_bulk_chunks` sends: one bulk prompt per
        chunk, in chunk order, with a 1000-character summary length. */
    function BulkRequests(chunks: seq<seq<Entry>>, subjectArea: string, audienceKey: string, contentType: string, topK: int): (r: seq<seq<Message>>)
      requires Valid()
      ensures |r| == |chunks|
    {
      if chunks == [] then []
      else
        BulkRequests(chunks[..|chunks| - 1], subjectArea, audienceKey, contentType, topK)
        + [BulkMessages(Blocks(chunks[|chunks| - 1]), subjectArea, audienceKey, contentType, topK, 1000)]
    }

    /** The `i`th request is the bulk prompt of the `i`th chunk. */
    lemma {:induction false} BulkRequestsAt(chunks: seq<seq<Entry>>, i: nat, subjectArea: string, audienceKey: string, contentType: string, topK: int)
      requires Valid() && i < |chunks|
      ensures BulkRequests(chunks, subjectArea, audienceKey, contentType, topK)[i]
              == BulkMessages(Blocks(chunks[i]), subjectArea, audienceKey, contentType, topK, 1000)
    {
      var n := |chunks| - 1;
      if i < n {
        BulkRequestsAt(chunks[..n], i, subjectArea, audienceKey, contentType, topK);
        assert chunks[..n][i] == chunks[i];
      }
    }

    lemma BulkRequestsSnoc(chunks: seq<seq<Entry>>, i: nat, subjectArea: string, audienceKey: string, contentType: string, topK: int)
      requires Valid() && i < |chunks|
      ensures BulkRequests(chunks[..i + 1], subjectArea, audienceKey, contentType, topK)
              == BulkRequests(chunks[..i], subjectArea, audienceKey, contentType, topK)
                 + [BulkMessages(Blocks(chunks[i]), subjectArea, audienceKey, contentType, topK, 1000)]
    {
      assert chunks[..i + 1][..i] == chunks[..i];
    }

    /** `summarize_entry(...)`: one call, with a 300-character summary length. */
    method SummarizeEntry(entry: Entry, subjectArea: string, audienceKey: string, contentType: string)
      returns (summary: string, cost: int)
      requires Valid()
      modifies llm
      ensures llm.calls == old(llm.calls) + [EntryMessages(entry, subjectArea, audienceKey, contentType, 300)]
      ensures summary == Answer(llm.service, |old(llm.calls)|, EntryMessages(entry, subjectArea, audienceKey, contentType, 300)).text
      ensures cost == Answer(llm.service, |old(llm.calls)|, EntryMessages(entry, subjectArea, audienceKey, contentType, 300)).cost
    {
      var messages := EntryMessages(entry, subjectArea, audienceKey, contentType, 300);
      summary, cost := llm.Chat(messages);
    }

    /** `chunk_entries(model, entries, token_limit)`: the greedy,
        order-preserving partition under the token budget. */
    method ChunkEntries(model: string, entries: seq<Entry>, tokenLimit: int) returns (chunks: seq<seq<Entry>>)
      ensures ValidChunking(entries, chunks, TokensOf(estimate, model), tokenLimit)
      ensures chunks == GreedyChunks(entries, TokensOf(estimate, model), tokenLimit)
    {
      ghost var tok := TokensOf(estimate, model);
      chunks := [];
      var current: seq<Entry> := [];
      var currentTokens := 0;
      for i := 0 to |entries|
        invariant PartialChunking(entries[..i], chunks, current, tok, tokenLimit)
        invariant currentTokens == Sum(current, tok)
      {
        var e := entries[i];
        var block := RenderBlock(e);
        var tokens := estimate(model, block);
        assert tokens == tok(e);
        assert entries[..i + 1] == entries[..i] + [e];
        if currentTokens + tokens > tokenLimit && current != [] {
          StartChunk(entries[..i], chunks, current, e, tok, tokenLimit);
          chunks := chunks + [current];
          current := [e];
          currentTokens := tokens;
          assert [e][..0] == [];
        } else {
          ExtendChunk(entries[..i], chunks, current, e, tok, tokenLimit);
          current := current + [e];
          currentTokens := currentTokens + tokens;
        }
      }
      assert entries[..|entries|] == entries;
      FinishChunking(entries, chunks, current, tok, tokenLimit);
      if current != [] {
        chunks := chunks + [current];
      }
      GreedyChunksValid(entries, tok, tokenLimit);
      ValidChunkingUnique(entries, chunks, GreedyChunks(entries, tok, tokenLimit), tok, tokenLimit);
    }

    /** `summarize_bulk_chunks(...)`: chunk the entries under the default
        budget, call the service once per chunk in chunk order, and return
        the replies' texts and their summed cost. */
    method SummarizeBulkChunks(entries: seq<Entry>, subjectArea: string, audienceKey: string, contentType: string, topK: int)
      returns (summaries: seq<string>, cost: int)
      requires Valid()
      modifies llm
      ensures Answered(llm.service, old(llm.calls), llm.calls,
                       BulkRequests(GreedyChunks(entries, TokensOf(estimate, llm.model), DefaultTokenLimit),
                                    subjectArea, audienceKey, contentType, topK),
                       summaries, cost)
    {
      var chunks := ChunkEntries(llm.model, entries, DefaultTokenLimit);
      summaries, cost := [], 0;
      for i := 0 to |chunks|
        invariant Answered(llm.service, old(llm.calls), llm.calls,
                           BulkRequests(chunks[..i], subjectArea, audienceKey, contentType, topK), summaries, cost)
      {
        var chunkBlocks := Blocks(chunks[i]);
        var messages := BulkMessages(chunkBlocks, subjectArea, audienceKey, contentType, topK, 1000);
        ghost var sent := BulkRequests(chunks[..i], subjectArea, audienceKey, contentType, topK);
        ghost var calls, summariesBefore, costBefore := llm.calls, summaries, cost;
        BulkRequestsSnoc(chunks, i, subjectArea, audienceKey, contentType, topK);
        var summary, chunkCost := llm.Chat(messages);
        summaries := summaries + [summary];
        cost := cost + chunkCost;
        AnsweredSnoc(llm.service, old(llm.calls), calls, sent, summariesBefore, costBefore, messages, summary, chunkCost);
      }
      assert chunks[..|chunks|] == chunks;
    }

    /** `summarize_overall_summaries(...)`: one call over the chunk
        summaries, as content type `summaries` with a 2000-character summary
        length. The entries argument is not used. */
    method SummarizeOverallSummaries(entries: seq<Entry>, chunkedSummaries: seq<string>, subjectArea: string, audienceKey: string, topK: int)
      returns (summary: string, cost: int)
      requires Valid()
      modifies llm
      ensures llm.calls == old(llm.calls) + [BulkMessages(chunkedSummaries, subjectArea, audienceKey, "summaries", topK, 2000)]
      ensures summary == Answer(llm.service, |old(llm.calls)|, BulkMessages(chunkedSummaries, subjectArea, audienceKey, "summaries", topK, 2000)).text
      ensures cost == Answer(llm.service, |old(llm.calls)|, BulkMessages(chunkedSummaries, subjectArea, audienceKey, "summaries", topK, 2000)).cost
    {
      var messages := BulkMessages(chunkedSummaries, subjectArea, audienceKey, "summaries", topK, 2000);
      summary, cost := llm.Chat(messages);
    }
  }
}
