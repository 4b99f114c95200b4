/**
 * Feed post-processing of app/rss_utils.py: `parse_feed` keeps the recent
 * items of one feed, in feed order, and `fetch_recent_entries` merges the
 * feeds' results in the order their workers complete and sorts the merge by
 * publication time, newest first. Downloading and HTML parsing are outside
 * the model: a feed is given by its outcome, and the HTML-to-text step by a
 * function.
 */
module RssUtils {
  import opened Feed
  import Sequences

  /** Seconds in a day (`timedelta(days=1)`). */
  const SecondsPerDay: int := 86400

  /** An item as the feed parser returns it: `published` is present only when
      the item has `published_parsed` (as whole seconds), `summary` is the
      raw HTML, absent when the item has none. */
  datatype RawItem = RawItem(title: string, link: string, published: Option<int>, summary: Option<string>)

  /** What one worker makes of a feed URL: the download failed (caught in
      `parse_feed`), the feed was read, or the worker raised after the
      download (caught in `fetch_recent_entries`). */
  datatype FeedOutcome = DownloadFailed | Downloaded(items: seq<RawItem>) | WorkerRaised

  /** The item is kept: it has a publication time strictly after the cutoff. */
  predicate IsRecent(item: RawItem, cutoff: int) {
    item.published.Some? && item.published.value > cutoff
  }

  /** The record `parse_feed` builds from a kept item: title, link,
      publication time and the text of `entry.get("summary", "")`. */
  function ToEntry(item: RawItem, htmlText: string -> string): (e: Entry)
    requires item.published.Some?
    ensures e.title == item.title && e.link == item.link && e.published == item.published.value
    ensures e.summary == htmlText(match item.summary case Some(s) => s case None => "")
  {
    Entry(item.title, item.link, item.published.value,
          htmlText(match item.summary case Some(s) => s case None => ""))
  }

  /** The records of the recent items, in feed order. */
  function Recent(items: seq<RawItem>, cutoff: int, htmlText: string -> string): (r: seq<Entry>)
    ensures |r| <= |items|
  {
    if items == [] then []
    else
      var last := items[|items| - 1];
      Recent(items[..|items| - 1], cutoff, htmlText)
      + (if IsRecent(last, cutoff) then [ToEntry(last, htmlText)] else [])
  }

  /** Keeping the recent items commutes with concatenation: the records of
      two runs of items are those of the first followed by those of the
      second, so feed order is kept. */
  lemma {:induction false} RecentConcat(a: seq<RawItem>, b: seq<RawItem>, cutoff: int, htmlText: string -> string)
    ensures Recent(a + b, cutoff, htmlText) == Recent(a, cutoff, htmlText) + Recent(b, cutoff, htmlText)
  {
    if b == [] {
      assert a + b == a;
    } else {
      var b' := b[..|b| - 1];
      assert (a + b)[..|a + b| - 1] == a + b';
      RecentConcat(a, b', cutoff, htmlText);
    }
  }

  /** A record comes out exactly for each recent item, and only then. */
  lemma {:induction false} RecentMember(items: seq<RawItem>, cutoff: int, htmlText: string -> string, e: Entry)
    ensures e in Recent(items, cutoff, htmlText)
            <==> exists i :: 0 <= i < |items| && IsRecent(items[i], cutoff) && ToEntry(items[i], htmlText) == e
  {
    if items != [] {
      var p := items[..|items| - 1];
      RecentMember(p, cutoff, htmlText, e);
      if e in Recent(items, cutoff, htmlText) && e !in Recent(p, cutoff, htmlText) {
        assert IsRecent(items[|items| - 1], cutoff) && ToEntry(items[|items| - 1], htmlText) == e;
      }
      if exists i :: 0 <= i < |items| && IsRecent(items[i], cutoff) && ToEntry(items[i], htmlText) == e {
        var i :| 0 <= i < |items| && IsRecent(items[i], cutoff) && ToEntry(items[i], htmlText) == e;
        if i < |p| {
          assert p[i] == items[i];
        }
      }
    }
  }

  /** Every record is strictly newer than the cutoff. */
  lemma {:induction false} RecentAfterCutoff(items: seq<RawItem>, cutoff: int, htmlText: string -> string)
    ensures forall k :: 0 <= k < |Recent(items, cutoff, htmlText)| ==> Recent(items, cutoff, htmlText)[k].published > cutoff
  {
    if items != [] {
      RecentAfterCutoff(items[..|items| - 1], cutoff, htmlText);
    }
  }

  /** What `parse_feed` returns, or `None` when it raises. */
  function FeedResult(outcome: FeedOutcome, cutoff: int, htmlText: string -> string): Option<seq<Entry>> {
    match outcome
    case DownloadFailed => Some([])
    case Downloaded(items) => Some(Recent(items, cutoff, htmlText))
    case WorkerRaised => None
  }

  /** `parse_feed(feed_url, cutoff_dt)` on a feed whose download failed
      (`[]`) or succeeded: the loop over the feed's items. */
  method ParseFeed(outcome: FeedOutcome, cutoff: int, htmlText: string -> string) returns (results: seq<Entry>)
    requires !outcome.WorkerRaised?
    ensures FeedResult(outcome, cutoff, htmlText) == Some(results)
  {
    if outcome.DownloadFailed? {
      return [];
    }
    var items := outcome.items;
    results := [];
    for i := 0 to |items|
      invariant results == Recent(items[..i], cutoff, htmlText)
    {
      assert items[..i + 1][..i] == items[..i];
      if items[i].published.Some? && items[i].published.value > cutoff {
        results := results + [ToEntry(items[i], htmlText)];
      }
    }
    assert items[..|items|] == items;
  }

  /** What a feed contributes to the merge: a worker that raised contributes
      nothing. */
  function Contribution(outcome: FeedOutcome, cutoff: int, htmlText: string -> string): seq<Entry> {
    match FeedResult(outcome, cutoff, htmlText)
    case Some(r) => r
    case None => []
  }

  /** The contributions of the given feeds, one after another. */
  function Merged(urls: seq<string>, feeds: string -> FeedOutcome, cutoff: int, htmlText: string -> string): seq<Entry> {
    if urls == [] then []
    else Merged(urls[..|urls| - 1], feeds, cutoff, htmlText) + Contribution(feeds(urls[|urls| - 1]), cutoff, htmlText)
  }

  lemma {:induction false} MergedSnoc(urls: seq<string>, i: nat, feeds: string -> FeedOutcome, cutoff: int, htmlText: string -> string)
    requires i < |urls|
    ensures Merged(urls[..i + 1], feeds, cutoff, htmlText)
            == Merged(urls[..i], feeds, cutoff, htmlText) + Contribution(feeds(urls[i]), cutoff, htmlText)
  {
    assert urls[..i + 1][..i] == urls[..i];
  }

  lemma {:induction false} MergedConcat(a: seq<string>, b: seq<string>, feeds: string -> FeedOutcome, cutoff: int, htmlText: string -> string)
    ensures Merged(a + b, feeds, cutoff, htmlText) == Merged(a, feeds, cutoff, htmlText) + Merged(b, feeds, cutoff, htmlText)
  {
    if b == [] {
      assert a + b == a;
    } else {
      var b', u := b[..|b| - 1], b[|b| - 1];
      assert a + b == (a + b') + [u];
      assert b == b' + [u];
      MergedConcat(a, b', feeds, cutoff, htmlText);
      MergedAppendOne(a + b', u, feeds, cutoff, htmlText);
      MergedAppendOne(b', u, feeds, cutoff, htmlText);
      Sequences.AppendAssoc(Merged(a, feeds, cutoff, htmlText), Merged(b', feeds, cutoff, htmlText),
                            Contribution(feeds(u), cutoff, htmlText));
    }
  }

  lemma {:induction false} MergedAppendOne(urls: seq<string>, u: string, feeds: string -> FeedOutcome, cutoff: int, htmlText: string -> string)
    ensures Merged(urls + [u], feeds, cutoff, htmlText) == Merged(urls, feeds, cutoff, htmlText) + Contribution(feeds(u), cutoff, htmlText)
  {
    assert (urls + [u])[..|urls|] == urls;
  }

  /** The merge holds the same records whatever order the workers complete
      in: merging a reordering of the URLs gives a permutation. */
  lemma {:induction false} MergedPermutation(a: seq<string>, b: seq<string>, feeds: string -> FeedOutcome, cutoff: int, htmlText: string -> string)
    requires multiset(a) == multiset(b)
    ensures multiset(Merged(a, feeds, cutoff, htmlText)) == multiset(Merged(b, feeds, cutoff, htmlText))
  {
    if a != [] {
      var last := a[|a| - 1];
      var a' := a[..|a| - 1];
      assert a == a' + [last];
      assert last in multiset(b);
      var j :| 0 <= j < |b| && b[j] == last;
      RemoveOne(b, j);
      MergedPermutation(a', b[..j] + b[j + 1..], feeds, cutoff, htmlText);
      MergedRemove(b, j, feeds, cutoff, htmlText);
    }
  }

  /** The merge of `b` is that of `b` without its `j`th URL, plus that URL's
      contribution. */
  lemma {:induction false} MergedRemove(b: seq<string>, j: nat, feeds: string -> FeedOutcome, cutoff: int, htmlText: string -> string)
    requires j < |b|
    ensures multiset(Merged(b, feeds, cutoff, htmlText))
            == multiset(Merged(b[..j] + b[j + 1..], feeds, cutoff, htmlText)) + multiset(Contribution(feeds(b[j]), cutoff, htmlText))
  {
    var front, back := b[..j], b[j + 1..];
    RemoveOne(b, j);
    MergedConcat(front, back, feeds, cutoff, htmlText);
    MergedConcat(front, [b[j]] + back, feeds, cutoff, htmlText);
    MergedConcat([b[j]], back, feeds, cutoff, htmlText);
    assert Merged([b[j]], feeds, cutoff, htmlText) == Contribution(feeds(b[j]), cutoff, htmlText) by {
      assert [b[j]][..0] == [];
    }
  }

  /** Taking out the element at `j` takes one copy of it out of the multiset. */
  lemma {:induction false} RemoveOne<T>(b: seq<T>, j: nat)
    requires j < |b|
    ensures b == b[..j] + ([b[j]] + b[j + 1..])
    ensures multiset(b[..j] + b[j + 1..]) == multiset(b) - multiset{b[j]}
  {
    assert b == b[..j] + [b[j]] + b[j + 1..];
  }

  /** Newest first. */
  predicate SortedNewestFirst(s: seq<Entry>) {
    forall i, j :: 0 <= i < j < |s| ==> s[i].published >= s[j].published
  }

  /** `x` placed before the first record that is not newer than it. */
  function Insert(x: Entry, s: seq<Entry>): (r: seq<Entry>)
    ensures |r| == |s| + 1
  {
    if s == [] || s[0].published <= x.published then [x] + s
    else [s[0]] + Insert(x, s[1..])
  }

  /** Inserting adds `x` and keeps the order newest first. */
  lemma {:induction false} InsertSorted(x: Entry, s: seq<Entry>)
    ensures multiset(Insert(x, s)) == multiset(s) + multiset{x}
    ensures SortedNewestFirst(s) ==> SortedNewestFirst(Insert(x, s))
  {
    InsertMultiset(x, s);
    if SortedNewestFirst(s) {
      InsertKeepsSorted(x, s);
    }
  }

  lemma {:induction false} InsertMultiset(x: Entry, s: seq<Entry>)
    ensures multiset(Insert(x, s)) == multiset(s) + multiset{x}
  {
    if !(s == [] || s[0].published <= x.published) {
      InsertMultiset(x, s[1..]);
      assert s == [s[0]] + s[1..];
    }
  }

  lemma {:induction false} InsertKeepsSorted(x: Entry, s: seq<Entry>)
    requires SortedNewestFirst(s)
    ensures SortedNewestFirst(Insert(x, s))
  {
    if s == [] || s[0].published <= x.published {
      SortedCons(x, s);
    } else {
      var rest := s[1..];
      assert SortedNewestFirst(rest) by {
        forall i, j | 0 <= i < j < |rest| ensures rest[i].published >= rest[j].published {
          assert rest[i] == s[i + 1] && rest[j] == s[j + 1];
        }
      }
      InsertKeepsSorted(x, rest);
      forall i | 0 <= i < |rest| ensures rest[i].published <= s[0].published {
        assert rest[i] == s[i + 1];
      }
      InsertBounded(x, rest, s[0].published);
      SortedCons(s[0], Insert(x, rest));
    }
  }

  /** Inserting into records no newer than `b` a record no newer than `b`
      gives records no newer than `b`. */
  lemma {:induction false} InsertBounded(x: Entry, s: seq<Entry>, b: int)
    requires x.published <= b && forall i :: 0 <= i < |s| ==> s[i].published <= b
    ensures forall i :: 0 <= i < |Insert(x, s)| ==> Insert(x, s)[i].published <= b
  {
    if !(s == [] || s[0].published <= x.published) {
      var rest := s[1..];
      forall i | 0 <= i < |rest| ensures rest[i].published <= b {
        assert rest[i] == s[i + 1];
      }
      InsertBounded(x, rest, b);
      var r := Insert(x, s);
      forall i | 0 <= i < |r| ensures r[i].published <= b {
        if i > 0 {
          assert r[i] == Insert(x, rest)[i - 1];
        }
      }
    }
  }

  /** A record at least as new as every record of a sorted list, put in
      front of it, keeps the list sorted. */
  lemma {:induction false} SortedCons(h: Entry, s: seq<Entry>)
    requires SortedNewestFirst(s)
    requires forall i :: 0 <= i < |s| ==> s[i].published <= h.published
    ensures SortedNewestFirst([h] + s)
  {
    var r := [h] + s;
    forall i, j | 0 <= i < j < |r| ensures r[i].published >= r[j].published {
      assert r[j] == s[j - 1];
      if i > 0 {
        assert r[i] == s[i - 1];
      }
    }
  }

  /** `entries.sort(key=lambda e: e["published"], reverse=True)`: the
      records newest first, those published at the same time keeping their
      order (Python's sort is stable, `reverse=True` included). */
  function SortNewestFirst(s: seq<Entry>): (r: seq<Entry>)
    ensures |r| == |s|
  {
    if s == [] then [] else Insert(s[0], SortNewestFirst(s[1..]))
  }

  /** The sort is a permutation whose result is newest first. */
  lemma {:induction false} SortSorted(s: seq<Entry>)
    ensures multiset(SortNewestFirst(s)) == multiset(s)
    ensures SortedNewestFirst(SortNewestFirst(s))
  {
    if s != [] {
      SortSorted(s[1..]);
      InsertSorted(s[0], SortNewestFirst(s[1..]));
      assert s == [s[0]] + s[1..];
    }
  }

  /** The records of `s` published at time `t`, in order. */
  function At(s: seq<Entry>, t: int): seq<Entry> {
    if s == [] then [] else (if s[0].published == t then [s[0]] else []) + At(s[1..], t)
  }

  lemma {:induction false} InsertAt(x: Entry, s: seq<Entry>, t: int)
    requires SortedNewestFirst(s)
    ensures At(Insert(x, s), t) == (if x.published == t then [x] else []) + At(s, t)
  {
    if !(s == [] || s[0].published <= x.published) {
      InsertAt(x, s[1..], t);
      assert At(Insert(x, s), t) == (if s[0].published == t then [s[0]] else []) + At(Insert(x, s[1..]), t) by {
        assert Insert(x, s)[1..] == Insert(x, s[1..]);
      }
      if x.published == t {
        // s[0] is strictly newer than x
        assert At(s, t) == At(s[1..], t);
      }
    } else {
      assert ([x] + s)[1..] == s;
    }
  }

  /** The sort is stable: for every publication time, the records published
      then come out in their original order. */
  lemma {:induction false} SortStable(s: seq<Entry>, t: int)
    ensures At(SortNewestFirst(s), t) == At(s, t)
  {
    if s != [] {
      SortStable(s[1..], t);
      SortSorted(s[1..]);
      InsertAt(s[0], SortNewestFirst(s[1..]), t);
    }
  }

  /** `fetch_recent_entries(feed_urls, days_limit)` at wall-clock time `now`
      (seconds). Each URL's worker has the outcome `feeds` gives it;
      `completed` is the order in which `as_completed` hands back the
      workers, some reordering of `feedUrls`. */
  method FetchRecentEntries(feedUrls: seq<string>, daysLimit: int, now: int, feeds: string -> FeedOutcome,
                            htmlText: string -> string, completed: seq<string>)
    returns (entries: seq<Entry>)
    requires multiset(completed) == multiset(feedUrls)
    ensures entries == SortNewestFirst(Merged(completed, feeds, now - daysLimit * SecondsPerDay, htmlText))
  {
    var cutoff := now - daysLimit * SecondsPerDay;
    entries := [];
    for i := 0 to |completed|
      invariant entries == Merged(completed[..i], feeds, cutoff, htmlText)
    {
      var outcome := feeds(completed[i]);
      var res: seq<Entry>;
      if outcome.WorkerRaised? {
        res := [];
      } else {
        res := ParseFeed(outcome, cutoff, htmlText);
      }
      MergedSnoc(completed, i, feeds, cutoff, htmlText);
      entries := entries + res;
    }
    assert completed[..|completed|] == completed;
    entries := SortNewestFirst(entries);
  }

  /** The result is newest first and holds exactly the records of the
      feeds taken in the order they were given, whatever order the workers
      completed in. */
  lemma {:induction false} FetchedIsSortedPermutation(feedUrls: seq<string>, completed: seq<string>, feeds: string -> FeedOutcome,
                                   cutoff: int, htmlText: string -> string)
    requires multiset(completed) == multiset(feedUrls)
    ensures SortedNewestFirst(SortNewestFirst(Merged(completed, feeds, cutoff, htmlText)))
    ensures multiset(SortNewestFirst(Merged(completed, feeds, cutoff, htmlText))) == multiset(Merged(feedUrls, feeds, cutoff, htmlText))
  {
    MergedPermutation(completed, feedUrls, feeds, cutoff, htmlText);
    SortSorted(Merged(completed, feeds, cutoff, htmlText));
  }

  /** A feed whose worker raised adds nothing, and the others still add
      their records. */
  lemma {:induction false} RaisedFeedContributesNothing(urls: seq<string>, bad: string, feeds: string -> FeedOutcome, cutoff: int, htmlText: string -> string)
    requires feeds(bad).WorkerRaised?
    ensures Merged(urls + [bad], feeds, cutoff, htmlText) == Merged(urls, feeds, cutoff, htmlText)
  {
    assert (urls + [bad])[..|urls|] == urls;
  }
}
