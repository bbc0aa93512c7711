/**
 * Incremental feed collection: a watermark per feed URL, items strictly newer
 * than the watermark are kept (in feed order) and enriched, and the watermark
 * then moves to the first kept article's timestamp.
 *
 * The feed parser, the fallback date layout, and the page refetch plus
 * readability extraction are inputs (oracles).
 */
module Feed {
  import opened Wrappers
  import opened GoStrings
  import opened Types
  import Seqs

  /** Go's zero `time.Time` (January 1, year 1, UTC) in Unix seconds: what a missing map key reads as. */
  const GoZeroTime: int := -62135596800

  /** A description longer than this many bytes is discarded as noise. */
  const MaxDescriptionLength: nat := 1000

  datatype RssFeed = RssFeed(name: string, url: string)

  /** One parsed feed entry; `publishedParsed` is the parser's own timestamp, if any. */
  datatype Item = Item(
    title: string,
    description: string,
    link: string,
    content: string,
    categories: seq<string>,
    publishedParsed: Option<int>,
    published: string)

  /** Per-feed watermark: the time after which articles count as new. */
  type Watermarks = map<string, int>

  datatype FeedState = FeedState(rssFeeds: seq<RssFeed>, lastItemPerFeed: Watermarks)

  /** What refetching an article page produced. */
  datatype FetchOutcome =
    | FetchFailed(msg: string)
    | BadUrl(msg: string)
    | ExtractFailed(msg: string)
    | Extracted(html: string, text: string)

  /** The watermark of `url`, reading the zero time when it has none. */
  function LastPull(w: Watermarks, url: string): int {
    if url in w then w[url] else GoZeroTime
  }

  /** `New`: every configured URL starts at `now - initPull`, one key per distinct URL. */
  method New(feeds: seq<RssFeed>, now: int, initPull: int) returns (f: FeedState)
    ensures f.rssFeeds == feeds
    ensures f.lastItemPerFeed.Keys == set i | 0 <= i < |feeds| :: feeds[i].url
    ensures forall u :: u in f.lastItemPerFeed ==> f.lastItemPerFeed[u] == now - initPull
  {
    var initFrom := now - initPull;
    var m: Watermarks := map[];
    var i := 0;
    while i < |feeds|
      invariant 0 <= i <= |feeds|
      invariant m.Keys == set j | 0 <= j < i :: feeds[j].url
      invariant forall u :: u in m ==> m[u] == initFrom
    {
      m := m[feeds[i].url := initFrom];
      i := i + 1;
    }
    f := FeedState(feeds, m);
  }

  // ---------------------------------------------------------------------
  // Dates and freshness
  // ---------------------------------------------------------------------

  /** The parser's timestamp, else the fallback layout applied to the raw date text. */
  function ResolveDate(item: Item, fallback: string -> Option<int>): Option<int> {
    if item.publishedParsed.Some? then item.publishedParsed else fallback(item.published)
  }

  /** An item is new when its date resolves and lies strictly after the watermark. */
  predicate IsFresh(item: Item, since: int, fallback: string -> Option<int>) {
    match ResolveDate(item, fallback)
    case Some(t) => t > since
    case None => false
  }

  function FreshItems(items: seq<Item>, since: int, fallback: string -> Option<int>): seq<Item> {
    Seqs.Filter(items, (it: Item) => IsFresh(it, since, fallback))
  }

  function ArticleOf(item: Item, published: int): Article {
    Article(item.title, item.description, item.link, item.content, item.categories, published, "", [])
  }

  // ---------------------------------------------------------------------
  // Enrichment
  // ---------------------------------------------------------------------

  /**
   * The description clean-up: an empty description takes the content, and a
   * description longer than the limit is cleared. Nothing else changes.
   */
  function CleanUp(a: Article): (r: Article)
    ensures r == a.(description := r.description)
    ensures Utf8Len(r.description) <= MaxDescriptionLength
    ensures r.description == "" || r.description == a.description || r.description == a.content
    ensures a.description == "" && Utf8Len(a.content) <= MaxDescriptionLength ==> r.description == a.content
    ensures a.description != "" && Utf8Len(a.description) <= MaxDescriptionLength ==> r.description == a.description
    ensures a.description != "" && Utf8Len(a.description) > MaxDescriptionLength ==> r.description == ""
  {
    var d := if a.description == "" && a.content != "" then a.content else a.description;
    a.(description := if Utf8Len(d) > MaxDescriptionLength then "" else d)
  }

  /**
   * `enrichArticleItem`: clean up, then always refetch. A failed fetch gives the
   * cleaned article and no error; later failures give it with an error; only a
   * successful, non-empty extraction replaces the content.
   */
  function Enrich(a: Article, fetched: FetchOutcome): (r: (Article, Option<string>))
    ensures r.0 == CleanUp(a).(content := r.0.content)
    ensures fetched.FetchFailed? ==> r == (CleanUp(a), None)
    ensures r.1.None? <==> fetched.FetchFailed? || (fetched.Extracted? && fetched.html != "")
    ensures r.0.content == if fetched.Extracted? && fetched.html != "" then fetched.text else a.content
  {
    var c := CleanUp(a);
    match fetched
    case FetchFailed(_) => (c, None)
    case BadUrl(e) => (c, Some(Wrap("failed to parse URL", e)))
    case ExtractFailed(e) => (c, Some(Wrap("failed to extract text content from html", e)))
    case Extracted(html, text) =>
      if |html| == 0 then (c, Some("failed to extract text content from html (zero content)"))
      else (c.(content := text), None)
  }

  /**
   * The article an item becomes once it is dated and enriched (the enrichment
   * error is only logged): the item's title, link and categories, its resolved
   * date, the cleaned description, and the refetched text when extraction
   * produced some, else the item's own content.
   */
  function EnrichedArticle(item: Item, fallback: string -> Option<int>, fetch: string -> FetchOutcome): (a: Article)
    requires ResolveDate(item, fallback).Some?
    ensures a.published == ResolveDate(item, fallback).value
    ensures a.title == item.title && a.link == item.link && a.categories == item.categories
    ensures a.summary == "" && a.catRelevance == []
    ensures a.description == CleanUp(ArticleOf(item, a.published)).description
    ensures Utf8Len(a.description) <= MaxDescriptionLength
    ensures item.description != "" && Utf8Len(item.description) <= MaxDescriptionLength ==> a.description == item.description
    ensures a.content == match fetch(item.link)
                         case Extracted(html, text) => if html != "" then text else item.content
                         case _ => item.content
  {
    Enrich(ArticleOf(item, ResolveDate(item, fallback).value), fetch(item.link)).0
  }

  // ---------------------------------------------------------------------
  // collectFeed
  // ---------------------------------------------------------------------

  function CollectedArticles(items: seq<Item>, since: int, fallback: string -> Option<int>, fetch: string -> FetchOutcome): (r: seq<Article>)
    ensures forall k :: 0 <= k < |r| ==> r[k].published > since
    ensures forall k :: 0 <= k < |r| ==> Utf8Len(r[k].description) <= MaxDescriptionLength
  {
    var f := FreshItems(items, since, fallback);
    seq(|f|, k requires 0 <= k < |f| => EnrichedArticle(f[k], fallback, fetch))
  }

  /**
   * `collectFeed`. A parser error returns an error and leaves the watermarks
   * alone. Otherwise every returned article is strictly newer than the feed's
   * watermark; if any is returned the watermark becomes the FIRST one's
   * timestamp (so it strictly increases), else it is unchanged; other feeds'
   * watermarks are never touched.
   */
  function CollectFeed(w: Watermarks, feed: RssFeed, parsed: Result<seq<Item>>,
                       fallback: string -> Option<int>, fetch: string -> FetchOutcome): (r: (Result<seq<Article>>, Watermarks))
    ensures parsed.Err? ==> r == (Err(Wrap("failed to fetch feed", parsed.msg)), w)
    ensures parsed.Ok? ==> r.0.Ok?
    ensures r.0.Ok? ==> forall a :: a in r.0.value ==> a.published > LastPull(w, feed.url)
    ensures r.0.Ok? ==> forall a :: a in r.0.value ==> Utf8Len(a.description) <= MaxDescriptionLength
    ensures r.0.Ok? && |r.0.value| > 0 ==> r.1 == w[feed.url := r.0.value[0].published]
    ensures r.0.Ok? && |r.0.value| == 0 ==> r.1 == w
    ensures forall u :: u != feed.url ==> (u in r.1 <==> u in w) && LastPull(r.1, u) == LastPull(w, u)
    ensures LastPull(r.1, feed.url) >= LastPull(w, feed.url)
    ensures r.0.Ok? && |r.0.value| > 0 ==> LastPull(r.1, feed.url) > LastPull(w, feed.url)
  {
    match parsed
    case Err(e) => (Err(Wrap("failed to fetch feed", e)), w)
    case Ok(items) =>
      var articles := CollectedArticles(items, LastPull(w, feed.url), fallback, fetch);
      if |articles| > 0 then (Ok(articles), w[feed.url := articles[0].published])
      else (Ok(articles), w)
  }

  /**
   * The articles returned are exactly the fresh items, enriched, in feed order:
   * one per fresh item (a failed enrichment drops nothing), each the item's
   * `EnrichedArticle`, so carrying its title, link and resolved date; the fresh items are a subsequence of
   * the feed, and every fresh item of the feed is among them.
   */
  lemma CollectFeedKeepsFreshInOrder(w: Watermarks, feed: RssFeed, items: seq<Item>,
                                     fallback: string -> Option<int>, fetch: string -> FetchOutcome)
    ensures var since := LastPull(w, feed.url);
      var f := FreshItems(items, since, fallback);
      var r := CollectFeed(w, feed, Ok(items), fallback, fetch).0;
      && r.Ok?
      && |r.value| == |f| == Seqs.Count(items, (it: Item) => IsFresh(it, since, fallback))
      && Seqs.IsSubsequence(f, items)
      && (forall x :: x in items && IsFresh(x, since, fallback) ==> x in f)
      && (forall k :: 0 <= k < |f| ==>
            && ResolveDate(f[k], fallback).Some?
            && r.value[k] == EnrichedArticle(f[k], fallback, fetch)
            && r.value[k].published == ResolveDate(f[k], fallback).value
            && r.value[k].link == f[k].link
            && r.value[k].title == f[k].title)
  {
  }

  /** An item without a usable date, or dated at or before the watermark, is never kept. */
  lemma UndatedOrStaleItemSkipped(items: seq<Item>, since: int, fallback: string -> Option<int>, x: Item)
    requires ResolveDate(x, fallback).None? || ResolveDate(x, fallback).value <= since
    ensures x !in FreshItems(items, since, fallback)
  {
  }

  // ---------------------------------------------------------------------
  // Re-delivery
  // ---------------------------------------------------------------------

  /** Every pair of dated items appears newest first. */
  ghost predicate DatedNewestFirst(items: seq<Item>, fallback: string -> Option<int>) {
    forall i, j :: 0 <= i < j < |items| && ResolveDate(items[i], fallback).Some? && ResolveDate(items[j], fallback).Some?
      ==> ResolveDate(items[i], fallback).value >= ResolveDate(items[j], fallback).value
  }

  /**
   * In a feed listed newest first, the first fresh item carries the largest
   * date of all dated items.
   */
  lemma FirstFreshIsNewest(items: seq<Item>, since: int, fallback: string -> Option<int>) returns (top: int)
    requires DatedNewestFirst(items, fallback) && |FreshItems(items, since, fallback)| > 0
    ensures ResolveDate(FreshItems(items, since, fallback)[0], fallback) == Some(top)
    ensures forall j :: 0 <= j < |items| && ResolveDate(items[j], fallback).Some? ==>
              ResolveDate(items[j], fallback).value <= top
  {
    var p := (it: Item) => IsFresh(it, since, fallback);
    var i0 := Seqs.FilterHead(items, p);
    top := ResolveDate(items[i0], fallback).value;
    forall j | 0 <= j < |items| && ResolveDate(items[j], fallback).Some?
      ensures ResolveDate(items[j], fallback).value <= top
    {
      if j < i0 {
        assert !p(items[j]);
      }
    }
  }

  /**
   * For a feed listed newest first, the first kept article is the newest one,
   * so the new watermark is the maximum kept timestamp, and polling the same
   * feed again returns nothing.
   */
  lemma {:induction false} NoRedeliveryWhenNewestFirst(w: Watermarks, feed: RssFeed, items: seq<Item>,
                                     fallback: string -> Option<int>, fetch: string -> FetchOutcome)
    requires DatedNewestFirst(items, fallback)
    ensures var (r, w') := CollectFeed(w, feed, Ok(items), fallback, fetch);
      && (forall a :: a in r.value ==> a.published <= LastPull(w', feed.url))
      && CollectFeed(w', feed, Ok(items), fallback, fetch) == (Ok([]), w')
  {
    var since := LastPull(w, feed.url);
    var f := FreshItems(items, since, fallback);
    var (r, w') := CollectFeed(w, feed, Ok(items), fallback, fetch);
    var arts := CollectedArticles(items, since, fallback, fetch);
    assert r.value == arts && |arts| == |f|;
    if |f| == 0 {
      assert r.value == [] && w' == w;
      return;
    }
    var top := FirstFreshIsNewest(items, since, fallback);
    assert LastPull(w', feed.url) == top;
    forall a | a in r.value ensures a.published <= top {
      var k :| 0 <= k < |arts| && arts[k] == a;
      assert arts[k] == EnrichedArticle(f[k], fallback, fetch);
      assert f[k] in items;
      var j :| 0 <= j < |items| && items[j] == f[k];
    }
    NothingFreshAfterNewest(items, top, fallback);
  }

  /** No item is fresh against a watermark at or after every item's date. */
  lemma NothingFreshAfterNewest(items: seq<Item>, top: int, fallback: string -> Option<int>)
    requires forall j :: 0 <= j < |items| && ResolveDate(items[j], fallback).Some? ==>
               ResolveDate(items[j], fallback).value <= top
    ensures FreshItems(items, top, fallback) == []
  {
    assert forall i :: 0 <= i < |items| ==> !IsFresh(items[i], top, fallback);
    Seqs.FilterAllOrNothing(items, (it: Item) => IsFresh(it, top, fallback));
  }

  /**
   * The watermark is the first kept article, not the newest: a feed listed
   * oldest first re-delivers its newer item on the next poll.
   */
  lemma RedeliveryWhenOldestFirst()
    ensures var older := Item("", "", "old", "", [], Some(10), "");
      var newer := Item("", "", "new", "", [], Some(20), "");
      var feed := RssFeed("f", "u");
      var fallback := (s: string) => None;
      var fetch := (l: string) => FetchFailed("offline");
      var (r1, w1) := CollectFeed(map["u" := 5], feed, Ok([older, newer]), fallback, fetch);
      var (r2, w2) := CollectFeed(w1, feed, Ok([older, newer]), fallback, fetch);
      && |r1.value| == 2 && LastPull(w1, "u") == 10
      && |r2.value| == 1 && r2.value[0].link == "new"
  {
    var older := Item("", "", "old", "", [], Some(10), "");
    var newer := Item("", "", "new", "", [], Some(20), "");
    var fallback := (s: string) => None;
    var p5 := (it: Item) => IsFresh(it, 5, fallback);
    var p10 := (it: Item) => IsFresh(it, 10, fallback);
    assert [older, newer][1..] == [newer];
    assert Seqs.Filter([older, newer], p5) == [older, newer];
    assert Seqs.Filter([older, newer], p10) == [newer];
  }

  // ---------------------------------------------------------------------
  // Polling one feed repeatedly
  // ---------------------------------------------------------------------

  /** The watermarks after polling `feed` once per parser result, in order. */
  function PollRepeatedly(w: Watermarks, feed: RssFeed, results: seq<Result<seq<Item>>>,
                          fallback: string -> Option<int>, fetch: string -> FetchOutcome): Watermarks
    decreases |results|
  {
    if |results| == 0 then w
    else PollRepeatedly(CollectFeed(w, feed, results[0], fallback, fetch).1, feed, results[1..], fallback, fetch)
  }

  /** Across any number of polls the watermark never decreases, and other feeds keep theirs. */
  lemma {:induction false} WatermarkMonotoneAcrossPolls(w: Watermarks, feed: RssFeed, results: seq<Result<seq<Item>>>,
                                      fallback: string -> Option<int>, fetch: string -> FetchOutcome)
    ensures LastPull(PollRepeatedly(w, feed, results, fallback, fetch), feed.url) >= LastPull(w, feed.url)
    ensures forall u :: u != feed.url ==> LastPull(PollRepeatedly(w, feed, results, fallback, fetch), u) == LastPull(w, u)
    decreases |results|
  {
    if |results| > 0 {
      WatermarkMonotoneAcrossPolls(CollectFeed(w, feed, results[0], fallback, fetch).1, feed, results[1..], fallback, fetch);
    }
  }

  // ---------------------------------------------------------------------
  // collect
  // ---------------------------------------------------------------------

  ghost predicate SomeFeedFails(feeds: seq<RssFeed>, parse: string -> Result<seq<Item>>) {
    exists i :: 0 <= i < |feeds| && parse(feeds[i].url).Err?
  }

  /** Some feed fails exactly when the first one does or some later one does. */
  lemma SomeFeedFailsSplit(feeds: seq<RssFeed>, parse: string -> Result<seq<Item>>)
    requires |feeds| > 0
    ensures SomeFeedFails(feeds, parse) <==> parse(feeds[0].url).Err? || SomeFeedFails(feeds[1..], parse)
  {
    if SomeFeedFails(feeds[1..], parse) {
      var i :| 0 <= i < |feeds[1..]| && parse(feeds[1..][i].url).Err?;
      assert feeds[i + 1] == feeds[1..][i];
    }
    if SomeFeedFails(feeds, parse) && parse(feeds[0].url).Ok? {
      var i :| 0 <= i < |feeds| && parse(feeds[i].url).Err?;
      assert feeds[1..][i - 1] == feeds[i];
    }
  }

  /**
   * `collect`, as written: feeds are collected in order and the first failing
   * feed aborts the whole poll with no articles. The watermarks of the feeds
   * collected before it have already moved.
   */
  function Collect(w: Watermarks, feeds: seq<RssFeed>, parse: string -> Result<seq<Item>>,
                   fallback: string -> Option<int>, fetch: string -> FetchOutcome): (r: (Result<seq<Article>>, Watermarks))
    ensures r.0.Err? <==> SomeFeedFails(feeds, parse)
    ensures forall u :: LastPull(r.1, u) >= LastPull(w, u)
    ensures forall u :: (forall i :: 0 <= i < |feeds| ==> feeds[i].url != u) ==> LastPull(r.1, u) == LastPull(w, u)
    decreases |feeds|
  {
    if |feeds| == 0 then (Ok([]), w)
    else
      var (r1, w1) := CollectFeed(w, feeds[0], parse(feeds[0].url), fallback, fetch);
      if r1.Err? then
        (Err(Wrap("failed to collect feed", r1.msg)), w1)
      else
        var (r2, w2) := Collect(w1, feeds[1..], parse, fallback, fetch);
        SomeFeedFailsSplit(feeds, parse);
        if r2.Err? then (r2, w2) else (Ok(r1.value + r2.value), w2)
  }

  /** Collecting a single feed: its `collectFeed` result, an error wrapped once more. */
  lemma CollectOne(w: Watermarks, f: RssFeed, parse: string -> Result<seq<Item>>,
                   fallback: string -> Option<int>, fetch: string -> FetchOutcome)
    ensures var (r1, w1) := CollectFeed(w, f, parse(f.url), fallback, fetch);
      Collect(w, [f], parse, fallback, fetch)
        == (if r1.Err? then Err(Wrap("failed to collect feed", r1.msg)) else r1, w1)
  {
    assert [f][1..] == [];
    var (r1, w1) := CollectFeed(w, f, parse(f.url), fallback, fetch);
    if r1.Ok? {
      assert r1.value + [] == r1.value;
    }
  }

  /**
   * Collecting `a + b` is collecting `a`, then `b` from the watermarks `a`
   * left: an error in `a` ends the poll there, an error in `b` is the poll's
   * error, and otherwise the articles of `a` come first, then those of `b`.
   */
  lemma {:induction false} CollectAppend(w: Watermarks, a: seq<RssFeed>, b: seq<RssFeed>, parse: string -> Result<seq<Item>>,
                                         fallback: string -> Option<int>, fetch: string -> FetchOutcome)
    ensures var ca := Collect(w, a, parse, fallback, fetch);
      var cb := Collect(ca.1, b, parse, fallback, fetch);
      Collect(w, a + b, parse, fallback, fetch)
        == if ca.0.Err? then ca else if cb.0.Err? then cb else (Ok(ca.0.value + cb.0.value), cb.1)
    decreases |a|
  {
    if |a| == 0 {
      assert a + b == b;
      var cb := Collect(w, b, parse, fallback, fetch);
      if cb.0.Ok? {
        assert [] + cb.0.value == cb.0.value;
      }
    } else {
      var ab := a + b;
      assert ab[0] == a[0];
      assert ab[1..] == a[1..] + b;
      var c1 := CollectFeed(w, a[0], parse(a[0].url), fallback, fetch);
      CollectStep(w, ab, parse, fallback, fetch);
      CollectStep(w, a, parse, fallback, fetch);
      if c1.0.Ok? {
        var t := Collect(c1.1, a[1..], parse, fallback, fetch);
        var tb := Collect(t.1, b, parse, fallback, fetch);
        var c2 := Collect(c1.1, ab[1..], parse, fallback, fetch);
        CollectAppend(c1.1, a[1..], b, parse, fallback, fetch);
        assert c2 == if t.0.Err? then t else if tb.0.Err? then tb else (Ok(t.0.value + tb.0.value), tb.1);
        var ca := Collect(w, a, parse, fallback, fetch);
        assert ca == if t.0.Err? then t else (Ok(c1.0.value + t.0.value), t.1);
        var cab := Collect(w, ab, parse, fallback, fetch);
        assert cab == if c2.0.Err? then c2 else (Ok(c1.0.value + c2.0.value), c2.1);
        if t.0.Err? {
          assert cab == ca;
        } else if tb.0.Err? {
          assert cab == tb;
        } else {
          var x, y, z := c1.0.value, t.0.value, tb.0.value;
          assert c2 == (Ok(y + z), tb.1);
          assert ca == (Ok(x + y), t.1);
          AppendAssoc(x, y, z);
          assert cab == (Ok(x + (y + z)), tb.1);
        }
      }
    }
  }

  lemma AppendAssoc<T>(x: seq<T>, y: seq<T>, z: seq<T>)
    ensures x + (y + z) == (x + y) + z
  {
  }

  /** One step of `collect`: the first feed, then the rest from the watermarks it left. */
  lemma CollectStep(w: Watermarks, feeds: seq<RssFeed>, parse: string -> Result<seq<Item>>,
                    fallback: string -> Option<int>, fetch: string -> FetchOutcome)
    requires |feeds| > 0
    ensures var c1 := CollectFeed(w, feeds[0], parse(feeds[0].url), fallback, fetch);
      var c2 := Collect(c1.1, feeds[1..], parse, fallback, fetch);
      Collect(w, feeds, parse, fallback, fetch)
        == if c1.0.Err? then (Err(Wrap("failed to collect feed", c1.0.msg)), c1.1)
           else if c2.0.Err? then c2 else (Ok(c1.0.value + c2.0.value), c2.1)
  {
  }

  /**
   * Every article a successful poll returns is strictly newer than the
   * watermark some polled feed had before the poll, and its description is
   * within the length limit.
   */
  lemma {:induction false} CollectOnlyFresh(w: Watermarks, feeds: seq<RssFeed>, parse: string -> Result<seq<Item>>,
                                            fallback: string -> Option<int>, fetch: string -> FetchOutcome)
    ensures var r := Collect(w, feeds, parse, fallback, fetch).0;
      r.Ok? ==> forall a :: a in r.value ==>
        && Utf8Len(a.description) <= MaxDescriptionLength
        && exists i :: 0 <= i < |feeds| && a.published > LastPull(w, feeds[i].url)
    decreases |feeds|
  {
    if |feeds| > 0 {
      var (r1, w1) := CollectFeed(w, feeds[0], parse(feeds[0].url), fallback, fetch);
      if r1.Ok? {
        CollectOnlyFresh(w1, feeds[1..], parse, fallback, fetch);
        var r2 := Collect(w1, feeds[1..], parse, fallback, fetch).0;
        if r2.Ok? {
          forall a | a in r1.value + r2.value
            ensures exists i :: 0 <= i < |feeds| && a.published > LastPull(w, feeds[i].url)
          {
            if a in r1.value {
              assert a.published > LastPull(w, feeds[0].url);
            } else {
              var j :| 0 <= j < |feeds[1..]| && a.published > LastPull(w1, feeds[1..][j].url);
              assert feeds[j + 1] == feeds[1..][j];
              assert LastPull(w1, feeds[j + 1].url) >= LastPull(w, feeds[j + 1].url);
            }
          }
        }
      }
    }
  }

  /** When every feed parses, `collect` as written and the isolated version agree. */
  lemma {:induction false} CollectIsolatedAgreesWhenAllParse(w: Watermarks, feeds: seq<RssFeed>, parse: string -> Result<seq<Item>>,
                                                             fallback: string -> Option<int>, fetch: string -> FetchOutcome)
    requires !SomeFeedFails(feeds, parse)
    ensures Collect(w, feeds, parse, fallback, fetch) == CollectIsolated(w, feeds, parse, fallback, fetch)
    decreases |feeds|
  {
    if |feeds| > 0 {
      SomeFeedFailsSplit(feeds, parse);
      var (r1, w1) := CollectFeed(w, feeds[0], parse(feeds[0].url), fallback, fetch);
      CollectIsolatedAgreesWhenAllParse(w1, feeds[1..], parse, fallback, fetch);
    }
  }

  /**
   * `collect` keeping the promise of the comment at pkg/feed/feed.go:36 that
   * no article is missed: a failing feed is skipped and the others are still
   * delivered. A watermark only moves to the timestamp of an article that is
   * actually returned.
   */
  function CollectIsolated(w: Watermarks, feeds: seq<RssFeed>, parse: string -> Result<seq<Item>>,
                           fallback: string -> Option<int>, fetch: string -> FetchOutcome): (r: (Result<seq<Article>>, Watermarks))
    ensures r.0.Ok?
    ensures forall u :: LastPull(r.1, u) >= LastPull(w, u)
    ensures forall u :: LastPull(r.1, u) != LastPull(w, u) ==>
      exists a :: a in r.0.value && a.published == LastPull(r.1, u)
    decreases |feeds|
  {
    if |feeds| == 0 then (Ok([]), w)
    else
      var (r1, w1) := CollectFeed(w, feeds[0], parse(feeds[0].url), fallback, fetch);
      var kept := if r1.Ok? then r1.value else [];
      var (r2, w2) := CollectIsolated(w1, feeds[1..], parse, fallback, fetch);
      assert forall u :: LastPull(w2, u) != LastPull(w, u) ==>
        exists a :: a in kept + r2.value && a.published == LastPull(w2, u) by {
        forall u | LastPull(w2, u) != LastPull(w, u)
          ensures exists a :: a in kept + r2.value && a.published == LastPull(w2, u)
        {
          if LastPull(w2, u) != LastPull(w1, u) {
            var a :| a in r2.value && a.published == LastPull(w2, u);
            assert a in kept + r2.value;
          } else {
            assert u == feeds[0].url && r1.Ok? && |kept| > 0;
            assert kept[0] in kept + r2.value;
          }
        }
      }
      (Ok(kept + r2.value), w2)
  }

  /**
   * As written, one broken feed loses the articles of the feeds before it:
   * feed "ua" has a new article, feed "ub" fails, the poll returns an error,
   * yet "ua"'s watermark has moved past the article, so the next poll does not
   * return it either. With per-feed isolation the article is delivered.
   */
  lemma CollectLosesEarlierFeeds()
    ensures var item := Item("", "", "l", "", [], Some(10), "");
      var feeds := [RssFeed("a", "ua"), RssFeed("b", "ub")];
      var w := map["ua" := 0, "ub" := 0];
      var parse := (u: string) => if u == "ua" then Ok([item]) else Err("down");
      var fallback := (s: string) => None;
      var fetch := (l: string) => FetchFailed("offline");
      var (r, w') := Collect(w, feeds, parse, fallback, fetch);
      var (again, _) := CollectFeed(w', feeds[0], Ok([item]), fallback, fetch);
      var (fixed, _) := CollectIsolated(w, feeds, parse, fallback, fetch);
      && r.Err?
      && LastPull(w', "ua") == 10
      && again == Ok([])
      && |fixed.value| == 1 && fixed.value[0].link == "l"
  {
    var item := Item("", "", "l", "", [], Some(10), "");
    var fallback := (s: string) => None;
    var p0 := (it: Item) => IsFresh(it, 0, fallback);
    var p10 := (it: Item) => IsFresh(it, 10, fallback);
    assert Seqs.Filter([item], p0) == [item];
    assert Seqs.Filter([item], p10) == [];
    var feeds := [RssFeed("a", "ua"), RssFeed("b", "ub")];
    assert feeds[1..] == [RssFeed("b", "ub")];
    assert feeds[1..][1..] == [];
  }
}
