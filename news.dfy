/**
 * The news feed's backend (`NewsManager` in `backend/core/news.py`): Google News RSS items,
 * cached per query for 15 minutes. The HTTP request and the XML parsing are modelled by their
 * outcome, passed in as a `Fetch`; the clock is the parameter `now`, in seconds.
 */
module News {
  import opened Wrappers
  import opened Text

  const TopNews: string := "TOP_NEWS"
  const CacheSeconds: int := 15 * 60
  const MaxItems: nat := 10
  const Separator: string := " - "

  /**
   * One `<item>` as parsed: each child element is missing (`None`), present without text
   * (`Some(None)`), or present with its text.
   */
  datatype RawItem = RawItem(title: Option<Option<string>>, link: Option<Option<string>>,
                             pubDate: Option<Option<string>>, source: Option<Option<string>>)

  /** What the request and the parse gave: the items in document order, or an exception. */
  datatype Fetch = Fetched(items: seq<RawItem>) | Failed

  /** An item as returned; a field present without text is JSON null. */
  datatype NewsItem = NewsItem(title: string, link: Option<string>, pubDate: Option<string>, source: Option<string>)

  datatype Entry = Entry(items: seq<NewsItem>, timestamp: int)

  /** The cache key: the query when it is truthy, else the top-news key. */
  function CacheKey(query: Option<string>): (r: string)
    ensures query.Some? && query.value != [] ==> r == query.value
    ensures query.None? || query.value == [] ==> r == TopNews
  {
    if query.Some? && query.value != [] then query.value else TopNews
  }

  /**
   * A title with " - " loses the last " - " and everything after it (Google News appends the
   * source that way); any other title is kept.
   */
  function CleanTitle(title: string): (r: string)
    ensures r <= title
    ensures r == title <==> !Contains(title, Separator)
    ensures r != title ==>
      OccursAt(title, Separator, |r|) && forall k | |r| < k <= |title| :: !OccursAt(title, Separator, k)
  {
    match LastIndexUpTo(title, Separator, |title|)
    case Some(i) => title[..i]
    case None => title
  }

  /** The child text, or the default when the child is missing. */
  function FieldOr(field: Option<Option<string>>, default: string): Option<string> {
    match field
    case Some(text) => text
    case None => Some(default)
  }

  /**
   * One item: missing children become "No Title", "#", "" and "Unknown". A title element
   * without text cannot be searched for " - ", which raises (`None`).
   */
  function ItemOf(raw: RawItem): (r: Option<NewsItem>)
    ensures r.None? <==> raw.title == Some(None)
    ensures r.Some? ==>
      r.value.title == CleanTitle(FieldOr(raw.title, "No Title").value) &&
      r.value.link == FieldOr(raw.link, "#") && r.value.pubDate == FieldOr(raw.pubDate, "") &&
      r.value.source == FieldOr(raw.source, "Unknown")
  {
    match FieldOr(raw.title, "No Title")
    case None => None
    case Some(title) =>
      Some(NewsItem(CleanTitle(title), FieldOr(raw.link, "#"), FieldOr(raw.pubDate, ""), FieldOr(raw.source, "Unknown")))
  }

  /** The items in order, or `None` when one of them raises. */
  function ItemsOf(raws: seq<RawItem>): (r: Option<seq<NewsItem>>)
    ensures r.Some? ==> |r.value| == |raws|
  {
    if raws == [] then Some([])
    else
      var init := ItemsOf(raws[..|raws| - 1]);
      var last := ItemOf(raws[|raws| - 1]);
      if init.None? || last.None? then None else Some(init.value + [last.value])
  }

  /** The items come out one for one and in order, unless one of them raises. */
  lemma {:induction false} ItemsOfEach(raws: seq<RawItem>)
    ensures ItemsOf(raws).Some? <==> forall i | 0 <= i < |raws| :: ItemOf(raws[i]).Some?
    ensures ItemsOf(raws).Some? ==> forall i | 0 <= i < |raws| :: ItemsOf(raws).value[i] == ItemOf(raws[i]).value
  {
    if raws != [] {
      var init := raws[..|raws| - 1];
      ItemsOfEach(init);
      assert forall i | 0 <= i < |init| :: init[i] == raws[i];
    }
  }

  function Take(raws: seq<RawItem>): (r: seq<RawItem>)
    ensures |r| <= MaxItems && r <= raws
    ensures |raws| <= MaxItems ==> r == raws
  {
    if |raws| <= MaxItems then raws else raws[..MaxItems]
  }

  /** A fetch that yields items: it succeeded and none of its first ten items raised. */
  function Parsed(fetch: Fetch): Option<seq<NewsItem>> {
    if fetch.Failed? then None else ItemsOf(Take(fetch.items))
  }

  predicate FreshHit(cache: map<string, Entry>, key: string, forceRefresh: bool, now: int) {
    !forceRefresh && key in cache && now - cache[key].timestamp < CacheSeconds
  }

  /**
   * `get_news`: the items it returns and the new cache. A fresh cache entry is served unless a
   * refresh is forced; otherwise a successful fetch is stored with the current time and
   * returned; a failed one serves the cached items however old, else nothing.
   */
  function GetNewsResult(cache: map<string, Entry>, query: Option<string>, forceRefresh: bool, now: int, fetch: Fetch)
    : (r: (seq<NewsItem>, map<string, Entry>))
    ensures var key := CacheKey(query);
      if FreshHit(cache, key, forceRefresh, now) then r == (cache[key].items, cache)
      else if Parsed(fetch).Some? then r == (Parsed(fetch).value, cache[key := Entry(Parsed(fetch).value, now)])
      else r == (if key in cache then cache[key].items else [], cache)
  {
    var key := CacheKey(query);
    if FreshHit(cache, key, forceRefresh, now) then (cache[key].items, cache)
    else match Parsed(fetch)
      case Some(items) => (items, cache[key := Entry(items, now)])
      case None => (if key in cache then cache[key].items else [], cache)
  }

  /** The item loop of `get_news`: each item with its defaults and cleaned title, in order. */
  method ParseItems(raws: seq<RawItem>) returns (r: Option<seq<NewsItem>>)
    ensures r == ItemsOf(raws)
  {
    var items := [];
    for i := 0 to |raws|
      invariant ItemsOf(raws[..i]) == Some(items)
    {
      assert raws[..i + 1][..i] == raws[..i];
      var item := raws[i];
      var title := if item.title.Some? then item.title.value else Some("No Title");
      var link := if item.link.Some? then item.link.value else Some("#");
      var pubDate := if item.pubDate.Some? then item.pubDate.value else Some("");
      var source := if item.source.Some? then item.source.value else Some("Unknown");
      if title.None? {
        assert ItemOf(raws[i]).None?;
        ItemsOfEach(raws);
        return None;
      }
      var cleaned := title.value;
      if Contains(cleaned, Separator) {
        cleaned := CleanTitle(cleaned);
      }
      items := items + [NewsItem(cleaned, link, pubDate, source)];
    }
    assert raws[..|raws|] == raws;
    return Some(items);
  }

  /** The news manager: its cache by query. */
  class NewsManager {
    var cache: map<string, Entry>

    constructor()
      ensures cache == map[]
    {
      cache := map[];
    }

    method GetNews(query: Option<string>, forceRefresh: bool, now: int, fetch: Fetch) returns (items: seq<NewsItem>)
      modifies this
      ensures (items, cache) == GetNewsResult(old(cache), query, forceRefresh, now, fetch)
    {
      var cacheKey := if query.Some? && query.value != [] then query.value else TopNews;
      if !forceRefresh && cacheKey in cache {
        var cachedData := cache[cacheKey];
        if now - cachedData.timestamp < CacheSeconds {
          return cachedData.items;
        }
      }
      if fetch.Failed? {
        if cacheKey in cache {
          return cache[cacheKey].items;
        }
        return [];
      }
      var parsed := ParseItems(Take(fetch.items));
      if parsed.None? {
        if cacheKey in cache {
          return cache[cacheKey].items;
        }
        return [];
      }
      items := parsed.value;
      cache := cache[cacheKey := Entry(items, now)];
    }

    /** `get_top_news` is `get_news` without a query. */
    method GetTopNews(forceRefresh: bool, now: int, fetch: Fetch) returns (items: seq<NewsItem>)
      modifies this
      ensures (items, cache) == GetNewsResult(old(cache), None, forceRefresh, now, fetch)
    {
      items := GetNews(None, forceRefresh, now, fetch);
    }
  }

  // ---------------------------------------------------------------------------------------
  // Properties of the cache policy
  // ---------------------------------------------------------------------------------------

  /** No query and the empty query share the top-news entry. */
  lemma TopNewsShared(cache: map<string, Entry>, forceRefresh: bool, now: int, fetch: Fetch)
    ensures GetNewsResult(cache, None, forceRefresh, now, fetch) == GetNewsResult(cache, Some(""), forceRefresh, now, fetch)
  {
  }

  /** A fresh entry is served whatever the network would have said: no fetch happens. */
  lemma FreshEntryServed(cache: map<string, Entry>, query: Option<string>, now: int, fetch: Fetch, other: Fetch)
    requires FreshHit(cache, CacheKey(query), false, now)
    ensures GetNewsResult(cache, query, false, now, fetch) == GetNewsResult(cache, query, false, now, other)
    ensures GetNewsResult(cache, query, false, now, fetch).0 == cache[CacheKey(query)].items
  {
  }

  /**
   * After a successful fetch, asking again within 15 minutes without forcing a refresh gives
   * the same items, even when the network is down.
   */
  lemma RefreshThenHit(cache: map<string, Entry>, query: Option<string>, forceRefresh: bool, now: int, fetch: Fetch,
                       later: int, fetch': Fetch)
    requires !FreshHit(cache, CacheKey(query), forceRefresh, now) && Parsed(fetch).Some?
    requires now <= later < now + CacheSeconds
    ensures var first := GetNewsResult(cache, query, forceRefresh, now, fetch);
      GetNewsResult(first.1, query, false, later, fetch') == (first.0, first.1)
  {
  }

  /** A failed fetch serves the cached items even when they are stale, and keeps the cache. */
  lemma FailureServesStale(cache: map<string, Entry>, query: Option<string>, forceRefresh: bool, now: int)
    requires CacheKey(query) in cache
    ensures GetNewsResult(cache, query, forceRefresh, now, Failed) == (cache[CacheKey(query)].items, cache)
  {
  }

  /** Every answer holds at most ten items, each with a cleaned title. */
  lemma AtMostTen(cache: map<string, Entry>, query: Option<string>, forceRefresh: bool, now: int, fetch: Fetch)
    requires forall k | k in cache :: |cache[k].items| <= MaxItems
    ensures var r := GetNewsResult(cache, query, forceRefresh, now, fetch);
      |r.0| <= MaxItems && forall k | k in r.1 :: |r.1[k].items| <= MaxItems
  {
  }

  /** A title with several separators loses only the last one and what follows. */
  lemma CleanTitleExample()
    ensures CleanTitle("Big - Small - Source") == "Big - Small"
  {
    var t := "Big - Small - Source";
    assert OccursAt(t, Separator, 11);
    assert forall k | 11 < k <= |t| :: !OccursAt(t, Separator, k) by {
      forall k | 11 < k <= |t| ensures !OccursAt(t, Separator, k) {
        if k + 3 <= |t| {
          assert t[k..k + 3][1] == t[k + 1];
        }
      }
    }
    assert t[..11] == "Big - Small";
  }
}
