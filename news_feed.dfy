/**
 * The sidebar news feed (`NewsFeed` in `frontend/src/components/NewsFeed.tsx`): the headlines
 * fetched from `/news/top`, shown four at a time from a start index that advances by four every
 * minute. The minute timer and the network are events: `Rotate` is one tick of the interval,
 * `FetchSettled` the end of a fetch with what the response carried.
 */
module NewsFeed {
  import opened Wrappers
  import News

  const WindowSize: nat := 4

  /**
   * How a fetch ended: the response's `news` field when it is truthy (any array is, the empty
   * one included), `None` when it is missing or falsy; `Failed` when the request or the JSON
   * decoding raised.
   */
  datatype Reply = Answered(news: Option<seq<News.NewsItem>>) | Failed

  /**
   * The first `k` entries of the window: the loop of the component body pushes
   * `news[(startIndex + i) % news.length]` for each `i` below four, when there is any news.
   */
  function WindowUpTo(news: seq<News.NewsItem>, start: nat, k: nat): seq<News.NewsItem> {
    if k == 0 || news == [] then []
    else WindowUpTo(news, start, k - 1) + [news[(start + k - 1) % |news|]]
  }

  /** `visibleNews`. */
  function Window(news: seq<News.NewsItem>, start: nat): seq<News.NewsItem> {
    WindowUpTo(news, start, WindowSize)
  }

  lemma {:induction false} WindowUpToEntries(news: seq<News.NewsItem>, start: nat, k: nat)
    ensures |WindowUpTo(news, start, k)| == if news == [] then 0 else k
    ensures news != [] ==> forall i | 0 <= i < k :: WindowUpTo(news, start, k)[i] == news[(start + i) % |news|]
  {
    if k > 0 && news != [] {
      WindowUpToEntries(news, start, k - 1);
    }
  }

  /**
   * Four entries when there is any news and none otherwise; entry `i` is the item `i` places
   * after the start index, wrapping around, so every entry is an item of the list whatever
   * the start index, and a list shorter than four repeats its items.
   */
  lemma WindowEntries(news: seq<News.NewsItem>, start: nat)
    ensures |Window(news, start)| == if news == [] then 0 else WindowSize
    ensures news != [] ==> forall i | 0 <= i < WindowSize :: Window(news, start)[i] == news[(start + i) % |news|]
    ensures forall i | 0 <= i < |Window(news, start)| :: Window(news, start)[i] in news
  {
    WindowUpToEntries(news, start, WindowSize);
  }

  /** With enough items after the start index, the window is the next four items in order. */
  lemma WindowIsSlice(news: seq<News.NewsItem>, start: nat)
    requires start + WindowSize <= |news|
    ensures Window(news, start) == news[start..start + WindowSize]
  {
    SliceUpTo(news, start, WindowSize);
  }

  lemma {:induction false} SliceUpTo(news: seq<News.NewsItem>, start: nat, k: nat)
    requires start + k <= |news|
    ensures WindowUpTo(news, start, k) == news[start..start + k]
  {
    if k > 0 {
      SliceUpTo(news, start, k - 1);
      ModBelow(start + k - 1, |news|);
      assert news[start..start + k] == news[start..start + k - 1] + [news[start + k - 1]];
    }
  }

  lemma ModBelow(x: nat, m: nat)
    requires x < m
    ensures x % m == x
  {
  }

  /** One headline fills the whole window. */
  lemma SingleItemRepeats(item: News.NewsItem)
    ensures Window([item], 0) == [item, item, item, item]
  {
    WindowEntries([item], 0);
  }

  /** One tick of the rotation timer, set up only while there is news. */
  function Rotated(news: seq<News.NewsItem>, start: nat): (r: nat)
    ensures news != [] ==> r < |news|
  {
    if news == [] then start else (start + WindowSize) % |news|
  }

  /** The list after a fetch settles: replaced only when the response carried `news`. */
  function Settled(news: seq<News.NewsItem>, reply: Reply): seq<News.NewsItem> {
    if reply.Answered? && reply.news.Some? then reply.news.value else news
  }

  /** The component renders nothing when there is no news and no fetch is pending. */
  predicate Renders(news: seq<News.NewsItem>, loading: bool) {
    !(|news| == 0 && !loading)
  }

  /** The feed's state. */
  class Feed {
    var news: seq<News.NewsItem>
    var startIndex: nat
    var loading: bool

    constructor ()
      ensures news == [] && startIndex == 0 && !loading
    {
      news := [];
      startIndex := 0;
      loading := false;
    }

    /** `fetchNews` up to its request: the refresh button is disabled while it is pending. */
    method StartFetch()
      modifies this
      ensures loading && news == old(news) && startIndex == old(startIndex)
    {
      loading := true;
    }

    /**
     * `fetchNews` after its request: the list is replaced only when the response carried
     * `news`; the start index is kept, and loading ends whatever happened.
     */
    method FetchSettled(reply: Reply)
      modifies this
      ensures news == Settled(old(news), reply)
      ensures startIndex == old(startIndex) && !loading
    {
      if reply.Answered? && reply.news.Some? {
        news := reply.news.value;
      }
      loading := false;
    }

    /** One tick of the minute interval, which runs only while there is news. */
    method Rotate()
      modifies this
      ensures startIndex == Rotated(old(news), old(startIndex))
      ensures news == old(news) && loading == old(loading)
    {
      if |news| == 0 {
        return;
      }
      startIndex := (startIndex + 4) % |news|;
    }

    /** The loop of the component body that picks the four visible items. */
    method VisibleNews() returns (visibleNews: seq<News.NewsItem>)
      ensures visibleNews == Window(news, startIndex)
    {
      visibleNews := [];
      for i := 0 to 4
        invariant visibleNews == WindowUpTo(news, startIndex, i)
      {
        if |news| > 0 {
          visibleNews := visibleNews + [news[(startIndex + i) % |news|]];
        }
      }
    }

  }

  /**
   * A response holding an empty array is truthy, so it empties the list and the feed then
   * renders nothing; a failed fetch or a response without `news` keeps the old headlines,
   * which are still shown.
   */
  lemma EmptyArrayHides(news: seq<News.NewsItem>, reply: Reply)
    ensures !Renders(Settled(news, Answered(Some([]))), false)
    ensures reply == Failed || reply == Answered(None) ==> Settled(news, reply) == news
    ensures news != [] && (reply == Failed || reply == Answered(None)) ==> Renders(Settled(news, reply), false)
  {
  }
}
