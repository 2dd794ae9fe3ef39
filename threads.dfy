/**
 * The Threads platform scraper: its selector candidates, the per-element
 * metric pass, and `scrape`, which navigates, scrolls, extracts, truncates
 * to the post limit and closes the browser context on every path.
 */
module Threads {
  import opened Wrappers
  import opened Json
  import opened BaseEngine
  import opened Browser
  import opened Paging
  import opened Metrics
  import opened PlatformScraper
  import Playwright

  const PLATFORM: string := "threads"

  /** The ceiling `scrape` passes to the scroll loop. */
  const SCRAPE_MAX_SCROLLS: nat := 500

  /** The candidate post selectors, in the order they are tried. */
  function PostSelectors(): (r: seq<string>)
    ensures |r| == 8 && r[0] == "article"
    ensures forall i, j :: 0 <= i < j < |r| ==> r[i] != r[j]
  {
    ["article", "[role=\"article\"]", "div[data-pressable-container=\"true\"]", "div[class*=\"post\"]",
     "div[class*=\"Post\"]", "div[class*=\"thread\"]", "div[class*=\"Thread\"]", "div[role=\"button\"]"]
  }

  /** A page on which plain `article` elements match always adopts that selector. */
  lemma ArticleWins(probe: string -> Option<nat>)
    requires Matches(probe, "article")
    ensures FirstMatching(PostSelectors(), probe) == Some("article")
  {
    FirstMatchingIsFirst(PostSelectors(), probe, 0);
  }

  /**
   * What `scrape` returns or raises before its final `close()`: navigation
   * errors propagate, a page without a matching selector gives the
   * `No posts found` dictionary, a page call failing after that propagates,
   * and otherwise one item per matched element, in order, cut to the post
   * limit.
   */
  function ScrapeOutcome(url: string, userId: string, postLimit: Option<int>, timeLimit: Option<int>,
                         now: int, page: Page): (r: Result<ScrapeResult, string>)
    ensures page.navError.Some? ==> r == Failure(page.navError.value)
    ensures page.navError.None? && FirstMatching(PostSelectors(), page.probe).None? ==>
              r == Success(NoPostsFound(now, url, PLATFORM, userId))
    ensures page.navError.None? && FirstMatching(PostSelectors(), page.probe).Some? && page.laterError.Some? ==>
              r == Failure(page.laterError.value)
    ensures page.navError.None? && FirstMatching(PostSelectors(), page.probe).Some? && page.laterError.None? ==>
              var sel := FirstMatching(PostSelectors(), page.probe).value;
              var els := page.elements(sel);
              r.Success? && r.value.Scraped? && r.value.selectorUsed == sel
              && r.value.url == url && r.value.platform == PLATFORM && r.value.userId == userId
              && r.value.totalItems == |r.value.items|
              && r.value.postLimit == postLimit && r.value.timeLimit == timeLimit
              && r.value.items == Truncate(ItemsOf(els), postLimit)
              && |r.value.items| <= |els|
              && (forall k :: 0 <= k < |r.value.items| ==> r.value.items[k] == ThreadsItem(els[k]))
              && (!IsSet(postLimit) ==> |r.value.items| == |els|)
              && (IsSet(postLimit) && postLimit.value > 0 ==> |r.value.items| <= postLimit.value)
  {
    if page.navError.Some? then Failure(page.navError.value)
    else
      var sel := FirstMatching(PostSelectors(), page.probe);
      if sel.None? then Success(NoPostsFound(now, url, PLATFORM, userId))
      else if page.laterError.Some? then Failure(page.laterError.value)
      else
        var items := Truncate(ItemsOf(page.elements(sel.value)), postLimit);
        Success(Scraped(now, url, PLATFORM, userId, |items|, postLimit, timeLimit, sel.value, items))
  }

  /** How often `scrape` closes the context: twice when no selector matched, once on every other path. */
  function CloseCount(page: Page): (n: nat)
    ensures n == 2 <==> page.navError.None? && FirstMatching(PostSelectors(), page.probe).None?
    ensures n == 1 || n == 2
  {
    if page.navError.None? && FirstMatching(PostSelectors(), page.probe).None? then 2 else 1
  }

  class ThreadsScraper {
    const scraper: BasePlatformScraper

    constructor (url: string, userId: string, postLimit: Option<int> := None, timeLimit: Option<int> := None,
                 scrollDelayMs: nat := DEFAULT_SCROLL_DELAY_MS, headless: bool := false)
      ensures fresh(scraper)
      ensures scraper.url == url && scraper.userId == userId
      ensures scraper.postLimit == postLimit && scraper.timeLimit == timeLimit
      ensures scraper.scrollDelayMs == scrollDelayMs && scraper.headless == headless
      ensures scraper.startTime.None?
    {
      scraper := new BasePlatformScraper(url, userId, postLimit, timeLimit, scrollDelayMs, headless);
    }

    function GetPlatformName(): string { PLATFORM }

    /** `extract_post_data`, second pass: one item per raw element, in order. */
    method ExtractPostData(raws: seq<RawElement>) returns (items: seq<Item>)
      ensures |items| == |raws|
      ensures forall k :: 0 <= k < |raws| ==> items[k] == ThreadsItem(raws[k])
    {
      items := [];
      for i := 0 to |raws|
        invariant ItemsPrefix(items, raws, i)
      {
        var item := BuildItem(raws[i]);
        ItemsPrefixStep(items, raws, i, item);
        items := items + [item];
      }
    }

    /** Extraction followed by `items[:post_limit]` when a truthy limit is exceeded. */
    method LimitedItems(raws: seq<RawElement>) returns (items: seq<Item>)
      ensures items == Truncate(ItemsOf(raws), scraper.postLimit)
    {
      items := ExtractPostData(raws);
      assert items == ItemsOf(raws);
      if scraper.postLimit.Some? && scraper.postLimit.value != 0 && |items| > scraper.postLimit.value {
        items := items[..SliceEnd(scraper.postLimit.value, |items|)];
      }
    }

    /**
     * `scrape`: starts the clock at `start`, works on the loaded context and
     * its page, and closes the context on every path; an exception from a
     * close replaces the outcome. `now` is the time written into the result.
     */
    method Scrape(start: int, now: int, ctx: BrowserContext, page: Page) returns (r: Result<ScrapeResult, string>)
      modifies scraper, ctx
      ensures scraper.startTime == Some(start)
      ensures r == Playwright.AfterClose(ScrapeOutcome(scraper.url, scraper.userId, scraper.postLimit,
                                                       scraper.timeLimit, now, page), ctx.closeFailure)
      ensures ctx.closeCalls == old(ctx.closeCalls) + CloseCount(page)
      ensures ctx.closed == (old(ctx.closed) || ctx.closeFailure.None?)
    {
      scraper.Start(start);
      var outcome: Result<ScrapeResult, string>;
      if page.navError.Some? {
        outcome := Failure(page.navError.value);
      } else {
        var selector := scraper.FindPostSelector(page.probe, PostSelectors());
        if selector.None? {
          var ok := ctx.Close();
          outcome := if ok then Success(NoPostsFound(now, scraper.url, PLATFORM, scraper.userId))
                     else Failure(ctx.closeFailure.value);
        } else if page.laterError.Some? {
          outcome := Failure(page.laterError.value);
        } else {
          var finalCount, scrolls := scraper.ScrollAndLoad(page.counts, page.clock, SCRAPE_MAX_SCROLLS);
          var items := LimitedItems(page.elements(selector.value));
          outcome := Success(Scraped(now, scraper.url, PLATFORM, scraper.userId, |items|, scraper.postLimit,
                                     scraper.timeLimit, selector.value, items));
        }
      }
      var closedOk := ctx.Close();
      r := if closedOk then outcome else Failure(ctx.closeFailure.value);
    }
  }
}
