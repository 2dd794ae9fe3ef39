/**
 * The stand-alone scraper base class: the limit predicate, selector
 * discovery and the scroll loop that every platform scraper inherits.
 */
module PlatformScraper {
  import opened Wrappers
  import opened Paging

  /** The default pause between scrolls, 0.75 s, in milliseconds. */
  const DEFAULT_SCROLL_DELAY_MS: nat := 750

  /** The default ceiling on scroll iterations. */
  const DEFAULT_MAX_SCROLLS: nat := 500

  class BasePlatformScraper {
    const url: string
    const userId: string
    const postLimit: Option<int>
    const timeLimit: Option<int>
    const scrollDelayMs: nat
    const headless: bool
    /** Set by a platform's `scrape` when it begins; unset until then. */
    var startTime: Option<int>

    /** A scraper that has not started yet: no start time, and the given limits. */
    constructor (url: string, userId: string, postLimit: Option<int> := None, timeLimit: Option<int> := None,
                 scrollDelayMs: nat := DEFAULT_SCROLL_DELAY_MS, headless: bool := false)
      ensures this.url == url && this.userId == userId
      ensures this.postLimit == postLimit && this.timeLimit == timeLimit
      ensures this.scrollDelayMs == scrollDelayMs && this.headless == headless
      ensures startTime.None?
    {
      this.url := url;
      this.userId := userId;
      this.postLimit := postLimit;
      this.timeLimit := timeLimit;
      this.scrollDelayMs := scrollDelayMs;
      this.headless := headless;
      startTime := None;
    }

    /**
     * `should_continue_scraping` at wall-clock time `now`: false exactly when
     * the shared base-scraper limit rule says a limit is reached; the time
     * limit counts only once a start time is set.
     */
    function ShouldContinueScraping(count: int, now: int): (r: bool)
      reads this
      ensures r == !LimitReached(BaseRule(postLimit, timeLimit, startTime, _ => now), count, 0)
      ensures PostLimitHit(postLimit, count) ==> !r
      ensures !IsSet(startTime) || !IsSet(timeLimit) ==> (r <==> !PostLimitHit(postLimit, count))
    {
      if postLimit.Some? && postLimit.value != 0 && count >= postLimit.value then false
      else if timeLimit.Some? && timeLimit.value != 0 && startTime.Some? && startTime.value != 0 then
        var elapsed := now - startTime.value;
        elapsed < timeLimit.value
      else true
    }

    /**
     * `find_post_selector` over the platform's candidate list: the first
     * selector with a positive count, skipping those whose evaluation raises.
     */
    method FindPostSelector(probe: string -> Option<nat>, selectors: seq<string>) returns (r: Option<string>)
      ensures r == FirstMatching(selectors, probe)
    {
      for i := 0 to |selectors|
        invariant forall j :: 0 <= j < i ==> !Matches(probe, selectors[j])
      {
        var count := probe(selectors[i]);
        if count.Some? && count.value > 0 {
          FirstMatchingIsFirst(selectors, probe, i);
          return Some(selectors[i]);
        }
      }
      return None;
    }

    /**
     * `scroll_and_load`: at most `maxScrolls` scrolls, ending after the first
     * one at which `should_continue_scraping` fails or the count did not
     * grow; the result is the last count read. `clock(i)` is the time at
     * which the count after scroll `i` is checked against the limits.
     */
    method ScrollAndLoad(counts: nat -> nat, clock: nat -> int, maxScrolls: nat) returns (finalCount: nat, scrolls: nat)
      requires maxScrolls >= 1
      ensures scrolls == ScrollLength(BaseRule(postLimit, timeLimit, startTime, clock), counts, maxScrolls)
      ensures finalCount == counts(scrolls - 1)
    {
      ghost var rule := BaseRule(postLimit, timeLimit, startTime, clock);
      var lastCount := 0;
      var current := 0;
      scrolls := 0;
      for i := 0 to maxScrolls
        invariant scrolls == i
        invariant lastCount == Prev(counts, i)
        invariant i > 0 ==> current == counts(i - 1)
        invariant forall j :: 0 <= j < i ==> !Stops(rule, counts, j)
      {
        current := counts(i);
        scrolls := scrolls + 1;
        var goOn := ShouldContinueScraping(current, clock(i));
        assert goOn == !LimitReached(rule, current, i);
        if !goOn || current == lastCount {
          ScrollLengthUnique(rule, counts, maxScrolls, scrolls);
          return current, scrolls;
        }
        lastCount := current;
      }
      ScrollLengthUnique(rule, counts, maxScrolls, scrolls);
      finalCount := current;
    }

    /** What a platform's `scrape` does first: record its start time. */
    method Start(now: int)
      modifies this
      ensures startTime == Some(now)
    {
      startTime := Some(now);
    }
  }
}
