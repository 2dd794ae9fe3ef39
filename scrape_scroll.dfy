/**
 * The stand-alone scrolling script: it probes a fixed list of selectors,
 * scrolls towards a target count, and saves one item per matched element
 * (no truncation to the target).
 */
module ScrapeScroll {
  import opened Wrappers
  import opened Json
  import opened BaseEngine
  import opened Browser
  import opened Paging
  import opened Metrics
  import Threads

  /** Stop once this many posts are loaded. */
  const TARGET_POSTS: nat := 100
  /** The pause between scrolls, 0.75 s, in milliseconds. */
  const SCROLL_DELAY_MS: nat := 750
  /** The ceiling on scroll attempts. */
  const MAX_SCROLLS: nat := 500
  /** The one profile the script visits. */
  const PROFILE_URL: string := "https://www.threads.com/@yannlecun"

  /**
   * The script's candidates: the platform scraper's eight selectors, with
   * the pressable-container selector moved down to seventh place.
   */
  function SelectorsToTry(): (r: seq<string>)
    ensures |r| == 8 && r[0] == "article"
  {
    ["article", "[role=\"article\"]", "div[class*=\"post\"]", "div[class*=\"Post\"]",
     "div[class*=\"thread\"]", "div[class*=\"Thread\"]", "div[data-pressable-container=\"true\"]",
     "div[role=\"button\"]"]
  }

  /** Moving one element later in a sequence keeps its multiset. */
  lemma MoveLaterSameMultiset<T>(a: seq<T>, x: T, b: seq<T>, c: seq<T>)
    ensures multiset(a + b + [x] + c) == multiset(a + [x] + b + c)
  {
  }

  /** The two lists hold the same candidates in a different order. */
  lemma SameCandidatesOtherOrder()
    ensures multiset(SelectorsToTry()) == multiset(Threads.PostSelectors())
    ensures SelectorsToTry() != Threads.PostSelectors()
  {
    var s := Threads.PostSelectors();
    var r := SelectorsToTry();
    var a, x, b, c := s[..2], s[2], s[3..7], s[7..];
    assert r == a + b + [x] + c;
    assert s == a + [x] + b + c;
    MoveLaterSameMultiset(a, x, b, c);
    assert r[2] != s[2];
  }

  /**
   * `auto_scroll_with_count`: at most `maxScrolls` scrolls, ending after the
   * first one whose count reaches the target (checked unconditionally) or did
   * not grow; the result is the last count read.
   */
  method AutoScrollWithCount(counts: nat -> nat, targetPosts: int := TARGET_POSTS, maxScrolls: nat := MAX_SCROLLS)
    returns (finalCount: nat, scrolls: nat)
    requires maxScrolls >= 1
    ensures scrolls == ScrollLength(TargetRule(targetPosts), counts, maxScrolls)
    ensures finalCount == counts(scrolls - 1)
  {
    ghost var rule := TargetRule(targetPosts);
    var lastCount := 0;
    var current := 0;
    scrolls := 0;
    for i := 0 to maxScrolls
      invariant scrolls == i
      invariant lastCount == Prev(counts, i)
      invariant i > 0 ==> current == counts(i - 1)
      invariant forall j :: 0 <= j < i ==> !Stops(rule, counts, j)
    {
      current := counts(i);
      scrolls := scrolls + 1;
      if current >= targetPosts || current == lastCount {
        ScrollLengthUnique(rule, counts, maxScrolls, scrolls);
        return current, scrolls;
      }
      lastCount := current;
    }
    ScrollLengthUnique(rule, counts, maxScrolls, scrolls);
    finalCount := current;
  }

  /**
   * A target of 0 stops the script after its first scroll, while a post
   * limit of 0 in the engine counts as no limit and scrolling goes on while
   * the page grows.
   */
  lemma ZeroTargetIsNotNoLimit(counts: nat -> nat, clock: nat -> int, maxScrolls: nat)
    requires maxScrolls >= 3 && 0 < counts(0) < counts(1)
    ensures ScrollLength(TargetRule(0), counts, maxScrolls) == 1
    ensures ScrollLength(EngineRule(Some(0), None, 0, clock), counts, maxScrolls) >= 2
  {
    assert Stops(TargetRule(0), counts, 0);
    var rule := EngineRule(Some(0), None, 0, clock);
    assert !Stops(rule, counts, 0);
  }

  /** The selector probe over `selectors_to_try`: the first candidate with a positive count, skipping those whose evaluation raises. */
  method ProbeSelector(probe: string -> Option<nat>, selectors: seq<string>) returns (found: Option<string>)
    ensures found == FirstMatching(selectors, probe)
  {
    found := None;
    var i := 0;
    while i < |selectors|
      invariant 0 <= i <= |selectors| && found.None?
      invariant forall j :: 0 <= j < i ==> !Matches(probe, selectors[j])
    {
      var count := probe(selectors[i]);
      if count.Some? && count.value > 0 {
        FirstMatchingIsFirst(selectors, probe, i);
        found := Some(selectors[i]);
        break;
      }
      i := i + 1;
    }
  }

  /** The metric pass: one item per raw element, in order. */
  method ExtractItems(raws: seq<RawElement>) returns (items: seq<Item>)
    ensures |items| == |raws|
    ensures forall k :: 0 <= k < |raws| ==> items[k] == ThreadsItem(raws[k])
  {
    items := [];
    for i := 0 to |raws|
      invariant ItemsPrefix(items, raws, i)
    {
      var item := BuildItem(raws[i]);
      ItemsPrefixStep(items, raws, i, item);
      items := items + [item];
    }
  }

  /** The dictionary the script writes to its output file. */
  datatype Output = Output(
    scrapedAt: int, url: string, totalItems: nat, targetPosts: nat, selectorUsed: string, items: seq<Item>)

  /** How the script ends: normally, through `exit(code)`, or with an uncaught exception. */
  datatype Ending = Finished | Exited(code: int) | Crashed(error: string)

  /**
   * What the script saves: nothing when navigation fails, no selector matches
   * or a page call fails after that; else every matched element.
   */
  function SavedOutput(page: Page, now: int): (r: Option<Output>)
    ensures r.None? <==> page.navError.Some? || FirstMatching(SelectorsToTry(), page.probe).None? || page.laterError.Some?
    ensures r.Some? ==>
              var sel := FirstMatching(SelectorsToTry(), page.probe).value;
              r.value.selectorUsed == sel && r.value.items == ItemsOf(page.elements(sel))
              && r.value.totalItems == |page.elements(sel)| && r.value.targetPosts == TARGET_POSTS
              && r.value.url == PROFILE_URL && r.value.scrapedAt == now
  {
    if page.navError.Some? then None
    else
      var sel := FirstMatching(SelectorsToTry(), page.probe);
      if sel.None? || page.laterError.Some? then None
      else
        var items := ItemsOf(page.elements(sel.value));
        Some(Output(now, PROFILE_URL, |items|, TARGET_POSTS, sel.value, items))
  }

  /**
   * The script body on the page it opened. A navigation error, or a page
   * call failing once a selector is adopted, ends it before `browser.close()`;
   * otherwise the browser is closed once, before `exit(1)` when no selector
   * matched or after the file is saved, and an exception from that close ends
   * the script there.
   */
  method Run(page: Page, now: int, browser: BrowserContext) returns (saved: Option<Output>, ending: Ending)
    modifies browser
    ensures saved == SavedOutput(page, now)
    ensures page.navError.Some? ==> ending == Crashed(page.navError.value) && browser.closeCalls == old(browser.closeCalls)
    ensures page.navError.None? && FirstMatching(SelectorsToTry(), page.probe).Some? && page.laterError.Some? ==>
              ending == Crashed(page.laterError.value) && browser.closeCalls == old(browser.closeCalls)
    ensures var closing := page.navError.None? && (FirstMatching(SelectorsToTry(), page.probe).None? || page.laterError.None?);
            closing ==>
              browser.closeCalls == old(browser.closeCalls) + 1
              && (browser.closeFailure.Some? ==> ending == Crashed(browser.closeFailure.value))
              && (browser.closeFailure.None? ==> ending == (if saved.None? then Exited(1) else Finished))
  {
    if page.navError.Some? {
      return None, Crashed(page.navError.value);
    }
    var found := ProbeSelector(page.probe, SelectorsToTry());
    if found.None? {
      var ok := browser.Close();
      return None, if ok then Exited(1) else Crashed(browser.closeFailure.value);
    }
    if page.laterError.Some? {
      return None, Crashed(page.laterError.value);
    }
    var finalCount, scrolls := AutoScrollWithCount(page.counts, TARGET_POSTS, MAX_SCROLLS);
    var items := ExtractItems(page.elements(found.value));
    assert items == ItemsOf(page.elements(found.value));
    saved := Some(Output(now, PROFILE_URL, |items|, TARGET_POSTS, found.value, items));
    var ok := browser.Close();
    ending := if ok then Finished else Crashed(browser.closeFailure.value);
  }
}
