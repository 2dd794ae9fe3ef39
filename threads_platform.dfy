/**
 * The Threads platform definition used by the automation engine: the
 * candidate selectors and the extraction pass, with no browser handling.
 */
module ThreadsPlatform {
  import opened Wrappers
  import opened Json
  import opened BaseEngine
  import opened Browser
  import opened Paging
  import opened Metrics
  import Threads

  function GetPlatformName(): string { "threads" }

  /** The candidates, tried in order from `article`; the same list the stand-alone scraper tries. */
  function GetSelectors(): (r: seq<string>)
    ensures |r| == 8 && r[0] == "article"
    ensures r == Threads.PostSelectors()
  {
    ["article", "[role=\"article\"]", "div[data-pressable-container=\"true\"]", "div[class*=\"post\"]",
     "div[class*=\"Post\"]", "div[class*=\"thread\"]", "div[class*=\"Thread\"]", "div[role=\"button\"]"]
  }

  /**
   * `extract_data`, second pass: one item per raw element in order, text and
   * link copied and the metrics read off the element's number lines.
   */
  method ExtractData(raws: seq<RawElement>) returns (items: seq<Item>)
    ensures |items| == |raws|
    ensures forall k :: 0 <= k < |raws| ==> items[k] == ThreadsItem(raws[k])
  {
    items := [];
    for i := 0 to |raws|
      invariant ItemsPrefix(items, raws, i)
    {
      var item := BuildItem(raws[i]);
      ItemsPrefixStep(items, raws, i, item);
      items := items + [item];
    }
  }
}
