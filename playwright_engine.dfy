/**
 * The browser-automation engine: each scrape runs to completion inside
 * `initialize_scrape`, so the job it returns is already finished.
 */
module Playwright {
  import opened Wrappers
  import opened Json
  import opened BaseEngine
  import opened Browser
  import opened Paging

  /** The ceiling on scroll iterations. */
  const MAX_SCROLLS: nat := 500

  /** The `extract_fn` argument: absent, or a function of the adopted selector that returns items or raises. */
  datatype Extractor = NoExtractor | ExtractFn(run: string -> Result<seq<Item>, string>)

  /**
   * What `_execute_scrape` returns or raises before its `finally` runs:
   * navigation errors propagate, a page without a matching selector gives the
   * soft `NoPostsFound` result, a page call failing after that propagates,
   * and otherwise the extracted items, truncated to the post limit, become
   * the result.
   */
  function ScrapeOutcome(url: string, userId: string, platform: string, postLimit: Option<int>,
                         timeLimit: Option<int>, now: int, page: Page, selectors: seq<string>,
                         extractor: Extractor): (r: Result<ScrapeResult, string>)
    ensures page.navError.Some? ==> r == Failure(page.navError.value)
    ensures page.navError.None? && FirstMatching(selectors, page.probe).None? ==>
              r == Success(NoPostsFound(now, url, platform, userId))
    ensures page.navError.None? && FirstMatching(selectors, page.probe).Some? && page.laterError.Some? ==>
              r == Failure(page.laterError.value)
    ensures page.navError.None? && FirstMatching(selectors, page.probe).Some? && page.laterError.None?
            && extractor.ExtractFn?
            && extractor.run(FirstMatching(selectors, page.probe).value).Failure? ==>
              r == Failure(extractor.run(FirstMatching(selectors, page.probe).value).error)
    ensures r.Success? && r.value.Scraped? ==>
              var sel := FirstMatching(selectors, page.probe);
              var extracted := if extractor.NoExtractor? then [] else extractor.run(sel.value).value;
              sel.Some? && page.navError.None? && page.laterError.None?
              && (extractor.ExtractFn? ==> extractor.run(sel.value).Success?)
              && r.value == Scraped(now, url, platform, userId, |r.value.items|, postLimit, timeLimit, sel.value, r.value.items)
              && r.value.items == Truncate(extracted, postLimit)
              && (IsSet(postLimit) && postLimit.value > 0 ==> |r.value.items| <= postLimit.value)
    ensures page.navError.None? && FirstMatching(selectors, page.probe).Some? && page.laterError.None?
            && (extractor.NoExtractor? || extractor.run(FirstMatching(selectors, page.probe).value).Success?) ==>
              r.Success? && r.value.Scraped?
  {
    if page.navError.Some? then Failure(page.navError.value)
    else
      var sel := FirstMatching(selectors, page.probe);
      if sel.None? then Success(NoPostsFound(now, url, platform, userId))
      else if page.laterError.Some? then Failure(page.laterError.value)
      else
        var extracted := if extractor.NoExtractor? then Success([]) else extractor.run(sel.value);
        if extracted.Failure? then Failure(extracted.error)
        else
          var items := Truncate(extracted.value, postLimit);
          Success(Scraped(now, url, platform, userId, |items|, postLimit, timeLimit, sel.value, items))
  }

  /** The `finally: context.close()`: an exception from closing replaces whatever the body produced. */
  function AfterClose(outcome: Result<ScrapeResult, string>, closeFailure: Option<string>): (r: Result<ScrapeResult, string>)
    ensures closeFailure.None? ==> r == outcome
    ensures closeFailure.Some? ==> r == Failure(closeFailure.value)
    ensures r.Success? <==> outcome.Success? && closeFailure.None?
  {
    if closeFailure.Some? then Failure(closeFailure.value) else outcome
  }

  /** The job as `initialize_scrape` leaves it: completed with the result or failed with the error, never in flight. */
  function FinishedState(outcome: Result<ScrapeResult, string>, now: int): (st: JobState)
    ensures IsTerminal(st.status) && Coherent(st) && StatusStep(Running, st.status)
    ensures st.status == Completed <==> outcome.Success?
    ensures outcome.Success? ==> st.result == Some(outcome.value) && st.error.None?
    ensures outcome.Failure? ==> st.error == Some(outcome.error) && st.result.None?
  {
    match outcome
    case Success(res) => JobState(Completed, now, Some(res), None, None)
    case Failure(e) => JobState(Failed, now, None, Some(e), None)
  }

  /** A page without a matching selector still completes its job, with the soft-failure result. */
  lemma NoSelectorStillCompletes(url: string, userId: string, platform: string, postLimit: Option<int>,
                                 timeLimit: Option<int>, now: int, page: Page, selectors: seq<string>,
                                 extractor: Extractor)
    requires page.navError.None? && forall j :: 0 <= j < |selectors| ==> !Matches(page.probe, selectors[j])
    ensures var st := FinishedState(AfterClose(ScrapeOutcome(url, userId, platform, postLimit, timeLimit, now,
                                                             page, selectors, extractor), None), now);
            st.status == Completed && st.result == Some(NoPostsFound(now, url, platform, userId))
  {
  }

  class PlaywrightEngine {
    var jobs: map<string, ScrapeJob>

    constructor ()
      ensures jobs == map[]
    {
      jobs := map[];
    }

    /** Results come back at once; nothing is polled. */
    function IsAsync(): bool { false }

    /** `_find_selector`: the first selector whose count is positive, skipping those whose evaluation raises. */
    method FindSelector(probe: string -> Option<nat>, selectors: seq<string>) returns (r: Option<string>)
      ensures r == FirstMatching(selectors, probe)
    {
      var i := 0;
      while i < |selectors|
        invariant 0 <= i <= |selectors|
        invariant forall j :: 0 <= j < i ==> !Matches(probe, selectors[j])
      {
        var count := probe(selectors[i]);
        if count.Some? && count.value > 0 {
          FirstMatchingIsFirst(selectors, probe, i);
          return Some(selectors[i]);
        }
        i := i + 1;
      }
      return None;
    }

    /**
     * `_scroll_and_load`: scrolls until the post limit or the time limit is
     * reached or a scroll loads nothing new, at most `maxScrolls` times, and
     * returns the last count read.
     */
    method ScrollAndLoad(counts: nat -> nat, clock: nat -> int, start: int, postLimit: Option<int>,
                         timeLimit: Option<int>, maxScrolls: nat) returns (finalCount: nat, scrolls: nat)
      requires maxScrolls >= 1
      ensures scrolls == ScrollLength(EngineRule(postLimit, timeLimit, start, clock), counts, maxScrolls)
      ensures finalCount == counts(scrolls - 1)
    {
      ghost var rule := EngineRule(postLimit, timeLimit, start, clock);
      var lastCount := 0;
      var current := 0;
      scrolls := 0;
      var i := 0;
      while i < maxScrolls
        invariant 0 <= i <= maxScrolls && scrolls == i
        invariant lastCount == Prev(counts, i)
        invariant i > 0 ==> current == counts(i - 1)
        invariant forall j :: 0 <= j < i ==> !Stops(rule, counts, j)
      {
        current := counts(i);
        scrolls := scrolls + 1;
        var shouldStop := false;
        if postLimit.Some? && postLimit.value != 0 && current >= postLimit.value {
          shouldStop := true;
        } else if timeLimit.Some? && timeLimit.value != 0 {
          var elapsed := clock(i) - start;
          if elapsed >= timeLimit.value {
            shouldStop := true;
          }
        }
        if shouldStop || current == lastCount {
          ScrollLengthUnique(rule, counts, maxScrolls, scrolls);
          return current, scrolls;
        }
        lastCount := current;
        i := i + 1;
      }
      ScrollLengthUnique(rule, counts, maxScrolls, scrolls);
      finalCount := current;
    }

    /**
     * `_execute_scrape`: navigates, adopts a selector, scrolls, extracts and
     * truncates, and closes the context on every path.
     */
    method ExecuteScrape(url: string, userId: string, platform: string, postLimit: Option<int>,
                         timeLimit: Option<int>, now: int, start: int, ctx: BrowserContext, page: Page,
                         selectors: seq<string>, extractor: Extractor)
      returns (r: Result<ScrapeResult, string>)
      modifies ctx
      ensures r == AfterClose(ScrapeOutcome(url, userId, platform, postLimit, timeLimit, now, page, selectors, extractor),
                              ctx.closeFailure)
      ensures ctx.closeCalls == old(ctx.closeCalls) + 1
      ensures ctx.closed == (old(ctx.closed) || ctx.closeFailure.None?)
    {
      var outcome: Result<ScrapeResult, string>;
      if page.navError.Some? {
        outcome := Failure(page.navError.value);
      } else {
        var selector := FindSelector(page.probe, selectors);
        if selector.None? {
          outcome := Success(NoPostsFound(now, url, platform, userId));
        } else if page.laterError.Some? {
          outcome := Failure(page.laterError.value);
        } else {
          var finalCount, scrolls := ScrollAndLoad(page.counts, page.clock, start, postLimit, timeLimit, MAX_SCROLLS);
          var extracted := if extractor.NoExtractor? then Success([]) else extractor.run(selector.value);
          if extracted.Failure? {
            outcome := Failure(extracted.error);
          } else {
            var items := extracted.value;
            if postLimit.Some? && postLimit.value != 0 && |items| > postLimit.value {
              items := items[..SliceEnd(postLimit.value, |items|)];
            }
            outcome := Success(Scraped(now, url, platform, userId, |items|, postLimit, timeLimit, selector.value, items));
          }
        }
      }
      var closedOk := ctx.Close();
      r := if closedOk then outcome else Failure(ctx.closeFailure.value);
    }

    /** `initialize_scrape`: a running job is stored under `jobId` and leaves finished. */
    method InitializeScrape(url: string, userId: string, platform: string, postLimit: Option<int>,
                            timeLimit: Option<int>, jobId: string, now: int, start: int,
                            ctx: BrowserContext, page: Page, selectors: seq<string>, extractor: Extractor)
      returns (job: ScrapeJob)
      modifies this, ctx
      ensures fresh(job) && jobs == old(jobs)[jobId := job]
      ensures job.jobId == jobId && job.platform == platform && job.url == url && job.userId == userId
      ensures job.createdAt == now
      ensures job.State() == FinishedState(AfterClose(ScrapeOutcome(url, userId, platform, postLimit, timeLimit, now,
                                                                    page, selectors, extractor), ctx.closeFailure), now)
      ensures ctx.closeCalls == old(ctx.closeCalls) + 1
      ensures ctx.closed == (old(ctx.closed) || ctx.closeFailure.None?)
    {
      job := new ScrapeJob(jobId, Running, platform, url, userId, now);
      jobs := jobs[jobId := job];
      var result := ExecuteScrape(url, userId, platform, postLimit, timeLimit, now, start, ctx, page, selectors, extractor);
      if result.Success? {
        job.status := Completed;
        job.result := Some(result.value);
        job.updatedAt := now;
      } else {
        job.status := Failed;
        job.error := Some(result.error);
        job.updatedAt := now;
      }
    }

    /** `get_status`: the stored job, or an error for an unknown id. */
    function GetStatus(jobId: string): (r: Result<ScrapeJob, EngineError>)
      reads this
      ensures r.Success? <==> jobId in jobs
      ensures r.Success? ==> r.value == jobs[jobId]
      ensures r.Failure? ==> r.error == JobNotFound(jobId)
    {
      if jobId in jobs then Success(jobs[jobId]) else Failure(JobNotFound(jobId))
    }

    /** `get_results`: the result of a known, completed job that has one. */
    function GetResults(jobId: string): (r: Result<ScrapeResult, EngineError>)
      reads this, jobs.Values
      ensures jobId !in jobs ==> r == Failure(JobNotFound(jobId))
      ensures jobId in jobs ==> r == ResultsOutcome(jobId, jobs[jobId].State())
    {
      if jobId !in jobs then Failure(JobNotFound(jobId)) else ResultsOutcome(jobId, jobs[jobId].State())
    }

    /** Cancellation is not supported: the answer is always no and nothing changes. */
    method CancelJob(jobId: string) returns (ok: bool)
      ensures !ok
    {
      ok := false;
    }
  }
}
