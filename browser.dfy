/**
 * The browser as the scrapers see it. A page is described by what its
 * queries answer; the context and the driver process are objects whose
 * `close()` and `stop()` calls are counted.
 */
module Browser {
  import opened Wrappers

  /** One matched element: its `innerText` and its first link's `href`. */
  datatype RawElement = RawElement(text: string, link: Option<string>)

  /**
   * A loaded page: `navError` is the exception raised by navigation (or the
   * lazy-load nudge), `probe(sel)` the match count of a selector (None when
   * evaluating it raises), `laterError` the exception raised by the first
   * page call made once a selector is adopted (the initial count, a scroll,
   * a count or the extraction), `elements(sel)` what extraction reads,
   * `counts(i)` the match count of the adopted selector after scroll `i` and
   * `clock(i)` the wall clock when that count is read.
   */
  datatype Page = Page(
    navError: Option<string>,
    probe: string -> Option<nat>,
    laterError: Option<string>,
    elements: string -> seq<RawElement>,
    counts: nat -> nat,
    clock: nat -> int)

  /** A persistent browsing context; `closeFailure` is what `close()` raises, if anything. */
  class BrowserContext {
    var closed: bool
    var closeCalls: nat
    const closeFailure: Option<string>

    constructor (closeFailure: Option<string>)
      ensures !closed && closeCalls == 0 && this.closeFailure == closeFailure
    {
      closed := false;
      closeCalls := 0;
      this.closeFailure := closeFailure;
    }

    method Close() returns (ok: bool)
      modifies this
      ensures ok == closeFailure.None?
      ensures closeCalls == old(closeCalls) + 1
      ensures closed == (old(closed) || ok)
    {
      closeCalls := closeCalls + 1;
      ok := closeFailure.None?;
      if ok {
        closed := true;
      }
    }
  }

  /** The automation-driver process started for one session. */
  class Driver {
    var stopped: bool
    var stopCalls: nat
    const stopFailure: Option<string>

    constructor (stopFailure: Option<string>)
      ensures !stopped && stopCalls == 0 && this.stopFailure == stopFailure
    {
      stopped := false;
      stopCalls := 0;
      this.stopFailure := stopFailure;
    }

    method Stop() returns (ok: bool)
      modifies this
      ensures ok == stopFailure.None?
      ensures stopCalls == old(stopCalls) + 1
      ensures stopped == (old(stopped) || ok)
    {
      stopCalls := stopCalls + 1;
      ok := stopFailure.None?;
      if ok {
        stopped := true;
      }
    }
  }
}
