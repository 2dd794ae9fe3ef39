/**
 * The two policies every automation scraper shares: adopt the first
 * selector that matches something, and scroll until a limit is hit or the
 * page stops growing. The three scroll loops differ only in their limit
 * test, which `StopRule` names.
 */
module Paging {
  import opened Wrappers

  /** Python truthiness of an optional integer. */
  predicate IsSet(o: Option<int>) { o.Some? && o.value != 0 }

  /** `if post_limit and count >= post_limit`. */
  predicate PostLimitHit(postLimit: Option<int>, count: int)
  {
    IsSet(postLimit) && count >= postLimit.value
  }

  /** The limit test applied after each scroll. */
  datatype StopRule =
      /** The automation engine: post limit, then time limit measured from `start`. */
    | EngineRule(postLimit: Option<int>, timeLimit: Option<int>, start: int, clock: nat -> int)
      /** `should_continue_scraping`: the time limit applies only once `start` is set. */
    | BaseRule(postLimit: Option<int>, timeLimit: Option<int>, startTime: Option<int>, clock: nat -> int)
      /** The stand-alone script: an unconditional target count. */
    | TargetRule(target: int)

  predicate LimitReached(rule: StopRule, count: int, i: nat)
  {
    match rule
    case EngineRule(pl, tl, start, clock) =>
      PostLimitHit(pl, count) || (IsSet(tl) && clock(i) - start >= tl.value)
    case BaseRule(pl, tl, startTime, clock) =>
      PostLimitHit(pl, count) || (IsSet(tl) && IsSet(startTime) && clock(i) - startTime.value >= tl.value)
    case TargetRule(target) => count >= target
  }

  /** The count before scroll `i`; `last_count` starts at 0. */
  function Prev(counts: nat -> nat, i: nat): nat
  {
    if i == 0 then 0 else counts(i - 1)
  }

  /** Scroll `i` is the last one: a limit is reached or nothing new loaded. */
  predicate Stops(rule: StopRule, counts: nat -> nat, i: nat)
  {
    LimitReached(rule, counts(i), i) || counts(i) == Prev(counts, i)
  }

  /** The number of scrolls performed once `i` scrolls ran without stopping. */
  function ScrollFrom(rule: StopRule, counts: nat -> nat, i: nat, maxScrolls: nat): (k: nat)
    requires i <= maxScrolls
    decreases maxScrolls - i
    ensures i < maxScrolls ==> i < k <= maxScrolls
    ensures i == maxScrolls ==> k == maxScrolls
    ensures forall j :: i <= j < k - 1 ==> !Stops(rule, counts, j)
    ensures k < maxScrolls ==> Stops(rule, counts, k - 1)
  {
    if i == maxScrolls then maxScrolls
    else if Stops(rule, counts, i) then i + 1
    else ScrollFrom(rule, counts, i + 1, maxScrolls)
  }

  /**
   * How many scrolls a loop of at most `maxScrolls` iterations performs: it
   * never exceeds the ceiling, it did not stop before its last scroll, and
   * it ends before the ceiling only because its last scroll stopped it.
   */
  function ScrollLength(rule: StopRule, counts: nat -> nat, maxScrolls: nat): (k: nat)
    ensures maxScrolls > 0 ==> 1 <= k <= maxScrolls
    ensures maxScrolls == 0 ==> k == 0
    ensures forall j :: 0 <= j < k - 1 ==> !Stops(rule, counts, j)
    ensures k < maxScrolls ==> Stops(rule, counts, k - 1)
  {
    ScrollFrom(rule, counts, 0, maxScrolls)
  }

  /** Those three facts determine the number of scrolls. */
  lemma {:induction false} ScrollLengthUnique(rule: StopRule, counts: nat -> nat, maxScrolls: nat, k: nat)
    requires 1 <= k <= maxScrolls
    requires forall j :: 0 <= j < k - 1 ==> !Stops(rule, counts, j)
    requires k < maxScrolls ==> Stops(rule, counts, k - 1)
    ensures ScrollLength(rule, counts, maxScrolls) == k
  {
  }

  /**
   * Once the count stops growing between scrolls `j` and `j + 1`, the loop
   * ends within that one extra scroll.
   */
  lemma StopsOneScrollAfterGrowthEnds(rule: StopRule, counts: nat -> nat, maxScrolls: nat, j: nat)
    requires counts(j + 1) == counts(j)
    ensures ScrollLength(rule, counts, maxScrolls) <= j + 2
  {
    var n := ScrollLength(rule, counts, maxScrolls);
    if n > j + 2 {
      assert Stops(rule, counts, j + 1);
    }
  }

  /** A page that shows `n` matches at once and never more stops on the second scroll, or the first if `n` is 0. */
  lemma FixedPageStopsEarly(rule: StopRule, counts: nat -> nat, maxScrolls: nat, n: nat)
    requires maxScrolls >= 2
    requires forall i :: counts(i) == n
    ensures ScrollLength(rule, counts, maxScrolls) <= (if n == 0 then 1 else 2)
  {
    if n == 0 {
      assert Stops(rule, counts, 0);
    } else {
      StopsOneScrollAfterGrowthEnds(rule, counts, maxScrolls, 0);
    }
  }

  /** A post limit that the first scroll already meets stops the loop after that scroll. */
  lemma PostLimitMetAtOnce(pl: int, tl: Option<int>, start: int, clock: nat -> int, counts: nat -> nat, maxScrolls: nat)
    requires maxScrolls >= 1 && pl != 0 && counts(0) >= pl
    ensures ScrollLength(EngineRule(Some(pl), tl, start, clock), counts, maxScrolls) == 1
  {
    assert Stops(EngineRule(Some(pl), tl, start, clock), counts, 0);
  }

  /** Python's `n` as the end of a slice `s[:n]` of a sequence of length `len`. */
  function SliceEnd(n: int, len: nat): (e: nat)
    ensures e <= len
  {
    if n >= 0 then (if n <= len then n else len)
    else if len + n >= 0 then len + n else 0
  }

  /**
   * `if post_limit and len(items) > post_limit: items = items[:post_limit]`:
   * always a prefix; with a positive limit, the first `min(limit, |items|)`
   * items; a negative limit, being truthy and below any length, drops that
   * many items from the end.
   */
  function Truncate<T>(items: seq<T>, postLimit: Option<int>): (r: seq<T>)
    ensures r <= items
    ensures !IsSet(postLimit) ==> r == items
    ensures postLimit.Some? && postLimit.value > 0 ==>
              |r| == (if |items| <= postLimit.value then |items| else postLimit.value)
    ensures postLimit.Some? && postLimit.value < 0 ==>
              |r| == (if |items| + postLimit.value >= 0 then |items| + postLimit.value else 0)
  {
    if IsSet(postLimit) && |items| > postLimit.value then items[..SliceEnd(postLimit.value, |items|)] else items
  }

  /** Truncating to a positive limit twice is truncating once. */
  lemma TruncateIdempotent<T>(items: seq<T>, postLimit: Option<int>)
    requires !IsSet(postLimit) || postLimit.value > 0
    ensures Truncate(Truncate(items, postLimit), postLimit) == Truncate(items, postLimit)
  {
  }

  /** A positive match count: `count > 0`, and evaluating the selector did not raise. */
  predicate Matches(probe: string -> Option<nat>, sel: string)
  {
    probe(sel).Some? && probe(sel).value > 0
  }

  /** The first selector in list order whose match count is positive. */
  function FirstMatching(sels: seq<string>, probe: string -> Option<nat>): (r: Option<string>)
    ensures r.None? <==> forall j :: 0 <= j < |sels| ==> !Matches(probe, sels[j])
    ensures r.Some? ==>
              exists k :: 0 <= k < |sels| && sels[k] == r.value && Matches(probe, sels[k])
                          && forall j :: 0 <= j < k ==> !Matches(probe, sels[j])
  {
    if |sels| == 0 then None
    else if Matches(probe, sels[0]) then Some(sels[0])
    else
      var r := FirstMatching(sels[1..], probe);
      assert forall j :: 1 <= j < |sels| ==> sels[j] == sels[1..][j - 1];
      if r.Some? then
        var k :| 0 <= k < |sels| - 1 && sels[1..][k] == r.value && Matches(probe, sels[1..][k])
                 && forall j :: 0 <= j < k ==> !Matches(probe, sels[1..][j]);
        assert sels[k + 1] == r.value;
        r
      else r
  }

  /** A matching selector preceded only by non-matching ones is the one adopted. */
  lemma FirstMatchingIsFirst(sels: seq<string>, probe: string -> Option<nat>, i: nat)
    requires i < |sels| && Matches(probe, sels[i])
    requires forall j :: 0 <= j < i ==> !Matches(probe, sels[j])
    ensures FirstMatching(sels, probe) == Some(sels[i])
  {
  }
}
