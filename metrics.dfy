/**
 * The Threads engagement-metric heuristic: keep the lines of a post's text
 * that are nothing but digits, then read likes, comments and reposts
 * positionally from the tail of those numbers.
 */
module Metrics {
  import opened Wrappers
  import opened Text
  import opened Json
  import opened BaseEngine
  import opened Browser

  /** `/^\d+$/.test(line.trim())`; such a line is also non-empty after trimming. */
  predicate IsNumberLine(line: string) { IsDigitRun(Trim(line)) }

  /** What one line contributes: its value when it is a number line, else nothing. */
  function LineNumber(line: string): (r: seq<nat>)
    ensures |r| <= 1
    ensures |r| == 1 <==> IsNumberLine(line)
  {
    if IsNumberLine(line) then [DigitsValue(Trim(line))] else []
  }

  /** The values of the number lines, in order. */
  function Numbers(lines: seq<string>): (ns: seq<nat>)
    ensures |ns| <= |lines|
  {
    if |lines| == 0 then []
    else LineNumber(lines[0]) + Numbers(lines[1..])
  }

  /** `raw_numbers` of an element's text: split on newlines, keep the number lines. */
  function RawNumbers(text: string): (r: seq<nat>)
    ensures '\n' !in text ==> r == LineNumber(text)
  {
    if '\n' in text then Numbers(Split(text, '\n'))
    else
      SplitNoSep(text, '\n');
      NumbersOne(Split(text, '\n'));
      Numbers(Split(text, '\n'))
  }

  /** A single line contributes just its own number, if any. */
  lemma NumbersOne(lines: seq<string>)
    requires |lines| == 1
    ensures Numbers(lines) == LineNumber(lines[0])
  {
    assert lines[1..] == [];
  }

  /**
   * A text made of separate lines yields the numbers of exactly the lines that
   * are digit runs, each parsed back to its value.
   */
  lemma {:induction false} RawNumbersOfLines(lines: seq<string>)
    requires |lines| >= 1
    requires forall k :: 0 <= k < |lines| ==> '\n' !in lines[k]
    ensures RawNumbers(Join(lines, '\n')) == Numbers(lines)
  {
    SplitJoin(lines, '\n');
  }

  /** A line holding the decimal rendering of `n` contributes exactly `n`. */
  lemma LineNumberValue(n: nat)
    ensures LineNumber(NatToString(n)) == [n]
  {
    var s := NatToString(n);
    TrimDigitRun(s);
    DigitsRoundTrip(n);
  }

  /** The three engagement fields; `None` where the heuristic assigns nothing. */
  datatype Engagement = Engagement(likes: Option<nat>, comments: Option<nat>, reposts: Option<nat>)

  /**
   * With at least three numbers the metrics are the three consecutive numbers
   * ending one before the last (four or more) or at the last (exactly three).
   */
  function AssignMetrics(ns: seq<nat>): (e: Engagement)
    ensures |ns| < 3 <==> e == Engagement(None, None, None)
    ensures |ns| >= 3 ==>
              var end := if |ns| >= 4 then |ns| - 1 else |ns|;
              e == Engagement(Some(ns[end - 3]), Some(ns[end - 2]), Some(ns[end - 1]))
  {
    if |ns| >= 3 then
      Engagement(
        Some(if |ns| >= 4 then ns[|ns| - 4] else ns[|ns| - 3]),
        Some(if |ns| >= 4 then ns[|ns| - 3] else ns[|ns| - 2]),
        Some(if |ns| >= 4 then ns[|ns| - 2] else ns[|ns| - 1]))
    else Engagement(None, None, None)
  }

  /** With four or more numbers, the last is discarded and earlier numbers do not matter. */
  lemma MetricsIgnoreLastAndPrefix(prefix: seq<nat>, ns: seq<nat>, last: nat)
    requires |ns| >= 3
    ensures AssignMetrics(prefix + ns + [last]) == AssignMetrics(ns[|ns| - 3..])
  {
  }

  /** Exactly three numbers are taken as they stand; with four the first three are taken. */
  lemma MetricsExamples()
    ensures AssignMetrics([488, 55, 12]) == Engagement(Some(488), Some(55), Some(12))
    ensures AssignMetrics([204, 488, 55, 12]) == Engagement(Some(204), Some(488), Some(55))
    ensures AssignMetrics([55, 12]) == Engagement(None, None, None)
  {
  }

  function OptNum(o: Option<nat>): Value
  {
    if o.Some? then Num(o.value) else Null
  }

  function OptStr(o: Option<string>): Value
  {
    if o.Some? then Str(o.value) else Null
  }

  /** The item built for one raw element: text and link copied, metrics from its numbers. */
  function ThreadsItem(raw: RawElement): (item: Item)
    ensures item.text == Str(raw.text) && item.link == OptStr(raw.link)
    ensures item.datePosted == Null && item.views == Null
    ensures var e := AssignMetrics(RawNumbers(raw.text));
            item.likes == OptNum(e.likes) && item.comments == OptNum(e.comments) && item.reposts == OptNum(e.reposts)
  {
    var e := AssignMetrics(RawNumbers(raw.text));
    Item(Str(raw.text), OptStr(raw.link), OptNum(e.likes), OptNum(e.comments), OptNum(e.reposts), Null, Null)
  }

  /**
   * The loop body of the metric pass: start with every metric `None`, then
   * with three or more numbers fill them positionally from the tail.
   */
  method BuildItem(raw: RawElement) returns (item: Item)
    ensures item == ThreadsItem(raw)
  {
    var numbers := RawNumbers(raw.text);
    var likes: Value := Null;
    var comments: Value := Null;
    var reposts: Value := Null;
    if |numbers| >= 3 {
      likes := Num(if |numbers| >= 4 then numbers[|numbers| - 4] else numbers[|numbers| - 3]);
      comments := Num(if |numbers| >= 4 then numbers[|numbers| - 3] else numbers[|numbers| - 2]);
      reposts := Num(if |numbers| >= 4 then numbers[|numbers| - 2] else numbers[|numbers| - 1]);
    }
    item := Item(Str(raw.text), OptStr(raw.link), likes, comments, reposts, Null, Null);
  }

  /** `items` holds the items of the first `n` raw elements, in order. */
  predicate ItemsPrefix(items: seq<Item>, raws: seq<RawElement>, n: nat)
  {
    n <= |raws| && |items| == n && forall k :: 0 <= k < n ==> items[k] == ThreadsItem(raws[k])
  }

  /** Appending the image of the next source element extends an elementwise image by one. */
  lemma MapPrefixStep<A, B>(out: seq<B>, src: seq<A>, f: A -> B, n: nat, y: B)
    requires n < |src| && |out| == n && y == f(src[n])
    requires forall k :: 0 <= k < n ==> out[k] == f(src[k])
    ensures forall k :: 0 <= k < n + 1 ==> (out + [y])[k] == f(src[k])
  {
    var longer := out + [y];
    forall k | 0 <= k < n + 1
      ensures longer[k] == f(src[k])
    {
      if k < n {
        assert longer[k] == out[k];
      }
    }
  }

  /** Appending the next element's item extends the prefix by one. */
  lemma ItemsPrefixStep(items: seq<Item>, raws: seq<RawElement>, n: nat, item: Item)
    requires ItemsPrefix(items, raws, n) && n < |raws| && item == ThreadsItem(raws[n])
    ensures ItemsPrefix(items + [item], raws, n + 1)
  {
    MapPrefixStep(items, raws, ThreadsItem, n, item);
  }

  /** The second pass over all matched elements: one item per element, in order. */
  function ItemsOf(els: seq<RawElement>): (items: seq<Item>)
    ensures |items| == |els|
    ensures forall k :: 0 <= k < |els| ==> items[k] == ThreadsItem(els[k])
  {
    seq(|els|, k requires 0 <= k < |els| => ThreadsItem(els[k]))
  }

  /** Fewer than three number lines leave every metric unset. */
  lemma FewNumbersNoMetrics(raw: RawElement)
    requires |RawNumbers(raw.text)| < 3
    ensures ThreadsItem(raw).likes == Null && ThreadsItem(raw).comments == Null && ThreadsItem(raw).reposts == Null
  {
  }
}
