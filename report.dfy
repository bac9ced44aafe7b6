/** The summary print_result writes, as a sequence of lines, and the split of
    the elapsed time into minutes, seconds and milliseconds. */
module Report {
  import opened Tallies

  /** Elapsed time as print_result shows it. */
  datatype Duration = Duration(min: nat, sec: nat, msec: nat)

  /** Splits an elapsed time of `ms` milliseconds: whole seconds first, then
      minutes from the whole seconds, the seconds left over, and the
      milliseconds below one second. */
  function SplitElapsed(ms: nat): (d: Duration)
    ensures d.sec < 60 && d.msec < 1000
    ensures (d.min * 60 + d.sec) * 1000 + d.msec == ms
  {
    var s := ms / 1000;
    var min := s / 60;
    Duration(min, s - min * 60, ms - s * 1000)
  }

  /** The split is the only one with those bounds: any minutes, seconds and
      milliseconds that are in range and add up to `ms` are SplitElapsed(ms). */
  lemma SplitElapsedUnique(ms: nat, d: Duration)
    requires d.sec < 60 && d.msec < 1000
    requires (d.min * 60 + d.sec) * 1000 + d.msec == ms
    ensures SplitElapsed(ms) == d
  {
    var s := d.min * 60 + d.sec;
    assert ms == s * 1000 + d.msec;
    assert ms / 1000 == s;
    assert s / 60 == d.min;
  }

  /** One line of the printed summary. */
  datatype Line =
    | Analysis(rootUrl: string)        // "Analysis on <root>:"
    | FoundTotal(count: nat)           // "Found <n> links in total"
    | SuccessCount(count: nat)         // "Success: <n>"
    | FailedCount(count: nat)          // "Failed: <n>"
    | AccessDeniedCount(count: nat)    // "Access denied: <n>"
    | TimeOutCount(count: nat)         // "Time out: <n>"
    | InvalidLinkCount(count: nat)     // "Invalid link: <n>"
    | ExceptionCount(count: nat)       // "Exception when visited: <n>"
    | TimeUsed(elapsed: Duration)      // "Time used: <m> m <s> s <ms> ms"

  /** The line for a specific array, printed only when the array is non-empty. */
  function UnlessEmpty(links: seq<string>, line: Line): seq<Line> {
    if links == [] then [] else [line]
  }

  /** The lines for the specific failure arrays, in print order, each one
      present only when its array is non-empty. */
  function SpecificLines(t: Tally): (lines: seq<Line>)
    ensures |lines| <= 4
    ensures forall l :: l in lines ==> l.AccessDeniedCount? || l.TimeOutCount? || l.InvalidLinkCount? || l.ExceptionCount?
    ensures AccessDeniedCount(|t.forbidden|) in lines <==> t.forbidden != []
    ensures TimeOutCount(|t.timedOut|) in lines <==> t.timedOut != []
    ensures InvalidLinkCount(|t.invalid|) in lines <==> t.invalid != []
    ensures ExceptionCount(|t.exception|) in lines <==> t.exception != []
    ensures forall n :: AccessDeniedCount(n) in lines ==> n == |t.forbidden|
    ensures forall n :: TimeOutCount(n) in lines ==> n == |t.timedOut|
    ensures forall n :: InvalidLinkCount(n) in lines ==> n == |t.invalid|
    ensures forall n :: ExceptionCount(n) in lines ==> n == |t.exception|
  {
    UnlessEmpty(t.forbidden, AccessDeniedCount(|t.forbidden|))
      + UnlessEmpty(t.timedOut, TimeOutCount(|t.timedOut|))
      + UnlessEmpty(t.invalid, InvalidLinkCount(|t.invalid|))
      + UnlessEmpty(t.exception, ExceptionCount(|t.exception|))
  }

  /** The summary for a crawl that found `found` links, with result arrays
      `t`, that took `elapsedMs` milliseconds: the four fixed lines, the
      lines of the non-empty specific arrays, and the elapsed time. */
  function Lines(rootUrl: string, found: nat, t: Tally, elapsedMs: nat): (lines: seq<Line>)
    ensures 5 <= |lines| <= 9
    ensures lines[..4] == [Analysis(rootUrl), FoundTotal(found), SuccessCount(|t.success|), FailedCount(|t.failed|)]
    ensures lines[|lines| - 1] == TimeUsed(SplitElapsed(elapsedMs))
    ensures lines[4..|lines| - 1] == SpecificLines(t)
  {
    var head := [Analysis(rootUrl), FoundTotal(found), SuccessCount(|t.success|), FailedCount(|t.failed|)];
    var lines := head + SpecificLines(t) + [TimeUsed(SplitElapsed(elapsedMs))];
    assert lines == head + (SpecificLines(t) + [TimeUsed(SplitElapsed(elapsedMs))]);
    assert lines[..4] == head;
    assert lines[4..|lines| - 1] == SpecificLines(t);
    lines
  }
}
