/** The six result arrays of a crawler, as a value, and what classifying
    probes does to them. */
module Tallies {
  import opened Outcomes

  /** One finished probe: the URL that was requested and what came back. */
  datatype Probe = Probe(url: string, outcome: Outcome)

  /** success_links, failed_links, timed_out_links, invalid_links,
      forbidden_links and exception_links. */
  datatype Tally = Tally(
    success: seq<string>,
    failed: seq<string>,
    timedOut: seq<string>,
    invalid: seq<string>,
    forbidden: seq<string>,
    exception: seq<string>)

  /** The arrays as a fresh crawler holds them. */
  const Empty := Tally([], [], [], [], [], [])

  /** The contents of one array. */
  function Slot(t: Tally, a: ResultArray): seq<string> {
    match a
    case SuccessLinks => t.success
    case FailedLinks => t.failed
    case TimedOutLinks => t.timedOut
    case InvalidLinks => t.invalid
    case ForbiddenLinks => t.forbidden
    case ExceptionLinks => t.exception
  }

  /** `[url]` when `cond` holds, nothing otherwise. */
  function When(cond: bool, url: string): seq<string> {
    if cond then [url] else []
  }

  /** Every link in a specific failure array is also in failed_links, and no
      link sits in the specific arrays more often than it failed. */
  ghost predicate Consistent(t: Tally) {
    multiset(t.forbidden) + multiset(t.invalid) + multiset(t.timedOut) + multiset(t.exception)
      <= multiset(t.failed)
  }

  /** Every link in `links` has been classified exactly once, and the
      specific arrays stay within failed_links. */
  ghost predicate Balanced(t: Tally, links: seq<string>) {
    multiset(t.success) + multiset(t.failed) == multiset(links) && Consistent(t)
  }

  /** check_availability once the outcome of the request is known: the
      response class is tested first, then the rescued exceptions. Exactly
      the arrays that record the outcome gain the URL, at their end. */
  function Classify(t: Tally, url: string, o: Outcome): (r: Tally)
    ensures forall a :: Slot(r, a) == Slot(t, a) + When(RecordedIn(o, a), url)
  {
    match o
    case Response(status) =>
      if IsSuccessStatus(status) then
        t.(success := t.success + [url])
      else if status == Forbidden403 then
        t.(forbidden := t.forbidden + [url], failed := t.failed + [url])
      else if status == MovedPermanently301 || status == Found302 then
        t.(invalid := t.invalid + [url], failed := t.failed + [url])
      else
        t.(failed := t.failed + [url])
    case InvalidURIError =>
      t.(invalid := t.invalid + [url], failed := t.failed + [url])
    case TimeoutError =>
      t.(timedOut := t.timedOut + [url], failed := t.failed + [url])
    case OtherError =>
      t.(exception := t.exception + [url], failed := t.failed + [url])
  }

  /** The URLs of the probes, in order. */
  function Urls(ps: seq<Probe>): (us: seq<string>)
    ensures |us| == |ps|
  {
    if ps == [] then [] else Urls(ps[..|ps| - 1]) + [ps[|ps| - 1].url]
  }

  /** The URLs of the probes whose outcome array `a` records, in order. */
  function UrlsIn(ps: seq<Probe>, a: ResultArray): seq<string> {
    if ps == [] then []
    else UrlsIn(ps[..|ps| - 1], a) + When(RecordedIn(ps[|ps| - 1].outcome, a), ps[|ps| - 1].url)
  }

  /** Classifying the probes one after another, in the order they finish.
      Each array ends up extended by exactly the URLs of the probes it
      records, in that order. */
  function ClassifyAll(t: Tally, ps: seq<Probe>): (r: Tally)
    ensures forall a :: Slot(r, a) == Slot(t, a) + UrlsIn(ps, a)
  {
    if ps == [] then t
    else
      var last := ps[|ps| - 1];
      Classify(ClassifyAll(t, ps[..|ps| - 1]), last.url, last.outcome)
  }

  /** The table sends every outcome to exactly one of success_links and
      failed_links, and to at most one specific array, which is then a
      failure. */
  lemma RecordedOnce(o: Outcome)
    ensures RecordedIn(o, SuccessLinks) != RecordedIn(o, FailedLinks)
    ensures forall a :: IsSpecific(a) && RecordedIn(o, a) ==> RecordedIn(o, FailedLinks)
    ensures forall a, b :: IsSpecific(a) && IsSpecific(b) && RecordedIn(o, a) && RecordedIn(o, b) ==> a == b
  {
  }

  /** Over any run of probes, success_links and failed_links split the
      probed URLs between them. */
  lemma {:induction false} SuccessFailedPartition(ps: seq<Probe>)
    ensures multiset(UrlsIn(ps, SuccessLinks)) + multiset(UrlsIn(ps, FailedLinks)) == multiset(Urls(ps))
  {
    if ps != [] {
      var init, last := ps[..|ps| - 1], ps[|ps| - 1];
      SuccessFailedPartition(init);
      assert Urls(ps) == Urls(init) + [last.url];
      assert UrlsIn(ps, SuccessLinks) == UrlsIn(init, SuccessLinks) + When(IsSuccess(last.outcome), last.url);
      assert UrlsIn(ps, FailedLinks) == UrlsIn(init, FailedLinks) + When(!IsSuccess(last.outcome), last.url);
    }
  }

  /** Over any run of probes, the specific failure arrays together hold no
      URL more often than failed_links does. */
  lemma {:induction false} SpecificPartition(ps: seq<Probe>)
    ensures multiset(UrlsIn(ps, ForbiddenLinks)) + multiset(UrlsIn(ps, InvalidLinks))
          + multiset(UrlsIn(ps, TimedOutLinks)) + multiset(UrlsIn(ps, ExceptionLinks))
         <= multiset(UrlsIn(ps, FailedLinks))
  {
    if ps != [] {
      var init, last := ps[..|ps| - 1], ps[|ps| - 1];
      SpecificPartition(init);
      RecordedOnce(last.outcome);
    }
  }

  /** What the completion test of analyze relies on: classifying n probes
      raises |success_links| + |failed_links| by exactly n, every probed URL
      lands in one of the two, and the specific arrays stay within
      failed_links. */
  lemma ClassifyAllAccounts(t: Tally, ps: seq<Probe>)
    ensures var r := ClassifyAll(t, ps);
      |r.success| + |r.failed| == |t.success| + |t.failed| + |ps|
    ensures var r := ClassifyAll(t, ps);
      multiset(r.success) + multiset(r.failed)
        == multiset(t.success) + multiset(t.failed) + multiset(Urls(ps))
    ensures Consistent(t) ==> Consistent(ClassifyAll(t, ps))
  {
    var r := ClassifyAll(t, ps);
    SuccessFailedPartition(ps);
    SpecificPartition(ps);
    assert Slot(r, SuccessLinks) == Slot(t, SuccessLinks) + UrlsIn(ps, SuccessLinks);
    assert Slot(r, FailedLinks) == Slot(t, FailedLinks) + UrlsIn(ps, FailedLinks);
    assert Slot(r, ForbiddenLinks) == Slot(t, ForbiddenLinks) + UrlsIn(ps, ForbiddenLinks);
    assert Slot(r, InvalidLinks) == Slot(t, InvalidLinks) + UrlsIn(ps, InvalidLinks);
    assert Slot(r, TimedOutLinks) == Slot(t, TimedOutLinks) + UrlsIn(ps, TimedOutLinks);
    assert Slot(r, ExceptionLinks) == Slot(t, ExceptionLinks) + UrlsIn(ps, ExceptionLinks);
    assert |multiset(Urls(ps))| == |ps|;
  }

  /** The count form of Consistent:
      |forbidden| + |invalid| + |timed_out| + |exception| <= |failed|. */
  lemma SpecificWithinFailed(t: Tally)
    requires Consistent(t)
    ensures |t.forbidden| + |t.invalid| + |t.timedOut| + |t.exception| <= |t.failed|
  {
    var specific := multiset(t.forbidden) + multiset(t.invalid) + multiset(t.timedOut) + multiset(t.exception);
    assert multiset(t.failed) == specific + (multiset(t.failed) - specific);
    assert |specific| == |t.forbidden| + |t.invalid| + |t.timedOut| + |t.exception|;
  }

  /** The wait in analyze: whatever probes have finished so far, in whatever
      order, the test |success_links| + |failed_links| >= link_count holds
      exactly when all link_count dispatched probes have finished. */
  lemma CompletionTest(finished: seq<Probe>, linkCount: nat)
    requires |finished| <= linkCount
    ensures var r := ClassifyAll(Empty, finished);
      |r.success| + |r.failed| >= linkCount <==> |finished| == linkCount
  {
    ClassifyAllAccounts(Empty, finished);
  }

  /** Classifying one more probe after a run of probes. */
  lemma ClassifyAllSnoc(t: Tally, ps: seq<Probe>, p: Probe)
    ensures ClassifyAll(t, ps + [p]) == Classify(ClassifyAll(t, ps), p.url, p.outcome)
    ensures Urls(ps + [p]) == Urls(ps) + [p.url]
  {
    assert (ps + [p])[..|ps|] == ps;
  }

  /** Recording a run of probes in `links` and classifying each of them
      keeps the crawler balanced. */
  lemma ClassifyAllBalanced(t: Tally, links: seq<string>, ps: seq<Probe>)
    requires Balanced(t, links)
    ensures Balanced(ClassifyAll(t, ps), links + Urls(ps))
  {
    ClassifyAllAccounts(t, ps);
  }

  /** One thread body keeps the aggregator invariant: recording a URL in
      links and classifying it leaves every recorded link classified exactly
      once, with the specific arrays within failed_links. */
  lemma ClassifyBalanced(t: Tally, links: seq<string>, url: string, o: Outcome)
    requires Balanced(t, links)
    ensures Balanced(Classify(t, url, o), links + [url])
  {
    ClassifyAllSnoc(t, [], Probe(url, o));
    ClassifyAllBalanced(t, links, [Probe(url, o)]);
  }
}
