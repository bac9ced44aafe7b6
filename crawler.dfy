/** The crawler object: its root URL, the links it dispatched and its six
    result arrays, updated in place as probes finish. The network, the
    threads and the clock are replaced by inputs, and the probes run one
    after another in document order. */
module Crawler {
  import opened Outcomes
  import opened Tallies
  import opened Links
  import Report

  class WebCrawler {
    const rootUrl: string
    var links: seq<string>
    var successLinks: seq<string>
    var failedLinks: seq<string>
    var timedOutLinks: seq<string>
    var invalidLinks: seq<string>
    var forbiddenLinks: seq<string>
    var exceptionLinks: seq<string>

    /** The result arrays as a value. */
    function Results(): Tally
      reads this
    {
      Tally(successLinks, failedLinks, timedOutLinks, invalidLinks, forbiddenLinks, exceptionLinks)
    }

    /** Every recorded link has been classified exactly once and the
        specific arrays stay within failed_links. */
    ghost predicate Valid()
      reads this
    {
      Balanced(Results(), links)
    }

    constructor (url: string)
      ensures rootUrl == url && links == [] && Results() == Empty
      ensures Valid()
    {
      rootUrl := url;
      links := [];
      successLinks, failedLinks, timedOutLinks := [], [], [];
      invalidLinks, forbiddenLinks, exceptionLinks := [], [], [];
    }

    /** Records the outcome of probing `href`: appends it to success_links,
        or to failed_links and to the specific array of its failure, if
        any. */
    method CheckAvailability(href: string, outcome: Outcome)
      modifies this
      ensures Results() == Classify(old(Results()), href, outcome)
      ensures |successLinks| + |failedLinks| == old(|successLinks| + |failedLinks|) + 1
      ensures links == old(links)
    {
      match outcome
      case Response(status) =>
        if IsSuccessStatus(status) {
          successLinks := successLinks + [href];
        } else if status == Forbidden403 {
          forbiddenLinks := forbiddenLinks + [href];
          failedLinks := failedLinks + [href];
        } else if status == MovedPermanently301 || status == Found302 {
          invalidLinks := invalidLinks + [href];
          failedLinks := failedLinks + [href];
        } else {
          failedLinks := failedLinks + [href];
        }
      case InvalidURIError =>
        invalidLinks := invalidLinks + [href];
        failedLinks := failedLinks + [href];
      case TimeoutError =>
        timedOutLinks := timedOutLinks + [href];
        failedLinks := failedLinks + [href];
      case OtherError =>
        exceptionLinks := exceptionLinks + [href];
        failedLinks := failedLinks + [href];
    }

    /** The body of one probing thread: record the href in `links`, make it
        absolute (the href object is changed in place, so `links` holds the
        resolved URL), and classify the outcome of requesting it. */
    method Dispatch(href: string, outcome: Outcome)
      modifies this
      ensures links == old(links) + [Resolve(rootUrl, href)]
      ensures Results() == Classify(old(Results()), Resolve(rootUrl, href), outcome)
    {
      var url := Resolve(rootUrl, href);
      links := links + [url];
      CheckAvailability(url, outcome);
    }

    /** The dispatch loop of analyze over the anchors of the root page:
        anchors without an href are skipped; every other one is counted and
        dispatched. Returns link_count. */
    method Analyze(anchors: seq<Option<string>>, outcomes: seq<Outcome>) returns (linkCount: nat)
      requires |outcomes| == |anchors|
      modifies this
      ensures linkCount == |Hrefs(anchors)|
      ensures links == old(links) + Urls(Probes(rootUrl, anchors, outcomes))
      ensures Results() == ClassifyAll(old(Results()), Probes(rootUrl, anchors, outcomes))
      ensures |successLinks| + |failedLinks| == old(|successLinks| + |failedLinks|) + linkCount
    {
      ghost var start := Results();
      ghost var startLinks := links;
      linkCount := 0;
      var i := 0;
      while i < |anchors|
        invariant 0 <= i <= |anchors|
        invariant linkCount == |Hrefs(anchors[..i])|
        invariant links == startLinks + Urls(Probes(rootUrl, anchors[..i], outcomes[..i]))
        invariant Results() == ClassifyAll(start, Probes(rootUrl, anchors[..i], outcomes[..i]))
      {
        ProbesSnoc(rootUrl, anchors, outcomes, i);
        ghost var done := Probes(rootUrl, anchors[..i], outcomes[..i]);
        ghost var next := Probes(rootUrl, anchors[..i + 1], outcomes[..i + 1]);
        match anchors[i] {
          case None =>
            assert next == done;
          case Some(href) =>
            linkCount := linkCount + 1;
            ghost var probe := Probe(Resolve(rootUrl, href), outcomes[i]);
            assert next == done + [probe];
            ClassifyAllSnoc(start, done, probe);
            Dispatch(href, outcomes[i]);
            assert links == startLinks + Urls(next) by {
              assert startLinks + Urls(done) + [probe.url] == startLinks + (Urls(done) + [probe.url]);
            }
        }
        i := i + 1;
      }
      assert anchors[..i] == anchors;
      assert outcomes[..i] == outcomes;
      ClassifyAllAccounts(start, Probes(rootUrl, anchors, outcomes));
    }

    /** A whole run: `page` holds the anchors of the root page, or None when
        fetching the root page raised, in which case nothing is analyzed and
        no summary is printed. Otherwise the anchors are analyzed and the
        summary lines are returned; `elapsedMs` is the time the run took. */
    method Run(page: Option<seq<Option<string>>>, outcomes: seq<Outcome>, elapsedMs: nat)
      returns (summary: Option<seq<Report.Line>>)
      requires page.Some? ==> |outcomes| == |page.value|
      requires Valid()
      modifies this
      ensures Valid()
      ensures page.None? ==> summary.None? && links == old(links) && Results() == old(Results())
      ensures page.Some? ==>
        && links == old(links) + Urls(Probes(rootUrl, page.value, outcomes))
        && Results() == ClassifyAll(old(Results()), Probes(rootUrl, page.value, outcomes))
        && summary == Some(Report.Lines(rootUrl, |links|, Results(), elapsedMs))
    {
      match page {
        case None =>
          summary := None;
        case Some(anchors) =>
          ghost var start, startLinks := Results(), links;
          var linkCount := Analyze(anchors, outcomes);
          ClassifyAllBalanced(start, startLinks, Probes(rootUrl, anchors, outcomes));
          summary := Some(Report.Lines(rootUrl, |links|, Results(), elapsedMs));
      }
    }
  }

  /** The summary of a run on a fresh crawler: the number of links found is
      link_count, the number of anchors with an href; success and failed
      counts add up to it, so the completion wait is over; and the specific
      failure counts stay within the failed count. */
  lemma FreshRunSummary(rootUrl: string, anchors: seq<Option<string>>, outcomes: seq<Outcome>, elapsedMs: nat)
    requires |outcomes| == |anchors|
    ensures var ps := Probes(rootUrl, anchors, outcomes);
      var t := ClassifyAll(Empty, ps);
      var lines := Report.Lines(rootUrl, |Urls(ps)|, t, elapsedMs);
      && lines[1] == Report.FoundTotal(|Hrefs(anchors)|)
      && lines[2].count + lines[3].count == |Hrefs(anchors)|
      && |t.forbidden| + |t.invalid| + |t.timedOut| + |t.exception| <= |t.failed|
  {
    var ps := Probes(rootUrl, anchors, outcomes);
    ClassifyAllAccounts(Empty, ps);
    SpecificWithinFailed(ClassifyAll(Empty, ps));
  }
}
