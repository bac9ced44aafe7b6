/** Which anchors become probes, and the URL each probe requests. */
module Links {
  import opened Outcomes
  import opened Tallies

  datatype Option<T> = None | Some(value: T)

  predicate StartsWith(s: string, prefix: string) {
    |prefix| <= |s| && s[..|prefix|] == prefix
  }

  /** `href.start_with?("http://", "https://")`: a case-sensitive test of the
      two literal prefixes, not a parse of the URL's scheme. */
  predicate IsAbsolute(href: string) {
    StartsWith(href, "http://") || StartsWith(href, "https://")
  }

  /** The URL probed for an href: the href itself when it is absolute,
      otherwise the whole root URL (path included) with the href appended.
      The empty href resolves to the root URL. */
  function Resolve(rootUrl: string, href: string): (url: string)
    ensures |href| <= |url| && url[|url| - |href|..] == href
    ensures IsAbsolute(url) || StartsWith(url, rootUrl)
    ensures url == href <==> IsAbsolute(href) || rootUrl == []
    ensures url == rootUrl + href <==> !IsAbsolute(href) || rootUrl == []
  {
    if IsAbsolute(href) then href else rootUrl + href
  }

  /** Appending to a string keeps its prefixes. */
  lemma StartsWithAppend(s: string, prefix: string, tail: string)
    requires StartsWith(s, prefix)
    ensures StartsWith(s + tail, prefix)
  {
    assert (s + tail)[..|prefix|] == s[..|prefix|];
  }

  /** With an absolute root URL every resolved URL is absolute, so resolving
      it again changes nothing. */
  lemma {:induction false} ResolveIdempotent(rootUrl: string, href: string)
    requires IsAbsolute(rootUrl)
    ensures IsAbsolute(Resolve(rootUrl, href))
    ensures Resolve(rootUrl, Resolve(rootUrl, href)) == Resolve(rootUrl, href)
  {
    if !IsAbsolute(href) {
      if StartsWith(rootUrl, "http://") {
        StartsWithAppend(rootUrl, "http://", href);
      } else {
        StartsWithAppend(rootUrl, "https://", href);
      }
    }
  }

  /** The href values of the anchors that carry one, in document order:
      anchors without an href attribute are skipped, every other one
      (the empty string included) is kept. */
  function Hrefs(anchors: seq<Option<string>>): (hs: seq<string>)
    ensures |hs| <= |anchors|
  {
    if anchors == [] then []
    else
      var init, last := anchors[..|anchors| - 1], anchors[|anchors| - 1];
      Hrefs(init) + (if last.Some? then [last.value] else [])
  }

  /** link_count is the number of anchors minus those without an href. */
  lemma {:induction false} HrefsCount(anchors: seq<Option<string>>)
    ensures |Hrefs(anchors)| + multiset(anchors)[None] == |anchors|
  {
    if anchors != [] {
      var init, last := anchors[..|anchors| - 1], anchors[|anchors| - 1];
      assert anchors == init + [last];
      HrefsCount(init);
    }
  }

  /** An href is kept exactly when some anchor carries it. */
  lemma {:induction false} HrefsMembers(anchors: seq<Option<string>>, h: string)
    ensures h in Hrefs(anchors) <==> Some(h) in anchors
  {
    if anchors != [] {
      var init, last := anchors[..|anchors| - 1], anchors[|anchors| - 1];
      assert anchors == init + [last];
      HrefsMembers(init, h);
    }
  }

  /** Each href is kept as many times as anchors carry it, so together with
      document order (from the definition) this fixes Hrefs completely. */
  lemma {:induction false} HrefsMultiset(anchors: seq<Option<string>>, h: string)
    ensures multiset(Hrefs(anchors))[h] == multiset(anchors)[Some(h)]
  {
    if anchors != [] {
      var init, last := anchors[..|anchors| - 1], anchors[|anchors| - 1];
      assert anchors == init + [last];
      HrefsMultiset(init, h);
    }
  }

  /** The probes analyze dispatches: one per anchor with an href, in order,
      requesting the resolved URL; `outcomes[i]` is what the network answers
      for anchor i (unused when the anchor has no href). */
  function Probes(rootUrl: string, anchors: seq<Option<string>>, outcomes: seq<Outcome>): (ps: seq<Probe>)
    requires |outcomes| == |anchors|
    ensures |ps| == |Hrefs(anchors)|
  {
    if anchors == [] then []
    else
      var n := |anchors| - 1;
      var init := Probes(rootUrl, anchors[..n], outcomes[..n]);
      match anchors[n]
      case None => init
      case Some(href) => init + [Probe(Resolve(rootUrl, href), outcomes[n])]
  }

  /** Extending the anchors by one extends the hrefs and the probes by what
      that anchor contributes. */
  lemma ProbesSnoc(rootUrl: string, anchors: seq<Option<string>>, outcomes: seq<Outcome>, i: nat)
    requires |outcomes| == |anchors| && i < |anchors|
    ensures Hrefs(anchors[..i + 1])
      == Hrefs(anchors[..i]) + (if anchors[i].Some? then [anchors[i].value] else [])
    ensures Probes(rootUrl, anchors[..i + 1], outcomes[..i + 1])
      == Probes(rootUrl, anchors[..i], outcomes[..i])
         + (if anchors[i].Some? then [Probe(Resolve(rootUrl, anchors[i].value), outcomes[i])] else [])
  {
    assert anchors[..i + 1][..i] == anchors[..i];
    assert outcomes[..i + 1][..i] == outcomes[..i];
  }

  /** The j-th probe requests the j-th href, resolved against the root URL. */
  lemma {:induction false} ProbeUrls(rootUrl: string, anchors: seq<Option<string>>, outcomes: seq<Outcome>, j: nat)
    requires |outcomes| == |anchors| && j < |Hrefs(anchors)|
    ensures Probes(rootUrl, anchors, outcomes)[j].url == Resolve(rootUrl, Hrefs(anchors)[j])
  {
    var n := |anchors| - 1;
    assert anchors == anchors[..n] + [anchors[n]];
    if j < |Hrefs(anchors[..n])| {
      ProbeUrls(rootUrl, anchors[..n], outcomes[..n], j);
    }
  }

  /** A page under https://example.test/ with an absolute link, a
      root-relative link, an empty href, an anchor without an href and a link
      to another host: four links are counted, the root URL is prepended
      whole (giving a double slash), and the empty href probes the root URL
      itself. */
  lemma ExamplePage()
    ensures |Hrefs([Some("https://example.test/a"), Some("/b"), Some(""), None, Some("https://404.example.test/")])| == 4
    ensures Resolve("https://example.test/", "https://example.test/a") == "https://example.test/a"
    ensures Resolve("https://example.test/", "/b") == "https://example.test//b"
    ensures Resolve("https://example.test/", "") == "https://example.test/"
    ensures Resolve("https://example.test/", "https://404.example.test/") == "https://404.example.test/"
  {
    var anchors := [Some("https://example.test/a"), Some("/b"), Some(""), None, Some("https://404.example.test/")];
    HrefsCount(anchors);
    assert multiset(anchors)[None] == 1;
    assert "https://example.test/a"[..8] == "https://";
    assert "https://404.example.test/"[..8] == "https://";
  }
}
