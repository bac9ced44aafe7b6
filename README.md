# WebCrawler link auditor — a Dafny model

WebCrawler fetches one page (the root URL), collects the `href` of every
`<a>` element on it, probes each linked URL once with an HTTP GET and sorts
the links into result arrays. `success_links` holds 2xx responses.
`failed_links` holds every other outcome. Four specific arrays name the
kind of failure: `forbidden_links` (403), `invalid_links` (301, 302 or an
unparsable URL), `timed_out_links` and `exception_links`. Finally it prints
a summary with the elapsed time.

The model keeps the crawler's own structure:

- `outcome.dfy` (module `Outcomes`): `Outcome` is what `open_url` yields
  for a link. It is a response with a status code, or one of the three
  rescued exceptions. `RecordedIn` is the classification table, read by
  array. Status classes follow RFC 9110: 2xx (section 15.3), 403 Forbidden
  (section 15.5.4), 301 Moved Permanently (section 15.4.2) and 302 Found
  (section 15.4.3).
- `tally.dfy` (module `Tallies`): the six arrays as a value (`Tally`).
  `Classify` is `check_availability` for a known outcome. `ClassifyAll`
  classifies a run of finished probes in completion order. The lemmas cover
  accounting: success and failed partition the probed URLs, the specific
  arrays stay within `failed_links`, and the completion test works.
- `links.dfy` (module `Links`): the href filter and resolution of `analyze`.
  `Hrefs` keeps every anchor that has an href, `Resolve` applies the
  `start_with?`/`prepend` rule, and `Probes` lists the probes that get
  dispatched.
- `report.dfy` (module `Report`): `print_result` as a sequence of `Line`
  values. `SplitElapsed` splits the elapsed time into minutes, seconds and
  milliseconds.
- `crawler.dfy` (module `Crawler`): the `WebCrawler` class. Its `seq`
  fields are updated in place by `CheckAvailability` and by the thread body
  `Dispatch`. `Analyze` is the sequential dispatch loop, and `Run` is a
  whole run up to the summary.

The network, the HTML parser and the clock become inputs. Each anchor is an
`Option<string>`, where `None` means the anchor has no `href` attribute.
`outcomes[i]` is what the network answers for anchor `i`. The root page is
`None` when fetching it raised. Elapsed time is a whole number of
milliseconds.

The model follows the code, including in these places where it may
surprise a reader:

- An empty href is counted and probed. It resolves to the root URL itself.
- A relative href gets the whole root URL prepended, path included, not
  the root's origin. So `/b` under `https://example.test/` becomes
  `https://example.test//b` (`Links.ExamplePage`).
- The "found" count printed is `links.size`. After a run on a fresh crawler
  this equals `link_count`, the number of anchors with an href.
- When the 120-second deadline fires, the `Timeout::Error` escapes
  `analyze` and is caught only by the top-level rescue. No summary is
  printed, and `threads.each(&:kill)` is skipped.
- When the root page cannot be fetched, the run also ends with the printed
  exception and no summary. It does not report zero links.

## Model

| member | source | states |
|---|---|---|
| `Tallies.Classify` | web_crawler.rb:82-109 | each of the six arrays gains the URL at its end exactly when the classification table records the outcome there, and keeps its contents otherwise |
| `Tallies.RecordedOnce` | web_crawler.rb:85-108 | every outcome goes to exactly one of success/failed, and to at most one specific array, which is then a failure |
| `Tallies.ClassifyAll` | web_crawler.rb:57-64 | after any run of finished probes, each array is its old contents followed by the URLs of exactly the probes it records, in completion order |
| `Tallies.SuccessFailedPartition` | web_crawler.rb:82-109 | as multisets, the success URLs plus the failed URLs are exactly the probed URLs |
| `Tallies.SpecificPartition` | web_crawler.rb:88-108 | as multisets, forbidden + invalid + timed-out + exception URLs are contained in the failed URLs |
| `Tallies.ClassifyAllAccounts` | web_crawler.rb:82-109 | classifying n probes raises \|success\| + \|failed\| by exactly n, adds each probed URL to exactly one of the two, and keeps the specific arrays within failed_links |
| `Tallies.SpecificWithinFailed` | web_crawler.rb:88-108 | \|forbidden\| + \|invalid\| + \|timed_out\| + \|exception\| <= \|failed\| whenever the arrays are consistent |
| `Tallies.CompletionTest` | web_crawler.rb:67-73 | for any k <= link_count finished probes in any order, the wait condition \|success\| + \|failed\| >= link_count holds exactly when k == link_count |
| `Tallies.ClassifyAllBalanced` | web_crawler.rb:57-64 | recording probes in links and classifying them keeps every recorded link classified exactly once, with the specific arrays within failed_links |
| `Tallies.ClassifyBalanced` | web_crawler.rb:57-64 | one thread body, recording a URL in links and classifying it, keeps every recorded link classified exactly once, with the specific arrays within failed_links |
| `Links.Resolve` | web_crawler.rb:61 | the href is a suffix of the URL; the URL starts with http:// or https:// or with the root URL; it equals the href exactly when the href is absolute or the root is empty, and equals root + href exactly when the href is not absolute or the root is empty |
| `Links.ResolveIdempotent` | web_crawler.rb:61 | with an absolute root URL every resolved URL is absolute and resolving it again changes nothing |
| `Links.Hrefs` | web_crawler.rb:51-55 | at most one href per anchor; document order comes from the definition itself, and which hrefs are kept, and how often, is stated by HrefsCount, HrefsMembers and HrefsMultiset |
| `Links.HrefsCount` | web_crawler.rb:51-55 | link_count equals the number of anchors minus the anchors without an href; empty hrefs count |
| `Links.HrefsMultiset` | web_crawler.rb:51-53 | each string is kept as an href exactly as many times as anchors carry it |
| `Links.HrefsMembers` | web_crawler.rb:51-53 | a string is kept as an href exactly when some anchor carries it |
| `Links.Probes` | web_crawler.rb:44-65 | one probe is dispatched per counted href |
| `Links.ProbeUrls` | web_crawler.rb:57-61 | the j-th probe requests the j-th href resolved against the root URL |
| `Links.ExamplePage` | web_crawler.rb:51-61 | on a sample page, four of five anchors are counted, "/b" becomes root + "/b" with a double slash, and "" probes the root URL |
| `Report.SplitElapsed` | web_crawler.rb:122-125 | seconds below 60, milliseconds below 1000, and (min*60 + sec)*1000 + msec is the elapsed time |
| `Report.SplitElapsedUnique` | web_crawler.rb:122-125 | any in-range minutes/seconds/milliseconds that add up to the elapsed time are the split |
| `Report.SpecificLines` | web_crawler.rb:117-120 | at most four lines; each specific count line appears exactly when its array is non-empty and shows that array's size |
| `Report.Lines` | web_crawler.rb:111-127 | the four fixed lines (root, found, success, failed) first, the elapsed-time line last, and in between exactly the specific count lines |
| `Crawler.WebCrawler.constructor` | web_crawler.rb:15-24 | the root URL is kept, and links and all six arrays start empty |
| `Crawler.WebCrawler.CheckAvailability` | web_crawler.rb:82-109 | the arrays become Classify of the old arrays, \|success\| + \|failed\| grows by exactly one, and links is unchanged |
| `Crawler.WebCrawler.Dispatch` | web_crawler.rb:57-64 | links gains the resolved URL, because the href object is changed in place after being recorded, and the arrays are that URL classified; Tallies.ClassifyBalanced shows this step keeps every recorded link classified exactly once |
| `Crawler.WebCrawler.Analyze` | web_crawler.rb:38-65 | link_count is the number of anchors with an href; links gains the resolved URLs in order; the arrays are all those probes classified; \|success\| + \|failed\| grows by link_count |
| `Crawler.WebCrawler.Run` | web_crawler.rb:26-34 | a failed root fetch changes nothing and prints no summary; otherwise the state is as after Analyze, the summary is the print_result lines, and every recorded link stays classified exactly once |
| `Crawler.FreshRunSummary` | web_crawler.rb:111-115 | on a fresh crawler the found line shows link_count, success + failed add up to it, and the specific counts stay within failed |

## Left out

- Network I/O: `Net::HTTP.get_response`, `URI(...)` parsing and the per-request `Timeout.timeout` are replaced by the given `Outcome` of each probe. No URL syntax is modelled.
- HTML parsing: Nokogiri and the `//a` XPath query are replaced by the given list of anchors' href values.
- Concurrency: threads, and the admission throttle `Thread.list.size < MAX_NUM_THREADS` with its `sleep` polling, are not modelled. Probes run one after another in document order, so the order of the arrays is one of the orders the threads could produce. The throttle counts the main thread too, so at most 19 probe threads run at once. This is noted, not modelled.
- The 120-second deadline and `threads.each(&:kill)` are not modelled as a run. A run that hits the deadline prints no summary. `Tallies.CompletionTest` covers the wait condition for any partial set of finished probes.
- Clock reads and floating point: `Time.now` and the float subtraction are replaced by a whole number of elapsed milliseconds. A clock that goes backwards, which would give a negative time, is not modelled.
- Console output: `puts` of the summary is modelled as a list of `Line` values, without the text formatting. The error message and backtrace printed for other exceptions are not modelled. Neither are the `ARGV` check, the usage message or `exit(1)`.
