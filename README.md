# CrawlX in Dafny

CrawlX is a same-domain web crawler written in Go. Given a start URL and a depth limit, it fetches pages and extracts the `<a href>` links of each. It resolves those links against the page URL and follows the ones whose host lies in the start URL's domain, one level shallower each time. Every page is classified (success, client error, server error, network error, unknown status) into a report.

This project models the crawler's decision logic and proves properties of it. It covers:

- **Crawl engine** (`dispatch.dfy`, module `Dispatch`). The dispatcher owns the visited set and the task channel. It consumes results, records them and applies the depth and domain policy to every discovered link. The goroutines become one sequential loop (`Dispatcher.Run`) that alternates worker steps and dispatcher steps. Both channels are FIFO sequences of capacity `TaskBufferSize` = 100. A full task channel drops the link, as the non-blocking send does.
- **Report** (`report.dfy`, module `Report`). `processResult` classifies a result by its error and status range and writes it into the report's maps and counters. The summary groups failed pages into four sections.
- **Fetching** (`fetch.dfy`, module `Fetch`). `checkAndResolveURL` shapes the outcome of one HTTP exchange: scheme-prefix rejection, the 3xx short-circuit and the HTML parse error. `checkAndResolveURLWithRetry` makes at most `MaxRetries` = 3 attempts with linear backoff and summed durations.
- **Link extraction and resolution** (`parser.dfy`, module `Parser`). `ExtractLinks` works over an HTML node-tree datatype. `ResolveLinks` is a loop over the href map.
- **Helpers** (`helpers.dfy`, module `Helpers`). The same-domain predicate and the status colour.
- **Start-URL validation** (`validate.dfy`, module `Validate`). The ordered early-return checks of `validateURL`, with Go's `strings.Count`, `strings.Split` and `strconv.Atoi` modelled in `text.dfy` (module `Text`).
- **Earlier recursive crawler** (`legacy.dfy`, module `Legacy`). The depth-first `Crawl` of `cmd/crawl.go`, with its global visited set and three counters, and its own single-attempt fetch.

Everything the code does not compute itself is a parameter. This covers net/url (`Parse`, `ResolveReference`, `String`), `http.StatusText`, the HTTP exchange and `html.Parse`.
- `UrlLib` bundles the URL functions.
- The network is an oracle that gives the `HttpOutcome` of attempt *i* on a URL: a request error, a transport error, or a response with status, duration and body. The body is an unparsable document or a node tree.
- The order in which the two loops interleave is an oracle too, `schedule`. It picks between whole steps: a dispatcher step (one result, all its links) or a worker step (one task).
- Go's unordered map iteration becomes a nondeterministic choice. Where the result depends on that order (`ResolveLinks`), a ghost `order` output records the order actually taken.

Some behaviours of the code worth knowing, which the model keeps:
- **Unparsable page URL.** When the page URL does not parse, `ResolveLinks` (internal/parse/parser.go:32-36) returns no links at all; its hrefs are not recorded as malformed. `Parser.ResolveLinks` does the same.
- **Error after the last retry.** When every attempt fails, the last error is wrapped in a "failed after 3 attempts" error (internal/crawl/crawler.go:329), modelled as `RetriesExhausted(3, last)`.
- **Non-HTTP links.** The dispatcher enqueues any same-domain link that parses, whatever its scheme (internal/crawl/crawler.go:181-193). Such a link then fails all three attempts with "unsupported protocol scheme" and is recorded as a network error.

## Model

| member | source | states |
|---|---|---|
| Parser.ExtractLinks | internal/parse/parser.go:11-27 | every value stored in the returned map is `false` |
| Parser.ExtractLinksExact | internal/parse/parser.go:11-27 | the keys are exactly the href values of the anchor element nodes anywhere in the tree |
| Parser.ExtractedIsAnchorHref | internal/parse/parser.go:13-25 | every returned link is the href of some `<a>` element node of the tree |
| Parser.AnchorHrefIsExtracted | internal/parse/parser.go:13-25 | every href attribute of every `<a>` element at any depth is returned, several hrefs on one anchor included |
| Parser.OwnContribution | internal/parse/parser.go:13-25 | an anchor contributes each of its href values; any other node contributes nothing but its children's links |
| Parser.SubtreeLinks | internal/parse/parser.go:20-25 | the links of a subtree are a subset of the links of the whole tree |
| Parser.ResolveLinks | internal/parse/parser.go:30-47 | nothing when the base URL does not parse; otherwise one resolved entry per parsable href, in visiting order, unparsable hrefs dropped; never more entries than hrefs |
| Parser.ResolutionLength | internal/parse/parser.go:32-45 | the output is no longer than the parsable hrefs, which are no more than the hrefs; with a parsable base it has exactly one entry per parsable href |
| Helpers.IsSameDomain | internal/util/helpers.go:17-22 | a host in the base domain is at least as long as the base host, and strictly longer when it differs from it |
| Helpers.SameDomainIsDotSuffix | internal/util/helpers.go:21 | a host other than the base is in its domain exactly when it is some prefix, a dot, then the base host |
| Helpers.SameDomainTransitive | internal/util/helpers.go:17-22 | a subdomain of a subdomain of a domain is in that domain |
| Helpers.SameDomainAntisymmetric | internal/util/helpers.go:17-22 | two hosts each in the other's domain are equal |
| Helpers.SameDomainExamples | internal/util/helpers.go:18-21 | "a.example.com" is in "example.com", "notexample.com" is not, and "example.com" is in its own domain |
| Helpers.SameDomainReflexive | internal/util/helpers.go:18-20 | every host is in its own domain |
| Helpers.GetColor | internal/util/helpers.go:25-32 | red exactly for status >= 400, yellow exactly for 300-399, green exactly below 300 (0 and negatives included), and always one of the three |
| Text.Count | cmd/crawlx/main.go:75 | strings.Count counts non-overlapping occurrences: they fit in the string |
| Text.CountPositive | cmd/crawlx/main.go:75 | the count is at least one exactly when the separator occurs somewhere in the string |
| Text.CountMoreThanOnce | cmd/crawlx/main.go:75 | the count is more than one exactly when the separator occurs twice without overlapping, which is the case the multiple-"://" check refuses |
| Text.Split | cmd/crawlx/main.go:102 | strings.Split gives at least one piece, at least two when the separator occurs, and no piece holds the separator |
| Text.JoinSplit | cmd/crawlx/main.go:102 | joining the pieces with the separator gives back the string |
| Text.SplitLastIsAfterLast | cmd/crawlx/main.go:102-106 | the last piece is the text after the last separator |
| Text.Atoi | cmd/crawlx/main.go:107 | strconv.Atoi succeeds only on an optional sign followed by one or more digits, with a value in the int64 range; it succeeds on every such string of at most 18 digits |
| Validate.Preflight | cmd/crawlx/main.go:71-90 | a URL passing the checks made before the host is inspected is the one net/url parses, with scheme http or https and a non-empty host |
| Validate.PreflightOrder | cmd/crawlx/main.go:71-90 | each early error arises exactly when the checks before it pass and its own condition fails, in the source's order: empty string, more than one "://", parse failure, scheme, host |
| Validate.CheckHost | cmd/crawlx/main.go:92-110 | the host checks never report "invalid domain name": the fewer-than-two-labels branch cannot be reached |
| Validate.CheckHostSound | cmd/crawlx/main.go:92-110 | the host checks pass exactly when an IP-looking host is allowed, or a non-IP host has a dot and the text after its last dot is not an integer; each error arises exactly in its own case, and the numeric-TLD error names that text |
| Validate.ValidateURL | cmd/crawlx/main.go:70-113 | an accepted URL is returned unchanged as parsed, and "invalid domain name" is never the answer |
| Validate.ValidateAccepts | cmd/crawlx/main.go:70-113 | a URL is accepted exactly when it is non-empty, holds "://" at most once, parses, has scheme http or https and a host, and the host passes the host checks |
| Validate.AllowIpOnlyWidens | cmd/crawlx/main.go:92-97 | --allow-ip never rejects what is otherwise accepted, and it changes a verdict only from "IP not allowed" to acceptance |
| Validate.IpWithPortAccepted | cmd/crawlx/main.go:92-109 | as written, a dotted IP address with a port is accepted although IP addresses are not allowed |
| Validate.IpWithPortPassesHostChecks | cmd/crawlx/main.go:92-109 | the host of such a URL, port included, does not look like an IP and its last label is not a number |
| Validate.HostnameDropsPort | cmd/crawlx/main.go:92 | the host name of "ip:port" is the IP address |
| Validate.ValidateHostname | cmd/crawlx/main.go:70-113 | with the host checks made on the host name without the port, an accepted URL is still returned as parsed |
| Validate.IpWithPortRefused | cmd/crawlx/main.go:92-97 | the corrected check refuses an IP address with a port unless --allow-ip is given, and accepts it when it is |
| Validate.HostnameAgreesWithoutPort | cmd/crawlx/main.go:92-112 | on a host without a port or brackets the corrected check gives the original verdict |
| Fetch.CheckAndResolveURL | internal/crawl/crawler.go:333-364 | the outcome of one attempt: status 0, duration 0 and an error for a non-http(s) target, a request that cannot be built or a failed fetch; the status with no links and no error for 3xx; the status and an error for an unparsable body; otherwise the status, the resolved links and the failed links; errors never carry links |
| Fetch.CheckAndResolveURLWithRetry | internal/crawl/crawler.go:311-330 | one to three attempts, each the outcome of its exchange, all but the last failed; sleeps of RetryDelay*(i+1) only between attempts; the first success is returned with the durations summed; otherwise no links, status 0, the summed duration and the last error wrapped |
| Fetch.RetryUnsupportedScheme | internal/crawl/crawler.go:334-336 | a target without an http(s) prefix fails all three attempts with status 0 and duration 0 |
| Fetch.RetryRedirect | internal/crawl/crawler.go:352-354 | a 3xx response returns after one attempt, with no links, no error and no sleep |
| Fetch.RetryDocument | internal/crawl/crawler.go:356-363 | a parsed document returns after one attempt with its status, its resolved links, its failed links and its duration |
| Fetch.RetryUnparsable | internal/crawl/crawler.go:356-358 | a body that never parses is tried three times with two sleeps and ends with status 0, no links and the parse error |
| Report.StatusTextOrUnknown | internal/crawl/crawler.go:241-244 | the status text written into a failure message is never empty |
| Report.Classify | internal/crawl/crawler.go:224-274 | success exactly for no error and status 200-399, with the result's duration; a network error exactly on a fetch error; a client error exactly for 400-499, a server error for 500-599, an unknown status otherwise; an HTTP failure carries its code and status text |
| Report.GroupFollowsStatus | internal/crawl/crawler.go:399-410 | the summary section of a failed page follows its result: network for a fetch error, client for 4xx, server for 5xx, unknown for anything else |
| Report.GroupFailures | internal/crawl/crawler.go:393-410 | each section holds exactly the failed pages whose error type belongs to it, with their errors |
| Report.GroupsPartition | internal/crawl/crawler.go:399-410 | the four sections are pairwise disjoint and together hold every failed page |
| Report.Report.constructor | internal/crawl/crawler.go:43-49 | the report starts with zero counters and empty maps |
| Report.Report.MarkMalformed | internal/crawl/crawler.go:235-239 | the malformed links gain exactly the given links |
| Report.Report.ProcessResult | internal/crawl/crawler.go:220-274 | exactly one of the success and failure maps gains the page and exactly one counter goes up by one, as the classification says; failed links are recorded only when there was no fetch error; nothing else changes |
| Dispatch.LinksStep | internal/crawl/crawler.go:172-208 | handling one more link adds it to the malformed links if it does not parse, to the external links if its host is outside the start domain, and its printed URL to the internal keys otherwise |
| Dispatch.Weight | internal/crawl/crawler.go:169 | every task weighs at least one in the termination measure |
| Dispatch.ChildrenLighter | internal/crawl/crawler.go:189 | up to TaskBufferSize children at depth-1 weigh less than their parent, so the model's dispatcher loop ends (the code's loop ends because each page has finitely many links and the depth goes down) |
| Dispatch.Work | internal/crawl/crawler.go:126-136 | a worker's result is for the task it took and carries exactly what the retry wrapper returns for its URL, attempt i seeing the network's i-th exchange; a fetch error comes with no links, no failed links and status 0 |
| Dispatch.SendsSound | internal/crawl/crawler.go:172-210 | the links handled so far send or drop each of their new same-domain keys exactly once and nothing else; the tasks sent are at the given depth, fill at most the free room, and a key is dropped only once that room is used up |
| Dispatch.SendsDropOnlyWhenFull | internal/crawl/crawler.go:196-201 | keys are dropped only after the tasks sent have filled the room the channel had |
| Dispatch.SendsAdvance | internal/crawl/crawler.go:172-207 | what one more link sends, as HandleLink decides it, extends the tasks the earlier links sent exactly as the reference sending does |
| Dispatch.SendsDropped | internal/crawl/crawler.go:183-201 | when the keys sent extend the schedule and the links' keys the visited set, the dropped keys grow by exactly the keys the links drop |
| Dispatch.LinksSent | internal/crawl/crawler.go:172-210 | after a run of links, the dropped keys grew by exactly what the reference sending drops, and only when the queue is full |
| Dispatch.OnceGrown | internal/crawl/crawler.go:183-201 | between two scheduling records, the dropped keys grew by exactly the newly visited keys that were not scheduled |
| Dispatch.OnceQueue | internal/crawl/crawler.go:183-193 | sending a newly visited URL keeps every visited URL scheduled or dropped, exactly once |
| Dispatch.OnceDrop | internal/crawl/crawler.go:196-201 | dropping a newly visited URL for a full channel keeps that record; it is never scheduled later |
| Dispatch.PageAdded | internal/crawl/crawler.go:248-273 | recording one new page keeps the success and failure pages a partition of the handled URLs |
| Dispatch.Dispatcher.constructor | internal/crawl/crawler.go:151-158 | the start URL is marked visited, in the report as well, and its task at the initial depth is the only one queued |
| Dispatch.Dispatcher.WorkerStep | internal/crawl/crawler.go:115-139 | the head task leaves the task channel; a result that the retry wrapper yields for its URL is appended to the result channel, and its URL is fetched; the invariant and the termination measure are kept |
| Dispatch.Dispatcher.WorkerStepKeeps | internal/crawl/crawler.go:115-139 | a worker step keeps the dispatcher's invariant and the scheduled URLs |
| Dispatch.Dispatcher.Admit | internal/crawl/crawler.go:183-201 | an unvisited same-domain URL is marked visited before the send, then queued when the channel has room and dropped otherwise |
| Dispatch.Dispatcher.AdmitKeeps | internal/crawl/crawler.go:183-201 | marking and then queueing or dropping keeps the invariant |
| Dispatch.Dispatcher.HandleLink | internal/crawl/crawler.go:173-207 | a malformed link goes to the malformed links, an external one to the external links, and neither is queued; an internal one is queued exactly when it is unvisited and the channel has room, and dropped when unvisited and the channel is full |
| Dispatch.Dispatcher.ExpandLinks | internal/crawl/crawler.go:170-210 | the visited set, malformed links and external links gain exactly the links' contributions; the tasks sent are the same-domain links not visited before, in link order, at the given depth, while the channel had room, and the dropped keys grow by exactly the rest; keys are dropped only when the queue is full; the count of sends is the number added; the visited and dropped sets only grow |
| Dispatch.Dispatcher.HandleLinks | internal/crawl/crawler.go:172-209 | the range loop: after every prefix of the links, the queue holds the tasks the reference sending gives for that prefix and the three sets hold that prefix's contributions |
| Dispatch.Dispatcher.ExpandLink | internal/crawl/crawler.go:172-208 | one turn of the range loop extends that record from a prefix to the next link |
| Dispatch.Dispatcher.Record | internal/crawl/crawler.go:162-166 | the oldest result is taken and recorded as processResult records it, and its URL joins the handled pages |
| Dispatch.Dispatcher.RecordKeepsOrder | internal/crawl/crawler.go:162-166 | results are handled in the order their tasks were fetched, each once |
| Dispatch.Dispatcher.RecordKeeps | internal/crawl/crawler.go:162-166 | recording a result keeps the invariant and lowers the measure by the task's weight |
| Dispatch.Dispatcher.Expand | internal/crawl/crawler.go:169-211 | links are expanded only for no error, status below 400 and depth above 0, and then exactly as ExpandLinks says, with the tasks sent and the keys dropped given by the reference sending; children are always at depth-1; otherwise nothing changes; the visited and dropped sets only grow |
| Dispatch.Dispatcher.HandleResult | internal/crawl/crawler.go:162-211 | the oldest result is handled: the report records it as processResult does, its failed links and the links' malformed and external ones are added, the visited set gains the links' same-domain keys when the result expands, and the dropped keys grow by exactly the newly visited keys not sent; the tasks sent are exactly Expansion's for that result from the state before the step (its same-domain children at depth-1, while the task channel has room), a key is dropped only when the channel is full, the visited and dropped sets only grow, and the measure strictly decreases |
| Dispatch.Dispatcher.Run | internal/crawl/crawler.go:160-216 | the loop ends with both channels empty and every fetched URL handled once, in order, the start URL first; each visited URL was handled or dropped, never both; the report lists each handled page once and its counters add up to the number handled; the visited and dropped sets only grow |
| Dispatch.Crawl | internal/crawl/crawler.go:67-109 | after the seed send and the run, the report holds every handled page exactly once, as a success or as a failure, and the visited links are the handled pages plus the dropped ones |
| Legacy.LegacyCheckAndResolveURL | cmd/crawl.go:72-106 | status 0 and no links for a non-http(s) target, a request that cannot be built or a failed fetch; the status and no links for 3xx or an unparsable body; otherwise the status and the resolved links |
| Legacy.LegacyAgreesWithAttempt | cmd/crawl.go:72-106 | the earlier fetch reports the same status as one attempt of the current one, and links only when that attempt succeeds |
| Legacy.TallyMatchesColor | cmd/crawl.go:173-188 | the counter a page goes to matches its printed colour: errors red, warnings yellow, crawled green |
| Legacy.WithinConcat | cmd/crawl.go:199-207 | the pages reached from a same-domain link stay in the start domain |
| Legacy.LegacyCrawler.constructor | cmd/crawl.go:25-32 | the visited set is empty and the counters are zero |
| Legacy.LegacyCrawler.Count | cmd/crawl.go:173-179 | status >= 400 adds one error, 300-399 one warning, anything else (0 included) one crawled page, and no other counter changes |
| Legacy.LegacyCrawler.CountersMatchVisited | cmd/crawl.go:166-179 | the three counters add up to the number of visited URLs |
| Legacy.LegacyCrawler.Crawl | cmd/crawl.go:160-209 | a visited URL or a negative depth changes nothing; otherwise the target is fetched first, every URL is fetched at most once, the counters keep summing to the visited URLs, and every page fetched besides the target lies in the start domain |

## Left out

- Goroutines, channels, the wait groups, the mutexes and context cancellation (internal/crawl/crawler.go:67-145), with every `ctx.Done()` return. One sequential loop whose interleaving comes from the `schedule` oracle replaces them.
- Dispatch.Dispatcher.Run: with ten concurrent workers, results may arrive out of fetch order. The model has one worker step at a time, so results come back in fetch order. The closing drain of the result channel (internal/crawl/crawler.go:105-108) always finds it empty here.
- Dispatch.Dispatcher.HandleResult: a dispatcher step runs whole, with no worker step inside it; `schedule` picks only between whole steps. In the code, workers keep receiving from the task channel (internal/crawl/crawler.go:115-139) while the dispatcher's `range res.links` loop sends without blocking (internal/crawl/crawler.go:170-210), so the free room can grow during one result's links. Under such an interleaving one result can send more tasks than the room it started with, even more than TaskBufferSize, and which keys are dropped depends on timing. So the exact `sent == Expansion(…).sent` clause, the drop-only-when-full clause and the at-most-TaskBufferSize children behind Dispatch.ChildrenLighter hold for the modelled interleaving only. The invariants the steps keep (each visited URL scheduled or dropped exactly once, channel capacity, depths, pending accounting) do not depend on this.
- Dispatch.Dispatcher.HandleResult: the body expands the result before it records it, while the code records first (internal/crawl/crawler.go:162-169). The two steps change different fields, except the malformed links, to which both only add. The end state is the same, but the intermediate state between the two steps is not the code's.
- `pendingTasks` is a local of `Run`, as in the source, and its invariant is stated as queued plus unhandled tasks. There is no separate counter field.
- HTTP requests, the client timeout, the User-Agent header and `html.Parse` are the network oracle. net/url and `http.StatusText` are uninterpreted functions. RFC 3986 resolution is not re-implemented.
- Report.Report.ProcessResult: the printed progress line, its colour and indentation, and the verbose link listing are not modelled. The rest of `PrintSummaryAndLinks` is left out too: it is terminal rendering.
- Fetch.CheckAndResolveURLWithRetry: `time.Sleep` is a ghost log of requested delays. Durations are unbounded integers, so int64 overflow of summed durations is not modelled.
- Dispatch.Work: the `RequestDelay` pause before each fetch is not modelled. `NumWorkers` only affects concurrency.
- The crawler's failed links come from the network oracle. internal/crawl/crawler.go:362 takes two values from `ResolveLinks`, which returns one.
- Dispatch.Dispatcher.Run: states the bookkeeping of the crawl, not which pages are reached, since that depends on the oracle's documents.
- Legacy.LegacyCrawler.Crawl: states that its pages are the target or same-domain pages. It does not state that they are exactly the pages reachable within the depth.
- Legacy.LegacyCrawler.Crawl: the network oracle gives one exchange per URL, since each URL is fetched at most once per run. The indented progress printing and verbose listing are not modelled.
- Validate.ValidateHostname: the corrected check also refuses an IPv6 literal holding an IPv4 address, such as `http://[::ffff:1.2.3.4]/`, even with --allow-ip. Its host name "::ffff:1.2.3.4" does not look like an IP address, and its last label "4" is a number. The code as written accepts it, since the last label of "[::ffff:1.2.3.4]" is "4]". The model does not decide which verdict is intended for IPv6 hosts.
- Validate.Hostname models net/url's `(*URL).Hostname` only as far as the corrected check needs: a trailing ":digits" and IPv6 brackets are removed.
- The flag setup and `main` of cmd/main.go and cmd/crawlx/main.go, the empty cmd/init.go, and the installer setup.go are not part of this model.
- Counters are unbounded integers (`int`, `nat` in Legacy.LegacyCrawler). Go's `int` overflow cannot be reached by a crawl and is not modelled.

## Findings

| source | as written | input that shows it | evidently intended | confidence | as-written member | corrected member |
|---|---|---|---|---|---|---|
| cmd/crawlx/main.go:92-109 | the IP pattern and the TLD check run on the URL's Host, which includes the port | `http://127.0.0.1:8080` without --allow-ip: the host "127.0.0.1:8080" does not match the IP pattern, and its last label "1:8080" is not a number, so the URL is accepted | run the checks on the host name without the port, so IP addresses are refused unless --allow-ip is given | not executed | Validate.IpWithPortAccepted | Validate.IpWithPortRefused |
