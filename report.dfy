/**
 * internal/crawl/crawler.go: the crawl's task and result values, processResult
 * (how one result is recorded in the report) and the grouping of failed pages
 * done by PrintSummaryAndLinks.
 */
module Report {
  import opened Wrappers
  import opened Seqs
  import opened Urls
  import opened Fetch

  /** One URL to fetch, with the depth still allowed below it. */
  datatype CrawlTask = CrawlTask(url: Url, depth: int)

  /** What a worker sends back for one task. */
  datatype CrawlResult = CrawlResult(
    task: CrawlTask,
    links: seq<string>,
    failedLinks: seq<string>,
    err: Option<FetchError>,
    statusCode: int,
    duration: int)

  const NetworkErrorKind: string := "Network Error"
  const ClientErrorKind: string := "Client Error"
  const ServerErrorKind: string := "Server Error"
  const UnknownStatusKind: string := "Unknown Status"

  /** The Message of a CrawlError: the fetch error, or the status code with its text. */
  datatype ErrorDetail = ConnectionFailed(cause: FetchError) | HttpStatus(code: int, text: string)

  datatype CrawlError = CrawlError(kind: string, detail: ErrorDetail)

  /** How a result is recorded: a successful page with its duration, or a failed page. */
  datatype Outcome = Succeeded(duration: int) | Failed(error: CrawlError)

  /** http.StatusText, with "Unknown Status" for codes it does not know. */
  function StatusTextOrUnknown(statusText: int -> string, code: int): (text: string)
    ensures text != ""
  {
    var t := statusText(code);
    if t == "" then UnknownStatusKind else t
  }

  /**
   * The classification rule of processResult: a fetch error is a network
   * error; otherwise 200-399 succeed (redirects included), 400-499 are client
   * errors, 500-599 server errors, and every other code is unknown.
   */
  function Classify(statusText: int -> string, res: CrawlResult): (out: Outcome)
    ensures out.Succeeded? <==> res.err.None? && 200 <= res.statusCode < 400
    ensures out.Succeeded? ==> out.duration == res.duration
    ensures out.Failed? ==> out.error.kind in {NetworkErrorKind, ClientErrorKind, ServerErrorKind, UnknownStatusKind}
    ensures out.Failed? && out.error.kind == NetworkErrorKind <==> res.err.Some?
    ensures out.Failed? && out.error.kind == ClientErrorKind <==> res.err.None? && 400 <= res.statusCode < 500
    ensures out.Failed? && out.error.kind == ServerErrorKind <==> res.err.None? && 500 <= res.statusCode < 600
    ensures out.Failed? && out.error.kind == UnknownStatusKind <==>
      res.err.None? && (res.statusCode < 200 || res.statusCode >= 600)
    ensures out.Failed? && res.err.None? ==> out.error.detail == HttpStatus(res.statusCode, StatusTextOrUnknown(statusText, res.statusCode))
  {
    if res.err.Some? then Failed(CrawlError(NetworkErrorKind, ConnectionFailed(res.err.value)))
    else
      var s := res.statusCode;
      var detail := HttpStatus(s, StatusTextOrUnknown(statusText, s));
      if 200 <= s < 300 then Succeeded(res.duration)
      else if 300 <= s < 400 then Succeeded(res.duration)
      else if 400 <= s < 500 then Failed(CrawlError(ClientErrorKind, detail))
      else if 500 <= s < 600 then Failed(CrawlError(ServerErrorKind, detail))
      else Failed(CrawlError(UnknownStatusKind, detail))
  }

  /** The report sections of PrintSummaryAndLinks that failed pages are listed under. */
  datatype Group = ClientErrors | ServerErrors | NetworkErrors | UnknownErrors

  /** The switch on CrawlError.Type: any kind it does not recognise goes to the unknown section. */
  function GroupOf(kind: string): Group
  {
    if kind == ClientErrorKind then ClientErrors
    else if kind == ServerErrorKind then ServerErrors
    else if kind == NetworkErrorKind then NetworkErrors
    else UnknownErrors
  }

  /**
   * A failed page recorded by processResult is listed in the section its
   * status range calls for: 4xx under client errors, 5xx under server errors,
   * fetch errors under network errors, everything else (0, 1xx, 2xx never, ≥600) under unknown.
   */
  lemma GroupFollowsStatus(statusText: int -> string, res: CrawlResult)
    requires Classify(statusText, res).Failed?
    ensures var g := GroupOf(Classify(statusText, res).error.kind);
      && (g == NetworkErrors <==> res.err.Some?)
      && (g == ClientErrors <==> res.err.None? && 400 <= res.statusCode < 500)
      && (g == ServerErrors <==> res.err.None? && 500 <= res.statusCode < 600)
      && (g == UnknownErrors <==> res.err.None? && (res.statusCode < 200 || 600 <= res.statusCode))
  {
  }

  /** The report: package-level variables of the crawler, updated under its mutex. */
  class Report {
    var totalCrawled: int
    var totalErrors: int
    var successfulPages: map<string, int>
    var allVisitedLinks: set<string>
    var failedPages: map<string, CrawlError>
    var malformedLinks: set<string>
    var externalLinks: set<string>

    constructor ()
      ensures totalCrawled == 0 && totalErrors == 0
      ensures successfulPages == map[] && failedPages == map[]
      ensures allVisitedLinks == {} && malformedLinks == {} && externalLinks == {}
    {
      totalCrawled, totalErrors := 0, 0;
      successfulPages, failedPages := map[], map[];
      allVisitedLinks, malformedLinks, externalLinks := {}, {}, {};
    }

    /** Records every link of `links` as malformed, one at a time. */
    method MarkMalformed(links: seq<string>)
      modifies this`malformedLinks
      ensures malformedLinks == old(malformedLinks) + Elems(links)
    {
      var i := 0;
      while i < |links|
        invariant 0 <= i <= |links|
        invariant malformedLinks == old(malformedLinks) + Elems(links[..i])
      {
        assert links[..i + 1] == links[..i] + [links[i]];
        malformedLinks := malformedLinks + {links[i]};
        i := i + 1;
      }
      assert links[..i] == links;
    }

    /**
     * processResult: exactly one counter goes up by one and the task's URL is
     * written into exactly one of the two page maps, as Classify decides; the
     * unresolvable links are recorded only when there was no fetch error.
     */
    method ProcessResult(lib: UrlLib, statusText: int -> string, res: CrawlResult)
      modifies this`successfulPages, this`failedPages, this`totalCrawled, this`totalErrors, this`malformedLinks
      ensures var key := lib.str(res.task.url);
        match Classify(statusText, res)
        case Succeeded(d) =>
          && successfulPages == old(successfulPages)[key := d] && failedPages == old(failedPages)
          && totalCrawled == old(totalCrawled) + 1 && totalErrors == old(totalErrors)
        case Failed(e) =>
          && failedPages == old(failedPages)[key := e] && successfulPages == old(successfulPages)
          && totalErrors == old(totalErrors) + 1 && totalCrawled == old(totalCrawled)
      ensures malformedLinks == old(malformedLinks) + (if res.err.None? then Elems(res.failedLinks) else {})
      ensures allVisitedLinks == old(allVisitedLinks) && externalLinks == old(externalLinks)
    {
      var key := lib.str(res.task.url);
      ghost var out := Classify(statusText, res);
      if res.err.Some? {
        assert out == Failed(CrawlError(NetworkErrorKind, ConnectionFailed(res.err.value)));
        failedPages := failedPages[key := CrawlError(NetworkErrorKind, ConnectionFailed(res.err.value))];
        totalErrors := totalErrors + 1;
        return;
      }
      MarkMalformed(res.failedLinks);
      var text := StatusTextOrUnknown(statusText, res.statusCode);
      var s := res.statusCode;
      ghost var detail := HttpStatus(s, text);
      if 200 <= s < 300 {
        assert out == Succeeded(res.duration);
        totalCrawled := totalCrawled + 1;
        successfulPages := successfulPages[key := res.duration];
      } else if 300 <= s < 400 {
        assert out == Succeeded(res.duration);
        totalCrawled := totalCrawled + 1;
        successfulPages := successfulPages[key := res.duration];
      } else if 400 <= s < 500 {
        assert out == Failed(CrawlError(ClientErrorKind, detail));
        totalErrors := totalErrors + 1;
        failedPages := failedPages[key := CrawlError(ClientErrorKind, HttpStatus(s, text))];
      } else if 500 <= s < 600 {
        assert out == Failed(CrawlError(ServerErrorKind, detail));
        totalErrors := totalErrors + 1;
        failedPages := failedPages[key := CrawlError(ServerErrorKind, HttpStatus(s, text))];
      } else {
        assert out == Failed(CrawlError(UnknownStatusKind, detail));
        totalErrors := totalErrors + 1;
        failedPages := failedPages[key := CrawlError(UnknownStatusKind, HttpStatus(s, text))];
      }
    }
  }

  /**
   * `group` holds exactly the failed pages outside `pending` whose kind falls
   * in section `g`, each with its own error.
   */
  ghost predicate GroupedAs(group: map<string, CrawlError>, failedPages: map<string, CrawlError>,
                            pending: set<string>, g: Group)
  {
    && (forall u :: u in group <==> u in failedPages && u !in pending && GroupOf(failedPages[u].kind) == g)
    && (forall u :: u in group ==> group[u] == failedPages[u])
  }

  /** Taking one more page off `pending` adds it to its own section and to no other. */
  lemma GroupedStep(group: map<string, CrawlError>, failedPages: map<string, CrawlError>,
                    pending: set<string>, g: Group, pageURL: string)
    requires GroupedAs(group, failedPages, pending, g) && pageURL in pending && pageURL in failedPages
    ensures GroupOf(failedPages[pageURL].kind) == g ==>
      GroupedAs(group[pageURL := failedPages[pageURL]], failedPages, pending - {pageURL}, g)
    ensures GroupOf(failedPages[pageURL].kind) != g ==> GroupedAs(group, failedPages, pending - {pageURL}, g)
  {
  }

  /**
   * The grouping loop of PrintSummaryAndLinks: each failed page goes, with its
   * CrawlError, into exactly one of four maps, chosen by its kind.
   */
  method GroupFailures(failedPages: map<string, CrawlError>)
    returns (clientErrors: map<string, CrawlError>, serverErrors: map<string, CrawlError>,
             networkErrors: map<string, CrawlError>, unknownErrors: map<string, CrawlError>)
    ensures GroupedAs(clientErrors, failedPages, {}, ClientErrors)
    ensures GroupedAs(serverErrors, failedPages, {}, ServerErrors)
    ensures GroupedAs(networkErrors, failedPages, {}, NetworkErrors)
    ensures GroupedAs(unknownErrors, failedPages, {}, UnknownErrors)
  {
    clientErrors, serverErrors, networkErrors, unknownErrors := map[], map[], map[], map[];
    var remaining := failedPages.Keys;
    while remaining != {}
      invariant remaining <= failedPages.Keys
      invariant GroupedAs(clientErrors, failedPages, remaining, ClientErrors)
      invariant GroupedAs(serverErrors, failedPages, remaining, ServerErrors)
      invariant GroupedAs(networkErrors, failedPages, remaining, NetworkErrors)
      invariant GroupedAs(unknownErrors, failedPages, remaining, UnknownErrors)
      decreases remaining
    {
      var pageURL :| pageURL in remaining;
      GroupedStep(clientErrors, failedPages, remaining, ClientErrors, pageURL);
      GroupedStep(serverErrors, failedPages, remaining, ServerErrors, pageURL);
      GroupedStep(networkErrors, failedPages, remaining, NetworkErrors, pageURL);
      GroupedStep(unknownErrors, failedPages, remaining, UnknownErrors, pageURL);
      remaining := remaining - {pageURL};
      var errInfo := failedPages[pageURL];
      if errInfo.kind == ClientErrorKind {
        clientErrors := clientErrors[pageURL := errInfo];
      } else if errInfo.kind == ServerErrorKind {
        serverErrors := serverErrors[pageURL := errInfo];
      } else if errInfo.kind == NetworkErrorKind {
        networkErrors := networkErrors[pageURL := errInfo];
      } else {
        unknownErrors := unknownErrors[pageURL := errInfo];
      }
    }
  }

  /**
   * The four sections of the summary partition the failed pages: every failed
   * page is listed in exactly one of them, under the error it was recorded with.
   */
  lemma GroupsPartition(failedPages: map<string, CrawlError>,
                        c: map<string, CrawlError>, s: map<string, CrawlError>,
                        n: map<string, CrawlError>, u: map<string, CrawlError>)
    requires GroupedAs(c, failedPages, {}, ClientErrors) && GroupedAs(s, failedPages, {}, ServerErrors)
    requires GroupedAs(n, failedPages, {}, NetworkErrors) && GroupedAs(u, failedPages, {}, UnknownErrors)
    ensures c.Keys + s.Keys + n.Keys + u.Keys == failedPages.Keys
    ensures c.Keys !! s.Keys && c.Keys !! n.Keys && c.Keys !! u.Keys
    ensures s.Keys !! n.Keys && s.Keys !! u.Keys && n.Keys !! u.Keys
  {
    forall p | p in failedPages.Keys
      ensures p in c.Keys + s.Keys + n.Keys + u.Keys
    {
      match GroupOf(failedPages[p].kind)
      case ClientErrors => assert p in c;
      case ServerErrors => assert p in s;
      case NetworkErrors => assert p in n;
      case UnknownErrors => assert p in u;
    }
  }
}
