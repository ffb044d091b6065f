/**
 * cmd/crawl.go: the earlier, sequential crawler. A depth-first recursion
 * over same-domain links with one visited set and three counters, and its
 * own single-attempt fetch that returns only links and a status code.
 * Its extractLinks, resolveLinks and isSameDomain are the ones of Parser and
 * Helpers, which they repeat line for line.
 */
module Legacy {
  import opened Wrappers
  import opened Seqs
  import opened Urls
  import opened Parser
  import opened Helpers
  import opened Fetch

  /**
   * What the earlier checkAndResolveURL returns for `target` when the HTTP
   * exchange went as `http` says: status 0 and no links for an unsupported
   * scheme, a request that could not be built or a failed fetch; the
   * response status with no links for a redirect or a body that does not
   * parse; otherwise the status and the resolved links of the document.
   */
  ghost predicate LegacyYields(lib: UrlLib, target: string, http: HttpOutcome, links: seq<string>, statusCode: int)
  {
    if !HasHttpScheme(target) then links == [] && statusCode == 0
    else match http
      case RequestError(_) => links == [] && statusCode == 0
      case TransportError(_) => links == [] && statusCode == 0
      case Response(status, _, body) =>
        && statusCode == status
        && if 300 <= status < 400 then links == []
           else match body
             case Unparsable(_) => links == []
             case Document(root, _) => ResolvesTo(lib, ExtractLinks(root), target, links)
  }

  method LegacyCheckAndResolveURL(lib: UrlLib, http: HttpOutcome, targetURL: string)
    returns (links: seq<string>, statusCode: int)
    ensures LegacyYields(lib, targetURL, http, links, statusCode)
  {
    if !HasHttpScheme(targetURL) {
      return [], 0;
    }
    match http {
      case RequestError(_) =>
        return [], 0;
      case TransportError(_) =>
        return [], 0;
      case Response(status, _, body) =>
        if 300 <= status < 400 {
          return [], status;
        }
        match body {
          case Unparsable(_) =>
            return [], status;
          case Document(root, _) =>
            var linkMap := ExtractLinks(root);
            ghost var order;
            links, order := ResolveLinks(lib, linkMap, targetURL);
            return links, status;
        }
    }
  }

  /**
   * The earlier fetch reports the same status code as one attempt of the
   * current one on every exchange, and no links whenever that attempt
   * reports an error.
   */
  lemma LegacyAgreesWithAttempt(lib: UrlLib, target: string, http: HttpOutcome,
                                links: seq<string>, statusCode: int, o: FetchOutcome)
    requires LegacyYields(lib, target, http, links, statusCode) && AttemptYields(lib, target, http, o)
    ensures statusCode == o.statusCode
    ensures o.err.Some? ==> links == []
    ensures links != [] ==> o.err.None? && o.statusCode == http.statusCode
  {
  }

  /** The counter a page is added to. */
  datatype Tally = Crawled | Warning | Error

  /** Status 400 and above is an error, 300-399 a warning, everything else (0 included) crawled. */
  function TallyOf(statusCode: int): Tally
  {
    if statusCode >= 400 then Error
    else if statusCode >= 300 then Warning
    else Crawled
  }

  /** The colour the status is printed in follows the counter it went to: red, yellow, green. */
  lemma TallyMatchesColor(statusCode: int)
    ensures TallyOf(statusCode) == Error <==> GetColor(statusCode) == ColorRed
    ensures TallyOf(statusCode) == Warning <==> GetColor(statusCode) == ColorYellow
    ensures TallyOf(statusCode) == Crawled <==> GetColor(statusCode) == ColorGreen
  {
  }

  /** The keys (url.String()) of a run of URLs. */
  function PageKeys(lib: UrlLib, us: seq<Url>): (keys: seq<string>)
    ensures |keys| == |us|
  {
    if us == [] then [] else PageKeys(lib, us[..|us| - 1]) + [lib.str(us[|us| - 1])]
  }

  lemma PageKeysSnoc(lib: UrlLib, us: seq<Url>, u: Url)
    ensures PageKeys(lib, us + [u]) == PageKeys(lib, us) + [lib.str(u)]
  {
    assert (us + [u])[..|us|] == us;
  }

  /** Every page of `us` is `root` itself or lies in the domain of `host`. */
  predicate Within(us: seq<Url>, root: Url, host: string)
  {
    forall u <- us :: u == root || IsSameDomain(u.host, host)
  }

  /** Pages reached from a same-domain link may follow the pages reached from `root`. */
  lemma WithinConcat(a: seq<Url>, b: seq<Url>, root: Url, child: Url, host: string)
    requires Within(a, root, host) && Within(b, child, host) && IsSameDomain(child.host, host)
    ensures Within(a + b, root, host)
  {
    assert forall u <- a + b :: u in a || u in b;
  }

  class LegacyCrawler {
    const lib: UrlLib
    /** The HTTP exchange each URL would get; each URL is fetched at most once, so one per URL. */
    const net: string -> HttpOutcome
    const startURL: Url
    var visited: set<string>
    var totalCrawled: nat
    var totalWarnings: nat
    var totalErrors: nat
    /** The pages fetched, in the order they were marked visited. */
    ghost var pages: seq<Url>

    /**
     * Every visited URL was fetched exactly once, and each fetch went to
     * exactly one counter.
     */
    ghost predicate Valid()
      reads this
    {
      && NoDup(PageKeys(lib, pages))
      && visited == Elems(PageKeys(lib, pages))
      && totalCrawled + totalWarnings + totalErrors == |pages|
    }

    constructor (lib: UrlLib, net: string -> HttpOutcome, startURL: Url)
      ensures Valid()
      ensures this.lib == lib && this.net == net && this.startURL == startURL
      ensures visited == {} && pages == []
      ensures totalCrawled == 0 && totalWarnings == 0 && totalErrors == 0
    {
      this.lib, this.net, this.startURL := lib, net, startURL;
      visited, pages := {}, [];
      totalCrawled, totalWarnings, totalErrors := 0, 0, 0;
    }

    /** The three counters add up to the number of URLs visited. */
    lemma CountersMatchVisited()
      requires Valid()
      ensures totalCrawled + totalWarnings + totalErrors == |visited|
    {
      NoDupCardinality(PageKeys(lib, pages));
    }

    /** Adds one to the counter the status code belongs to. */
    method Count(statusCode: int)
      modifies this`totalCrawled, this`totalWarnings, this`totalErrors
      ensures match TallyOf(statusCode)
        case Error =>
          totalErrors == old(totalErrors) + 1 && totalWarnings == old(totalWarnings) && totalCrawled == old(totalCrawled)
        case Warning =>
          totalWarnings == old(totalWarnings) + 1 && totalErrors == old(totalErrors) && totalCrawled == old(totalCrawled)
        case Crawled =>
          totalCrawled == old(totalCrawled) + 1 && totalErrors == old(totalErrors) && totalWarnings == old(totalWarnings)
    {
      if statusCode >= 400 {
        totalErrors := totalErrors + 1;
      } else if statusCode >= 300 {
        totalWarnings := totalWarnings + 1;
      } else {
        totalCrawled := totalCrawled + 1;
      }
    }

    /**
     * Crawl: a URL already visited, or a negative depth, ends the call at
     * once; otherwise the URL is marked visited, fetched, counted, and each
     * of its links that parses and lies in the start domain is crawled one
     * level deeper. `crawled` is the pages this call fetched, in order: the
     * target first, and no page outside the start domain but the target.
     */
    method Crawl(target: Url, currentDepth: int) returns (ghost crawled: seq<Url>)
      requires Valid()
      modifies this`visited, this`totalCrawled, this`totalWarnings, this`totalErrors, this`pages
      ensures Valid()
      ensures pages == old(pages) + crawled
      ensures old(visited) <= visited
      ensures lib.str(target) in old(visited) || currentDepth < 0 ==>
        crawled == [] && unchanged(this)
      ensures lib.str(target) !in old(visited) && currentDepth >= 0 ==> crawled != [] && crawled[0] == target
      ensures Within(crawled, target, startURL.host)
      decreases if currentDepth < 0 then 0 else currentDepth + 1
    {
      crawled := [];
      var key := lib.str(target);
      if key in visited || currentDepth < 0 {
        return;
      }
      PageKeysSnoc(lib, pages, target);
      NoDupSnoc(PageKeys(lib, pages), key);
      visited := visited + {key};
      pages := pages + [target];
      crawled := [target];

      var links, statusCode := LegacyCheckAndResolveURL(lib, net(key), key);
      Count(statusCode);

      var i := 0;
      while i < |links|
        invariant Valid()
        invariant pages == old(pages) + crawled
        invariant old(visited) <= visited
        invariant crawled != [] && crawled[0] == target
        invariant Within(crawled, target, startURL.host)
      {
        var parsedLink := lib.parse(links[i]);
        if parsedLink.Some? && IsSameDomain(parsedLink.value.host, startURL.host) {
          var sub := Crawl(parsedLink.value, currentDepth - 1);
          AppendAssoc(old(pages), crawled, sub);
          WithinConcat(crawled, sub, target, parsedLink.value, startURL.host);
          crawled := crawled + sub;
        }
        i := i + 1;
      }
    }
  }
}
