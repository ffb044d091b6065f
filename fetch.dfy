/**
 * internal/crawl/crawler.go, checkAndResolveURL and checkAndResolveURLWithRetry:
 * one fetch attempt shaped into (links, failed links, status, duration, error),
 * and the retry wrapper around it. The HTTP exchange itself is an oracle.
 */
module Fetch {
  import opened Wrappers
  import opened Text
  import opened Urls
  import opened Parser

  /** What html.Parse made of a response body. */
  datatype Body =
    | Unparsable(cause: string)
    /** A document, with the hrefs reported as unresolvable alongside it. */
    | Document(root: Node, failedLinks: seq<string>)

  /** The outcome of one HTTP GET: http.NewRequest failed, httpClient.Do failed, or a response. */
  datatype HttpOutcome =
    | RequestError(cause: string)
    | TransportError(cause: string)
    | Response(statusCode: int, duration: int, body: Body)

  datatype FetchError =
    | UnsupportedScheme
    | CreateRequestFailed(cause: string)
    | FetchFailed(cause: string)
    | HtmlParseFailed(cause: string)
    | RetriesExhausted(attempts: int, last: FetchError)

  /** The five values checkAndResolveURL and its retry wrapper return; durations in nanoseconds. */
  datatype FetchOutcome = FetchOutcome(
    links: seq<string>,
    failedLinks: seq<string>,
    statusCode: int,
    duration: int,
    err: Option<FetchError>)

  const MaxRetries: nat := 3
  /** time.Second, in nanoseconds. */
  const RetryDelay: int := 1_000_000_000

  predicate HasHttpScheme(target: string)
  {
    HasPrefix(target, "http://") || HasPrefix(target, "https://")
  }

  /** `links` is one of the results ResolveLinks may return (for some visiting order of the map). */
  ghost predicate ResolvesTo(lib: UrlLib, link: map<string, bool>, originalURL: string, links: seq<string>)
  {
    exists order :: IsResolution(lib, link, originalURL, links, order)
  }

  /** What one attempt returns for `target` when the HTTP exchange went as `http` says. */
  ghost predicate AttemptYields(lib: UrlLib, target: string, http: HttpOutcome, o: FetchOutcome)
  {
    if !HasHttpScheme(target) then o == FetchOutcome([], [], 0, 0, Some(UnsupportedScheme))
    else match http
      case RequestError(cause) => o == FetchOutcome([], [], 0, 0, Some(CreateRequestFailed(cause)))
      case TransportError(cause) => o == FetchOutcome([], [], 0, 0, Some(FetchFailed(cause)))
      case Response(status, duration, body) =>
        if 300 <= status < 400 then o == FetchOutcome([], [], status, duration, None)
        else match body
          case Unparsable(cause) => o == FetchOutcome([], [], status, duration, Some(HtmlParseFailed(cause)))
          case Document(root, failed) =>
            && o.failedLinks == failed && o.statusCode == status && o.duration == duration && o.err == None
            && ResolvesTo(lib, ExtractLinks(root), target, o.links)
  }

  /** One attempt: the scheme check, then the request, then the redirect short-circuit, then parsing. */
  method CheckAndResolveURL(lib: UrlLib, http: HttpOutcome, targetURL: string) returns (o: FetchOutcome)
    ensures AttemptYields(lib, targetURL, http, o)
    ensures o.err.None? ==> o.statusCode == http.statusCode && HasHttpScheme(targetURL)
    ensures o.err.Some? ==> o.links == [] && o.failedLinks == []
  {
    if !HasHttpScheme(targetURL) {
      return FetchOutcome([], [], 0, 0, Some(UnsupportedScheme));
    }
    match http {
      case RequestError(cause) =>
        o := FetchOutcome([], [], 0, 0, Some(CreateRequestFailed(cause)));
      case TransportError(cause) =>
        o := FetchOutcome([], [], 0, 0, Some(FetchFailed(cause)));
      case Response(status, duration, body) =>
        if 300 <= status < 400 {
          o := FetchOutcome([], [], status, duration, None);
        } else {
          match body {
            case Unparsable(cause) =>
              o := FetchOutcome([], [], status, duration, Some(HtmlParseFailed(cause)));
            case Document(root, failed) =>
              var linkMap := ExtractLinks(root);
              var links, order := ResolveLinks(lib, linkMap, targetURL);
              o := FetchOutcome(links, failed, status, duration, None);
          }
        }
    }
  }

  /** Every attempt gets a non-redirect response whose body does not parse as HTML. */
  predicate UnparsableEveryTime(net: nat -> HttpOutcome)
  {
    forall i :: 0 <= i < MaxRetries ==>
      net(i).Response? && !(300 <= net(i).statusCode < 400) && net(i).body.Unparsable?
  }

  /** The sum of the durations of a run of attempts. */
  function TotalDuration(attempts: seq<FetchOutcome>): int
  {
    if attempts == [] then 0
    else TotalDuration(attempts[..|attempts| - 1]) + attempts[|attempts| - 1].duration
  }

  /** The sleeps between `n + 1` attempts: RetryDelay, 2 * RetryDelay, … */
  predicate IsBackoff(sleeps: seq<int>, n: nat)
  {
    |sleeps| == n && forall i :: 0 <= i < n ==> sleeps[i] == RetryDelay * (i + 1)
  }

  /** Attempt i of `attempts` is what one attempt returns for the exchange `net(i)`. */
  ghost predicate Tried(lib: UrlLib, net: nat -> HttpOutcome, targetURL: string, attempts: seq<FetchOutcome>)
  {
    forall i :: 0 <= i < |attempts| ==> AttemptYields(lib, targetURL, net(i), attempts[i])
  }

  lemma TriedSnoc(lib: UrlLib, net: nat -> HttpOutcome, targetURL: string, attempts: seq<FetchOutcome>, o: FetchOutcome)
    requires Tried(lib, net, targetURL, attempts) && AttemptYields(lib, targetURL, net(|attempts|), o)
    ensures Tried(lib, net, targetURL, attempts + [o])
  {
    assert forall i :: 0 <= i < |attempts| ==> (attempts + [o])[i] == attempts[i];
  }

  /**
   * What the retry wrapper returns for `targetURL` when attempt i sees the
   * exchange `net(i)`: between one and MaxRetries attempts, all but the last
   * failed, with growing sleeps between them; the last one's outcome if it
   * succeeded (with the durations added up), otherwise a RetriesExhausted
   * error after MaxRetries attempts.
   */
  ghost predicate RetryYields(lib: UrlLib, net: nat -> HttpOutcome, targetURL: string,
                              o: FetchOutcome, attempts: seq<FetchOutcome>, sleeps: seq<int>)
  {
    && 1 <= |attempts| <= MaxRetries
    && Tried(lib, net, targetURL, attempts)
    && (forall i :: 0 <= i < |attempts| - 1 ==> attempts[i].err.Some?)
    && IsBackoff(sleeps, |attempts| - 1)
    && var last := attempts[|attempts| - 1];
      if last.err.None? then o == last.(duration := TotalDuration(attempts))
      else
        && |attempts| == MaxRetries
        && o == FetchOutcome([], [], 0, TotalDuration(attempts), Some(RetriesExhausted(MaxRetries, last.err.value)))
  }

  /**
   * The retry wrapper: attempt i sees the exchange `net(i)`. The requested
   * sleeps are logged rather than performed.
   */
  method CheckAndResolveURLWithRetry(lib: UrlLib, net: nat -> HttpOutcome, targetURL: string)
    returns (o: FetchOutcome, ghost attempts: seq<FetchOutcome>, ghost sleeps: seq<int>)
    ensures RetryYields(lib, net, targetURL, o, attempts, sleeps)
    ensures o.err.None? ==> HasHttpScheme(targetURL)
    ensures o.err.Some? ==> o.links == [] && o.failedLinks == [] && o.statusCode == 0
    ensures o.err.Some? ==> o.err.value.RetriesExhausted? && o.err.value.attempts == MaxRetries
  {
    var lastErr: Option<FetchError> := None;
    var totalDuration := 0;
    attempts, sleeps := [], [];
    var attempt: nat := 0;
    while attempt < MaxRetries
      invariant attempt == |attempts| <= MaxRetries
      invariant Tried(lib, net, targetURL, attempts)
      invariant forall i :: 0 <= i < |attempts| ==> attempts[i].err.Some?
      invariant totalDuration == TotalDuration(attempts)
      invariant attempts != [] ==> lastErr == attempts[|attempts| - 1].err
      invariant IsBackoff(sleeps, if attempt < MaxRetries then attempt else MaxRetries - 1)
    {
      var result := CheckAndResolveURL(lib, net(attempt), targetURL);
      TriedSnoc(lib, net, targetURL, attempts, result);
      assert (attempts + [result])[..|attempts|] == attempts;
      ghost var prev := attempts;
      attempts := attempts + [result];
      totalDuration := totalDuration + result.duration;
      if result.err.None? {
        o := result.(duration := totalDuration);
        assert forall i :: 0 <= i < |attempts| - 1 ==> attempts[i] == prev[i];
        assert attempts[|attempts| - 1] == result;
        assert IsBackoff(sleeps, |attempts| - 1);
        return;
      }
      lastErr := result.err;
      if attempt < MaxRetries - 1 {
        sleeps := sleeps + [RetryDelay * (attempt + 1)];
      }
      attempt := attempt + 1;
    }
    assert |attempts| == MaxRetries && lastErr == attempts[|attempts| - 1].err;
    assert IsBackoff(sleeps, |attempts| - 1);
    o := FetchOutcome([], [], 0, totalDuration, Some(RetriesExhausted(MaxRetries, lastErr.value)));
  }

  /** Attempts that all took no time add up to no time. */
  lemma {:induction false} TotalDurationZero(attempts: seq<FetchOutcome>)
    requires forall i :: 0 <= i < |attempts| ==> attempts[i].duration == 0
    ensures TotalDuration(attempts) == 0
    decreases |attempts|
  {
    if attempts != [] {
      TotalDurationZero(attempts[..|attempts| - 1]);
    }
  }

  /** A URL without an http or https scheme is tried MaxRetries times and fails without a status. */
  lemma RetryUnsupportedScheme(lib: UrlLib, net: nat -> HttpOutcome, targetURL: string,
                               o: FetchOutcome, attempts: seq<FetchOutcome>, sleeps: seq<int>)
    requires RetryYields(lib, net, targetURL, o, attempts, sleeps) && !HasHttpScheme(targetURL)
    ensures |attempts| == MaxRetries && o.err == Some(RetriesExhausted(MaxRetries, UnsupportedScheme))
    ensures o.statusCode == 0 && o.duration == 0 && o.links == [] && o.failedLinks == []
  {
    assert AttemptYields(lib, targetURL, net(|attempts| - 1), attempts[|attempts| - 1]);
    TotalDurationZero(attempts);
  }

  /** A redirect on the first attempt is returned at once, with no links and no error. */
  lemma RetryRedirect(lib: UrlLib, net: nat -> HttpOutcome, targetURL: string,
                      o: FetchOutcome, attempts: seq<FetchOutcome>, sleeps: seq<int>)
    requires RetryYields(lib, net, targetURL, o, attempts, sleeps) && HasHttpScheme(targetURL)
    requires net(0).Response? && 300 <= net(0).statusCode < 400
    ensures |attempts| == 1 && sleeps == []
    ensures o == FetchOutcome([], [], net(0).statusCode, net(0).duration, None)
  {
    assert AttemptYields(lib, targetURL, net(0), attempts[0]);
    assert |attempts| == 1;
    assert attempts[..0] == [];
    assert TotalDuration(attempts) == attempts[0].duration;
  }

  /** A parsable page (not a redirect) on the first attempt is returned at once, with its status and its resolved links. */
  lemma RetryDocument(lib: UrlLib, net: nat -> HttpOutcome, targetURL: string,
                      o: FetchOutcome, attempts: seq<FetchOutcome>, sleeps: seq<int>)
    requires RetryYields(lib, net, targetURL, o, attempts, sleeps) && HasHttpScheme(targetURL)
    requires net(0).Response? && !(300 <= net(0).statusCode < 400) && net(0).body.Document?
    ensures |attempts| == 1 && o.err.None? && o.statusCode == net(0).statusCode
    ensures ResolvesTo(lib, ExtractLinks(net(0).body.root), targetURL, o.links)
    ensures o.failedLinks == net(0).body.failedLinks && o.duration == net(0).duration
  {
    assert AttemptYields(lib, targetURL, net(0), attempts[0]);
    assert |attempts| == 1;
    assert attempts[..0] == [];
    assert TotalDuration(attempts) == attempts[0].duration;
  }

  /**
   * A page whose body never parses is tried MaxRetries times; the result is an
   * error with status 0 and no links, although each attempt saw a status.
   */
  lemma RetryUnparsable(lib: UrlLib, net: nat -> HttpOutcome, targetURL: string,
                        o: FetchOutcome, attempts: seq<FetchOutcome>, sleeps: seq<int>)
    requires RetryYields(lib, net, targetURL, o, attempts, sleeps) && HasHttpScheme(targetURL)
    requires UnparsableEveryTime(net)
    ensures |attempts| == MaxRetries && |sleeps| == MaxRetries - 1
    ensures o.err.Some? && o.err.value.RetriesExhausted? && o.err.value.last.HtmlParseFailed?
    ensures o.statusCode == 0 && o.links == []
  {
    assert AttemptYields(lib, targetURL, net(|attempts| - 1), attempts[|attempts| - 1]);
  }
}
