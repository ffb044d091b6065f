/**
 * cmd/crawlx/main.go: the pre-flight checks on the start URL given with
 * --url, applied in order, the first failing one deciding the error.
 */
module Validate {
  import opened Wrappers
  import opened Text
  import opened Urls

  /** The reasons validateURL gives for refusing a start URL, one per early return. */
  datatype ValidationError =
    | MissingUrl                  // "the --url flag is required"
    | MultipleSchemeSeparators    // "malformed URL: multiple '://' sequences found"
    | Unparsable                  // "could not parse URL"
    | InvalidScheme               // "invalid URL scheme, please use http:// or https://"
    | MissingHost                 // "invalid URL, the host (domain name) is missing"
    | IpNotAllowed                // "crawling IP addresses is not allowed ..."
    | NoDotInHost                 // "invalid domain name, host must contain a '.'"
    | InvalidDomain               // "invalid domain name" (fewer than two labels)
    | NumericTld(tld: string)     // "invalid TLD '<tld>', cannot be a number"

  /** The regular expression ^[0-9\.]+$: one or more characters, each a digit or a dot. */
  predicate LooksLikeIp(host: string)
  {
    host != [] && forall c <- host :: IsDigit(c) || c == '.'
  }

  /**
   * The checks made before the host is inspected: the string is non-empty,
   * holds "://" at most once, parses, has scheme http or https and a non-empty
   * host.
   */
  function Preflight(lib: UrlLib, rawURL: string): (r: Result<Url, ValidationError>)
    ensures r.Ok? ==> lib.parse(rawURL) == Some(r.value)
    ensures r.Ok? ==> r.value.scheme in {"http", "https"} && r.value.host != []
  {
    if rawURL == [] then Err(MissingUrl)
    else if Count(rawURL, "://") > 1 then Err(MultipleSchemeSeparators)
    else match lib.parse(rawURL)
      case None => Err(Unparsable)
      case Some(u) =>
        if u.scheme != "http" && u.scheme != "https" then Err(InvalidScheme)
        else if u.host == [] then Err(MissingHost)
        else Ok(u)
  }

  /**
   * The checks before the host are made in order, and each error arises
   * exactly when every earlier check passed and its own failed: an empty
   * string first, then more than one "://" (even when net/url would also
   * refuse the string), then a parse failure, then the scheme, then the host.
   * A URL refused by them is refused by validateURL with the same error.
   */
  lemma PreflightOrder(lib: UrlLib, rawURL: string, ipAllowed: bool)
    ensures Preflight(lib, rawURL) == Err(MissingUrl) <==> rawURL == []
    ensures Preflight(lib, rawURL) == Err(MultipleSchemeSeparators) <==>
      rawURL != [] && Count(rawURL, "://") > 1
    ensures Preflight(lib, rawURL) == Err(Unparsable) <==>
      rawURL != [] && Count(rawURL, "://") <= 1 && lib.parse(rawURL).None?
    ensures Preflight(lib, rawURL) == Err(InvalidScheme) <==>
      && rawURL != [] && Count(rawURL, "://") <= 1 && lib.parse(rawURL).Some?
      && lib.parse(rawURL).value.scheme !in {"http", "https"}
    ensures Preflight(lib, rawURL) == Err(MissingHost) <==>
      && rawURL != [] && Count(rawURL, "://") <= 1 && lib.parse(rawURL).Some?
      && lib.parse(rawURL).value.scheme in {"http", "https"} && lib.parse(rawURL).value.host == []
    ensures Preflight(lib, rawURL).Err? ==> ValidateURL(lib, rawURL, ipAllowed) == Preflight(lib, rawURL)
  {
  }

  /**
   * The checks on the host: an IP-looking host passes exactly when IPs are
   * allowed; any other host needs a dot, and its last dot-separated label
   * must not be an integer.
   */
  function CheckHost(host: string, ipAllowed: bool): (err: Option<ValidationError>)
    ensures err != Some(InvalidDomain)
  {
    if LooksLikeIp(host) then
      if ipAllowed then None else Some(IpNotAllowed)
    else if '.' !in host then Some(NoDotInHost)
    else
      var parts := Split(host, '.');
      if |parts| < 2 then Some(InvalidDomain)
      else
        var tld := parts[|parts| - 1];
        if Atoi(tld).Some? then Some(NumericTld(tld)) else None
  }

  /** validateURL: the parsed URL, unchanged, or the first check it fails. */
  function ValidateURL(lib: UrlLib, rawURL: string, ipAllowed: bool): (r: Result<Url, ValidationError>)
    ensures r.Ok? ==> lib.parse(rawURL) == Some(r.value)
    ensures r != Err(InvalidDomain)
  {
    match Preflight(lib, rawURL)
    case Err(e) => Err(e)
    case Ok(u) =>
      match CheckHost(u.host, ipAllowed)
      case Some(e) => Err(e)
      case None => Ok(u)
  }

  /**
   * The host requirement stated without splitting: an IP-looking host only
   * when IPs are allowed, otherwise a dotted host whose text after the last
   * dot is not an integer.
   */
  ghost predicate HostAcceptable(host: string, ipAllowed: bool)
  {
    if LooksLikeIp(host) then ipAllowed
    else '.' in host && Atoi(AfterLast(host, '.')).None?
  }

  /** Each outcome of the host checks, in terms of the label after the last dot. */
  lemma CheckHostSound(host: string, ipAllowed: bool)
    ensures CheckHost(host, ipAllowed).None? <==> HostAcceptable(host, ipAllowed)
    ensures CheckHost(host, ipAllowed) == Some(IpNotAllowed) <==> LooksLikeIp(host) && !ipAllowed
    ensures CheckHost(host, ipAllowed) == Some(NoDotInHost) <==> !LooksLikeIp(host) && '.' !in host
    ensures CheckHost(host, ipAllowed).Some? && CheckHost(host, ipAllowed).value.NumericTld? <==>
      !LooksLikeIp(host) && '.' in host && Atoi(AfterLast(host, '.')).Some?
    ensures CheckHost(host, ipAllowed).Some? && CheckHost(host, ipAllowed).value.NumericTld? ==>
      CheckHost(host, ipAllowed).value.tld == AfterLast(host, '.')
  {
    var r := CheckHost(host, ipAllowed);
    if LooksLikeIp(host) {
      assert r == (if ipAllowed then None else Some(IpNotAllowed));
    } else if '.' !in host {
      assert r == Some(NoDotInHost);
    } else {
      var parts := Split(host, '.');
      SplitLastIsAfterLast(host, '.');
      var tld := AfterLast(host, '.');
      assert |parts| >= 2 && parts[|parts| - 1] == tld;
      assert r == (if Atoi(tld).Some? then Some(NumericTld(tld)) else None);
    }
  }

  /** A start URL is accepted exactly when every check passes, and then it is returned as parsed. */
  lemma ValidateAccepts(lib: UrlLib, rawURL: string, ipAllowed: bool)
    ensures ValidateURL(lib, rawURL, ipAllowed).Ok? <==>
      && rawURL != []
      && Count(rawURL, "://") <= 1
      && lib.parse(rawURL).Some?
      && lib.parse(rawURL).value.scheme in {"http", "https"}
      && lib.parse(rawURL).value.host != []
      && HostAcceptable(lib.parse(rawURL).value.host, ipAllowed)
  {
    if Preflight(lib, rawURL).Ok? {
      CheckHostSound(Preflight(lib, rawURL).value.host, ipAllowed);
    }
  }

  /** --allow-ip only widens what is accepted, and it changes the verdict only from IpNotAllowed to success. */
  lemma AllowIpOnlyWidens(lib: UrlLib, rawURL: string)
    ensures ValidateURL(lib, rawURL, false).Ok? ==> ValidateURL(lib, rawURL, true) == ValidateURL(lib, rawURL, false)
    ensures ValidateURL(lib, rawURL, true) != ValidateURL(lib, rawURL, false) ==>
      ValidateURL(lib, rawURL, false) == Err(IpNotAllowed) && ValidateURL(lib, rawURL, true).Ok?
  {
  }

  /**
   * (*URL).Hostname in net/url: the host with a trailing ":port" (a colon
   * followed by digits only) removed, then the square brackets of an IPv6
   * literal removed.
   */
  function Hostname(hostPort: string): string
  {
    var port := AfterLast(hostPort, ':');
    AfterLastIsSuffix(hostPort, ':');
    var host := if ':' in hostPort && AllDigits(port) then hostPort[..|hostPort| - |port| - 1] else hostPort;
    if |host| >= 2 && host[0] == '[' && host[|host| - 1] == ']' then host[1..|host| - 1] else host
  }

  /** A dotted IP address followed by a port is an IP-looking host once the port is removed. */
  lemma HostnameDropsPort(ip: string, port: string)
    requires LooksLikeIp(ip) && AllDigits(port)
    ensures Hostname(ip + ":" + port) == ip
  {
    var pre := ip + ":";
    var hp := pre + port;
    assert ':' !in port;
    AfterLastAppend(pre, port, ':');
    assert pre[|pre| - 1] == ':';
    assert AfterLast(pre, ':') == [];
    assert hp[|ip|] == ':';
    assert hp[..|hp| - |port| - 1] == ip;
    assert ip[0] in ip;
  }

  /**
   * validateURL as written: a dotted IP address with a port has a ':' in
   * its host, so it does not look like an IP, and its last label holds the
   * port, so it is not a number either: the URL is accepted even though IP
   * addresses are not allowed.
   */
  lemma IpWithPortAccepted(lib: UrlLib, rawURL: string, ip: string, port: string)
    requires Preflight(lib, rawURL).Ok? && Preflight(lib, rawURL).value.host == ip + ":" + port
    requires LooksLikeIp(ip) && '.' in ip && AllDigits(port)
    ensures ValidateURL(lib, rawURL, false).Ok?
  {
    IpWithPortPassesHostChecks(ip, port);
    CheckHostSound(ip + ":" + port, false);
  }

  /** The host part of IpWithPortAccepted: such a host satisfies the host requirement with IPs disallowed. */
  lemma IpWithPortPassesHostChecks(ip: string, port: string)
    requires LooksLikeIp(ip) && '.' in ip && AllDigits(port)
    ensures HostAcceptable(ip + ":" + port, false)
  {
    var colonPort := ":" + port;
    var host := ip + colonPort;
    assert host == ip + ":" + port;
    assert host[|ip|] == ':';
    assert !LooksLikeIp(host) by {
      assert host[|ip|] in host;
    }
    assert '.' in host by {
      var k :| 0 <= k < |ip| && ip[k] == '.';
      assert host[k] == '.';
    }
    assert '.' !in colonPort;
    AfterLastAppend(ip, colonPort, '.');
    var last := AfterLast(ip, '.');
    var tld := last + colonPort;
    assert tld[|last|] == ':' && tld[|last|] in tld;
    if last != [] {
      AfterLastIsSuffix(ip, '.');
      assert tld[0] == ip[|ip| - |last|];
      assert tld[0] in ip;
    }
    assert Unsigned(tld) == tld;
  }

  /**
   * validateURL with the host checks made on the host name without its port,
   * as (*URL).Hostname gives it; everything else is unchanged.
   */
  function ValidateHostname(lib: UrlLib, rawURL: string, ipAllowed: bool): (r: Result<Url, ValidationError>)
    ensures r.Ok? ==> lib.parse(rawURL) == Some(r.value)
  {
    match Preflight(lib, rawURL)
    case Err(e) => Err(e)
    case Ok(u) =>
      match CheckHost(Hostname(u.host), ipAllowed)
      case Some(e) => Err(e)
      case None => Ok(u)
  }

  /** Checking the host name closes the gap: an IP address with a port is refused unless IPs are allowed. */
  lemma IpWithPortRefused(lib: UrlLib, rawURL: string, ip: string, port: string)
    requires Preflight(lib, rawURL).Ok? && Preflight(lib, rawURL).value.host == ip + ":" + port
    requires LooksLikeIp(ip) && AllDigits(port)
    ensures ValidateHostname(lib, rawURL, false) == Err(IpNotAllowed)
    ensures ValidateHostname(lib, rawURL, true).Ok?
  {
    HostnameDropsPort(ip, port);
  }

  /** On a host without a port the corrected check decides exactly as the original. */
  lemma HostnameAgreesWithoutPort(lib: UrlLib, rawURL: string, ipAllowed: bool)
    requires Preflight(lib, rawURL).Ok? ==> ':' !in Preflight(lib, rawURL).value.host && '[' !in Preflight(lib, rawURL).value.host
    ensures ValidateHostname(lib, rawURL, ipAllowed) == ValidateURL(lib, rawURL, ipAllowed)
  {
    if Preflight(lib, rawURL).Ok? {
      var h := Preflight(lib, rawURL).value.host;
      assert h[0] != '[';
    }
  }
}
