/**
 * internal/util/helpers.go: the same-domain predicate that decides which
 * discovered links the crawler follows, and the colour a status code is shown in.
 */
module Helpers {
  import opened Text

  // ANSI escape sequences for the terminal colours.
  const ColorGreen: string := "\U{1B}[32m"
  const ColorYellow: string := "\U{1B}[33m"
  const ColorRed: string := "\U{1B}[31m"
  const ColorReset: string := "\U{1B}[0m"

  /**
   * A link host belongs to the base domain when it is the base host itself or
   * ends in "." followed by the base host (a subdomain). A plain suffix check:
   * no public-suffix awareness.
   */
  function IsSameDomain(linkHost: string, baseHost: string): (same: bool)
    ensures same ==> |linkHost| >= |baseHost|
    ensures same && linkHost != baseHost ==> |linkHost| > |baseHost|
  {
    if linkHost == baseHost then true
    else HasSuffix(linkHost, "." + baseHost)
  }

  /** Every host is in its own domain. */
  lemma SameDomainReflexive(h: string)
    ensures IsSameDomain(h, h)
  {
  }

  /** A different host is in the domain exactly when it is some label(s), a dot, then the base host. */
  lemma SameDomainIsDotSuffix(linkHost: string, baseHost: string)
    requires linkHost != baseHost
    ensures IsSameDomain(linkHost, baseHost) <==> exists prefix :: linkHost == prefix + "." + baseHost
  {
    if IsSameDomain(linkHost, baseHost) {
      var prefix := linkHost[..|linkHost| - |baseHost| - 1];
      assert linkHost == prefix + linkHost[|linkHost| - |baseHost| - 1..];
      assert linkHost == prefix + "." + baseHost;
    }
  }

  /** A subdomain of a subdomain is a subdomain. */
  lemma SameDomainTransitive(a: string, b: string, c: string)
    requires IsSameDomain(a, b) && IsSameDomain(b, c)
    ensures IsSameDomain(a, c)
  {
    if a != b && b != c {
      // a ends in "." + b, and the tail of that tail is b's own "." + c.
      var tb := a[|a| - |b| - 1..];
      assert tb == "." + b;
      assert a[|a| - |c| - 1..] == tb[|tb| - |c| - 1..];
      assert tb[|tb| - |c| - 1..] == b[|b| - |c| - 1..];
    }
  }

  /** Two hosts that are each in the other's domain are the same host. */
  lemma SameDomainAntisymmetric(a: string, b: string)
    requires IsSameDomain(a, b) && IsSameDomain(b, a)
    ensures a == b
  {
  }

  /** A subdomain is accepted, a host that merely ends in the same letters is not. */
  lemma SameDomainExamples()
    ensures IsSameDomain("a.example.com", "example.com")
    ensures !IsSameDomain("notexample.com", "example.com")
    ensures IsSameDomain("example.com", "example.com")
  {
    var base := "example.com";
    var sub := "a.example.com";
    assert sub == "a" + ("." + base);
    assert sub[|sub| - |"." + base|..] == "." + base;
    var other := "notexample.com";
    assert other[|other| - |"." + base|] == 't';
  }

  /** Red for 4xx and above, yellow for 3xx, green for everything below 300 (0 and negatives included). */
  function GetColor(statusCode: int): (color: string)
    ensures color == ColorRed <==> statusCode >= 400
    ensures color == ColorYellow <==> 300 <= statusCode < 400
    ensures color == ColorGreen <==> statusCode < 300
    ensures color in {ColorGreen, ColorYellow, ColorRed}
  {
    if statusCode >= 400 then ColorRed
    else if statusCode >= 300 then ColorYellow
    else ColorGreen
  }
}
