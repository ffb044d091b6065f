/**
 * The parsed-URL values the crawler reads, and the operations of Go's net/url
 * package it calls. net/url implements RFC 3986 (reference resolution is
 * section 5.2 of RFC 3986); it is not part of this model, so its operations
 * are parameters.
 */
module Urls {
  import opened Wrappers

  /** The components of a net/url URL that the crawler inspects; everything else is in `rest`. */
  datatype Url = Url(scheme: string, host: string, rest: string)

  /**
   * url.Parse (None for a parse error), (*URL).ResolveReference and
   * (*URL).String, left uninterpreted.
   */
  datatype UrlLib = UrlLib(
    parse: string -> Option<Url>,
    resolveReference: (Url, Url) -> Url,
    str: Url -> string)
}
