/** The part of the browser's WHATWG `URL` object the extension reads. */
module Url {
  import opened Wrappers

  /** One `key=value` pair of a query string, keys and values already decoded. */
  type QueryPair = (string, string)

  /** A parsed absolute URL: `origin`, `hostname`, `pathname`, the ordered
      `searchParams` and the fragment (`hash`, empty or starting with `#`). */
  datatype ParsedUrl = ParsedUrl(
    origin: string,
    hostname: string,
    pathname: string,
    query: seq<QueryPair>,
    hash: string)

  /** `new URL(s)` for an absolute `s`: `None` where the constructor throws. */
  type Parser = string -> Option<ParsedUrl>

  /** `searchParams.toString()`: the pairs as `k=v`, separated by `&`. */
  function QueryString(q: seq<QueryPair>): string {
    if q == [] then ""
    else if |q| == 1 then q[0].0 + "=" + q[0].1
    else QueryString(q[..|q| - 1]) + "&" + q[|q| - 1].0 + "=" + q[|q| - 1].1
  }

  /** `url.toString()`: a `?` and the query appear only when there are pairs. */
  function Href(u: ParsedUrl): string {
    u.origin + u.pathname + (if u.query == [] then "" else "?" + QueryString(u.query)) + u.hash
  }
}
