/**
 * The monitor's URL handling: the site key it derives from a host name,
 * the query split of `parse_qs`, and `_normalize_url`. The library routines
 * it calls (`urlparse`, percent decoding, `unicode_escape` decoding,
 * `urljoin`, `urldefrag`, `fnmatch`, `re.search`) are supplied as the
 * oracle record `Lib`.
 */
module Url {
  import opened Wrappers
  import opened Text

  /** The parts of `urllib.parse.urlparse(url)` the monitor reads. */
  datatype ParsedUrl = ParsedUrl(
    scheme: string,
    hostname: string,  // `.hostname`, with "" for None
    path: string,
    query: string)

  /** The library routines the monitor calls and that are not modelled in detail. */
  datatype Lib = Lib(
    urlparse: string -> ParsedUrl,              // urllib.parse.urlparse
    unquote: string -> string,                  // urllib.parse.unquote
    decodeEscapes: string -> string,            // MonitorM3U8.decode: "" when nothing changes or decoding fails
    urljoin: (string, string) -> string,        // urllib.parse.urljoin(base, url)
    urldefrag: string -> Option<string>,        // urldefrag(url).url; None where it or urlparse raises
    fnmatch: (string, string) -> bool,          // fnmatch.fnmatch(name, pattern)
    reSearch: (string, string) -> Option<bool>  // re.search(pattern, text, IGNORECASE) is not None; None on re.error
  )

  /** The last index of `c` in `s`, or -1. */
  function RFind(s: string, c: char): (r: int)
    ensures -1 <= r < |s|
    ensures r >= 0 ==> s[r] == c
    ensures forall k :: r < k < |s| ==> s[k] != c
  {
    if s == [] then -1
    else if s[|s| - 1] == c then |s| - 1
    else RFind(s[..|s| - 1], c)
  }

  /** `(urlparse(url).hostname or "").lower()`. */
  function Hostname(lib: Lib, url: string): (h: string)
    ensures |h| == |lib.urlparse(url).hostname|
    ensures forall k :: 0 <= k < |h| ==> !('A' <= h[k] <= 'Z')
  {
    Lower(lib.urlparse(url).hostname)
  }

  /** The URL's scheme is one the monitor follows. */
  predicate IsHttpUrl(lib: Lib, url: string) {
    lib.urlparse(url).scheme in {"http", "https"}
  }

  /** `_domain_key`: the last two labels of the host, or the host when it has fewer. */
  function DomainKey(lib: Lib, url: string): (key: string)
    ensures key == "" <==> StripChars(Hostname(lib, url), {'.'}) == ""
    ensures EndsWith(StripChars(Hostname(lib, url), {'.'}), key)
  {
    var host := StripChars(Hostname(lib, url), {'.'});
    if host == "" then "" else LastTwoLabels(host)
  }

  /** The host itself when it has one label, otherwise its last two labels. */
  function LastTwoLabels(host: string): (key: string)
    requires host != ""
    ensures key != "" && EndsWith(host, key)
  {
    var items := Split(host, ".");
    if |items| < 2 then host
    else
      LastTwoLabelsSuffix(host, items);
      Join(".", items[|items| - 2..])
  }

  lemma LastTwoLabelsSuffix(host: string, items: seq<string>)
    requires items == Split(host, ".") && |items| >= 2
    ensures Join(".", items[|items| - 2..]) != ""
    ensures EndsWith(host, Join(".", items[|items| - 2..]))
  {
    JoinSplit(host, ".");
    JoinSuffix(".", items, |items| - 2);
    var tail := items[|items| - 2..];
    assert |tail| == 2 && tail[1..] == [items[|items| - 1]];
    assert Join(".", tail) == tail[0] + "." + tail[1];
  }

  /** Joining a tail of the parts gives a suffix of joining all of them. */
  lemma {:induction false} JoinSuffix(sep: string, parts: seq<string>, k: nat)
    requires k < |parts|
    ensures EndsWith(Join(sep, parts), Join(sep, parts[k..]))
    decreases k
  {
    if k > 0 {
      JoinSuffix(sep, parts[1..], k - 1);
      assert parts[1..][k - 1..] == parts[k..];
      assert Join(sep, parts) == parts[0] + sep + Join(sep, parts[1..]);
    }
  }

  /** `_same_site`: both URLs have the same non-empty site key. */
  predicate SameSite(lib: Lib, a: string, b: string) {
    DomainKey(lib, a) != "" && DomainKey(lib, a) == DomainKey(lib, b)
  }

  /** `parse_qsl(query)` without blank values: `name=value` pairs with `+` read as space. */
  function ParseQsl(query: string, unquote: string -> string): (pairs: seq<(string, string)>)
  {
    PairsOf(Split(query, "&"), unquote)
  }

  function PairsOf(fields: seq<string>, unquote: string -> string): (pairs: seq<(string, string)>)
    ensures |pairs| <= |fields|
  {
    if fields == [] then []
    else
      var rest := PairsOf(fields[1..], unquote);
      var f := fields[0];
      match Find(f, "=")
      case None => rest
      case Some(k) =>
        var value := f[k + 1..];
        if value == "" then rest
        else [(unquote(MapChar(f[..k], '+', ' ')), unquote(MapChar(value, '+', ' ')))] + rest
  }

  /** `parse_qs(query).get(key, [])`: the values given for `key`, in order. */
  function QueryValues(pairs: seq<(string, string)>, key: string): (values: seq<string>)
    ensures |values| <= |pairs|
    ensures forall v :: v in values <==> (key, v) in pairs
  {
    if pairs == [] then []
    else (if pairs[0].0 == key then [pairs[0].1] else []) + QueryValues(pairs[1..], key)
  }

  /**
   * `_normalize_url(url, base_url)`: the trimmed URL, unescaped, resolved against
   * the base and without fragment, or "" unless its scheme is http or https.
   */
  function NormalizeUrl(lib: Lib, url: string, base: string): (r: string)
    ensures r != "" ==> IsHttpUrl(lib, r)
  {
    var trimmed := RStripChars(StripChars(Strip(url), {DoubleQuote, SingleQuote}), {'\\'});
    if trimmed == "" then ""
    else
      var unslashed := ReplaceAll(trimmed, "\\/", "/");
      var decoded := lib.decodeEscapes(unslashed);
      var text := if decoded != "" then decoded else unslashed;
      var joined := if base != "" then lib.urljoin(base, text) else text;
      match lib.urldefrag(joined)
      case None => ""
      case Some(n) => if IsHttpUrl(lib, n) then n else ""
  }
}
