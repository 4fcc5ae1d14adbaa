/**
 * The monitor's pure judgements about a captured URL: is it a playlist, a page
 * worth visiting, a wrapper page, and how strongly is it preferred.
 */
module Classify {
  import opened Text
  import opened Url

  /** `_is_m3u8_url`. */
  predicate IsM3u8Url(url: string) {
    Contains(Lower(url), ".m3u8")
  }

  /** `_is_wrapper_candidate`: a parser page that carries the real URL in `url=`. */
  predicate IsWrapperCandidate(url: string) {
    Contains(Lower(url), "?url=http") || Contains(Lower(url), "&url=http")
  }

  predicate IsUrlDelimiter(c: char) {
    c == '/' || c == '?' || c == '#'
  }

  /** The length of the longest prefix of `s` without `/`, `?` or `#`. */
  function RunLength(s: string): (n: nat)
    ensures n <= |s|
    ensures forall k :: 0 <= k < n ==> !IsUrlDelimiter(s[k])
    ensures n < |s| ==> IsUrlDelimiter(s[n])
  {
    if s == [] || IsUrlDelimiter(s[0]) then 0 else 1 + RunLength(s[1..])
  }

  /** `.m3u8`, in any case, starts at index `k` of `s`. */
  predicate PlaylistAt(s: string, k: int) {
    0 <= k && k + 5 <= |s| && Lower(s[k..k + 5]) == ".m3u8"
  }

  /** Dropping the last character keeps exactly the matches that end before it. */
  lemma PlaylistAtPrefix(run: string)
    requires |run| >= 1
    ensures forall k :: PlaylistAt(run[..|run| - 1], k) == (PlaylistAt(run, k) && k + 5 < |run|)
  {
    forall k ensures PlaylistAt(run[..|run| - 1], k) == (PlaylistAt(run, k) && k + 5 < |run|) {
      if 0 <= k && k + 5 < |run| {
        assert run[..|run| - 1][k..k + 5] == run[k..k + 5];
      }
    }
  }

  /** The last index `L >= 1` at which `.m3u8` (in any case) starts in `run`, or -1. */
  function LastPlaylistSuffix(run: string): (L: int)
    ensures L == -1 || (1 <= L && PlaylistAt(run, L))
    ensures forall k :: L < k && 1 <= k ==> !PlaylistAt(run, k)
    decreases |run|
  {
    if |run| < 6 then -1
    else if PlaylistAt(run, |run| - 5) then |run| - 5
    else
      PlaylistAtPrefix(run);
      LastPlaylistSuffix(run[..|run| - 1])
  }

  /**
   * The effect of `re.sub(r"[^/?#]+\.m3u8", target, ·, IGNORECASE)` on one
   * delimiter-free run: the greedy match reaches the run's last `.m3u8` that
   * has at least one character before it.
   */
  function RewriteRun(run: string, target: string): string {
    var L := LastPlaylistSuffix(run);
    if L < 0 then run else target + run[L + 5..]
  }

  /** `re.sub(r"[^/?#]+\.m3u8", target, url, flags=re.IGNORECASE)`. */
  function Substitute(url: string, target: string): string
    decreases |url|
  {
    if url == [] then []
    else if IsUrlDelimiter(url[0]) then [url[0]] + Substitute(url[1..], target)
    else
      var n := RunLength(url);
      RewriteRun(url[..n], target) + Substitute(url[n..], target)
  }

  /** `_predict_variant`: the rewritten URL, or "" when the rewrite changes nothing. */
  function PredictVariant(url: string, target: string): (r: string)
    ensures r == "" || r != url
  {
    var updated := Substitute(url, target);
    if updated != url then updated else ""
  }

  /** The extensions that mark a static resource instead of a page. */
  const BlockedExtensions: set<string> := {"ts", "m4s", "mp4", "mp3", "mkv", "jpg", "jpeg", "png", "gif",
    "svg", "webp", "css", "js", "json", "xml", "txt", "ico", "woff", "woff2"}

  predicate IsLowerAlnum(c: char) {
    ('a' <= c <= 'z') || IsDigit(c)
  }

  predicate AllLowerAlnum(s: string) {
    forall k :: 0 <= k < |s| ==> IsLowerAlnum(s[k])
  }

  /**
   * The group of `re.search(r"\.([a-z0-9]{1,8})$", path)`: only the text after
   * the last dot can match, since the group admits no dot.
   */
  function PathExtension(path: string): (ext: string)
    ensures ext != "" ==> 1 <= |ext| <= 8 && AllLowerAlnum(ext) && EndsWith(path, "." + ext)
  {
    var dot := RFind(path, '.');
    var tail := path[dot + 1..];
    if dot >= 0 && 1 <= |tail| <= 8 && AllLowerAlnum(tail) then
      assert path[|path| - |"." + tail|..] == "." + tail;
      tail
    else ""
  }

  /** `_is_page_candidate`: not empty, not a playlist, and not a static resource. */
  predicate IsPageCandidate(lib: Lib, url: string) {
    url != "" && !IsM3u8Url(url) && PathExtension(Lower(lib.urlparse(url).path)) !in BlockedExtensions
  }

  function Bonus(holds: bool, points: int): int {
    if holds then points else 0
  }

  /** The eight tests `_m3u8_priority` adds points for. */
  datatype Signals = Signals(
    playlist: bool,    // the URL contains `.m3u8`
    pathPlaylist: bool, // the path contains `.m3u8`
    index: bool,       // `index.m3u8`
    mixed: bool,       // `mixed.m3u8`
    wrapper: bool,     // `?url=http` or `&url=http`
    vipWrapper: bool,  // a wrapper on a `vip.` host
    sameSite: bool,    // the same site as the monitored page
    signed: bool)      // `token=`, `auth=` or `sign=`

  function SignalsOf(lib: Lib, url: string, origin: string): (f: Signals)
    ensures f.vipWrapper ==> f.wrapper
  {
    var lowered := Lower(url);
    var wrapper := IsWrapperCandidate(url);
    Signals(
      IsM3u8Url(url),
      Contains(Lower(lib.urlparse(url).path), ".m3u8"),
      Contains(lowered, "index.m3u8"),
      Contains(lowered, "mixed.m3u8"),
      wrapper,
      StartsWith(Hostname(lib, url), "vip.") && wrapper,
      SameSite(lib, url, origin),
      Contains(lowered, "token=") || Contains(lowered, "auth=") || Contains(lowered, "sign="))
  }

  /** The score of a set of signals: one term per test. */
  function Score(f: Signals): int {
    Bonus(f.playlist, 5) + Bonus(f.pathPlaylist, 5) + Bonus(f.index, 2) + Bonus(f.mixed, -1)
    + Bonus(f.wrapper, -6) + Bonus(f.vipWrapper, -2) + Bonus(f.sameSite, 1) + Bonus(f.signed, 1)
  }

  /**
   * `_m3u8_priority(url)`, with `origin` the monitored page (`self.URL`): the
   * source adds each test's points to a running total, which is the sum `Score`.
   */
  function M3u8Priority(lib: Lib, url: string, origin: string): int {
    Score(SignalsOf(lib, url, origin))
  }

  /** Any consistent set of signals scores between -9 and 14. */
  lemma ScoreBounds(f: Signals)
    requires f.vipWrapper ==> f.wrapper
    ensures -9 <= Score(f) <= 14
  {
  }

  /** The score lies between -9 and 14. */
  lemma PriorityBounds(lib: Lib, url: string, origin: string)
    ensures -9 <= M3u8Priority(lib, url, origin) <= 14
  {
    ScoreBounds(SignalsOf(lib, url, origin));
  }

  /**
   * A wrapper page always ranks below a direct playlist URL: the wrapper
   * scores at most 8, a non-wrapper playlist URL whose path names the
   * playlist at least 9.
   */
  lemma WrapperRanksBelowDirect(lib: Lib, wrapper: string, direct: string, origin: string)
    requires IsWrapperCandidate(wrapper)
    requires !IsWrapperCandidate(direct) && IsM3u8Url(direct) && Contains(Lower(lib.urlparse(direct).path), ".m3u8")
    ensures M3u8Priority(lib, wrapper, origin) <= 8 < 9 <= M3u8Priority(lib, direct, origin)
  {
    var w := SignalsOf(lib, wrapper, origin);
    var d := SignalsOf(lib, direct, origin);
    assert w.wrapper && !d.wrapper && !d.vipWrapper && d.playlist && d.pathPlaylist;
  }
}
