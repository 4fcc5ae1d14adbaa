/**
 * Random request headers (RandomHeaders.py): the `sec-*` fields derived
 * from a user agent, the generation of header dicts, and the header list
 * that `resize` and `modifyHeadersList` grow and shrink. The user agents
 * and the referer drawn for each dict are given by the caller.
 */
module Headers {
  import opened Wrappers
  import opened Text
  import opened JsonValue

  /** `s.split(sep)[1]`: the text between the first and second `sep`; nothing (an `IndexError`) without a `sep`. */
  function Second(s: string, sep: string): (r: Option<string>)
    requires |sep| > 0
    ensures r.None? <==> !Contains(s, sep)
    ensures r.Some? ==> !Contains(r.value, sep)
  {
    var parts := Split(s, sep);
    if |parts| < 2 then None else Some(parts[1])
  }

  /** `s.split(sep)[0]`: the text before the first `sep`. */
  function First(s: string, sep: string): (r: string)
    requires |sep| > 0
    ensures !Contains(r, sep) && r <= s
  {
    FirstIsPrefix(s, sep);
    Split(s, sep)[0]
  }

  lemma FirstIsPrefix(s: string, sep: string)
    requires |sep| > 0
    ensures Split(s, sep)[0] <= s
  {
    match Find(s, sep)
    case None =>
    case Some(k) =>
  }

  /** A browser name and the version text taken from the user agent. */
  datatype Browser = Browser(name: string, version: string)

  /** `ua.split(marker)[1].split(stop)[0]`, or the `IndexError` when `marker` is absent. */
  function Versioned(name: string, ua: string, marker: string, stop: string): (r: Option<Browser>)
    requires |marker| > 0 && |stop| > 0
    ensures r.None? <==> !Contains(ua, marker)
    ensures r.Some? ==> r.value.name == name && !Contains(r.value.version, stop)
  {
    match Second(ua, marker)
    case None => None
    case Some(rest) => Some(Browser(name, First(rest, stop)))
  }

  const BrowserNames: set<string> := {
    "Google Chrome", "Chromium", "Firefox", "Safari", "Opera", "Microsoft Edge", "Internet Explorer", "Unknown"}

  /*
   * The tests of `__ua2sec` that come before each browser's branch all fail:
   * the Firefox branch is reached only without `Chrome` and `Chromium`,
   * the Safari branch only without `Firefox` as well, and so on.
   */
  predicate PastChrome(ua: string) {
    !Contains(ua, "Chrome") && !Contains(ua, "Chromium")
  }

  predicate PastFirefox(ua: string) {
    PastChrome(ua) && !Contains(ua, "Firefox")
  }

  predicate PastSafari(ua: string) {
    PastFirefox(ua) && !(Contains(ua, "Safari") && Contains(ua, "Version/"))
  }

  predicate PastOpera(ua: string) {
    PastSafari(ua) && !Contains(ua, "Opera") && !Contains(ua, "OPR")
  }

  predicate PastEdge(ua: string) {
    PastOpera(ua) && !Contains(ua, "Edge")
  }

  /** The user agent names none of the browsers `__ua2sec` knows. */
  predicate NoBrowserMarker(ua: string) {
    PastEdge(ua) && !Contains(ua, "Trident")
  }

  /** `ua.split(marker)[1].split(stop)[0]`, when `marker` occurs. */
  function Between(ua: string, marker: string, stop: string): (r: string)
    requires |marker| > 0 && |stop| > 0 && Contains(ua, marker)
    ensures !Contains(r, stop)
  {
    First(Second(ua, marker).value, stop)
  }

  /**
   * The browser part of `__ua2sec`: the first branch whose test holds, or
   * `Unknown` version `0`. Nothing stands for the `IndexError` of a branch
   * whose version marker is missing.
   */
  function DetectBrowser(ua: string): (r: Option<Browser>)
    ensures r.Some? ==> r.value.name in BrowserNames
    ensures r.Some? && r.value.name == "Google Chrome" <==>
      Contains(ua, "Chrome") && !Contains(ua, "Chromium") && Contains(ua, "Chrome/")
    ensures r.Some? && r.value.name == "Chromium" <==> Contains(ua, "Chromium") && Contains(ua, "Chromium/")
    ensures r.Some? && r.value.name == "Firefox" <==> PastChrome(ua) && Contains(ua, "Firefox") && Contains(ua, "Firefox/")
    ensures r.Some? && r.value.name == "Safari" <==> PastFirefox(ua) && Contains(ua, "Safari") && Contains(ua, "Version/")
    ensures r.Some? && r.value.name == "Opera" <==>
      PastSafari(ua) && (Contains(ua, "Opera") || Contains(ua, "OPR")) && (Contains(ua, "OPR/") || Contains(ua, "Opera/"))
    ensures r.Some? && r.value.name == "Microsoft Edge" <==> PastOpera(ua) && Contains(ua, "Edge") && Contains(ua, "Edge/")
    ensures r.Some? && r.value.name == "Internet Explorer" <==> PastEdge(ua) && Contains(ua, "Trident") && Contains(ua, "rv:")
    ensures r.Some? && r.value.name == "Unknown" <==> NoBrowserMarker(ua)
    ensures r.Some? ==> match r.value.name
      case "Google Chrome" => r.value.version == Between(ua, "Chrome/", " ")
      case "Chromium" => r.value.version == Between(ua, "Chromium/", " ")
      case "Firefox" => r.value.version == Second(ua, "Firefox/").value
      case "Safari" => r.value.version == Between(ua, "Version/", " ")
      case "Opera" => r.value.version == (if Contains(ua, "OPR/") then Between(ua, "OPR/", " ") else Between(ua, "Opera/", " "))
      case "Microsoft Edge" => r.value.version == Between(ua, "Edge/", " ")
      case "Internet Explorer" => r.value.version == Between(ua, "rv:", ")")
      case _ => r.value.version == "0"
  {
    if Contains(ua, "Chrome") && !Contains(ua, "Chromium") then Versioned("Google Chrome", ua, "Chrome/", " ")
    else if Contains(ua, "Chromium") then Versioned("Chromium", ua, "Chromium/", " ")
    else if Contains(ua, "Firefox") then
      match Second(ua, "Firefox/")
      case None => None
      case Some(v) => Some(Browser("Firefox", v))
    else if Contains(ua, "Safari") && Contains(ua, "Version/") then Versioned("Safari", ua, "Version/", " ")
    else if Contains(ua, "Opera") || Contains(ua, "OPR") then
      if Contains(ua, "OPR/") then Versioned("Opera", ua, "OPR/", " ") else Versioned("Opera", ua, "Opera/", " ")
    else if Contains(ua, "Edge") then Versioned("Microsoft Edge", ua, "Edge/", " ")
    else if Contains(ua, "Trident") then Versioned("Internet Explorer", ua, "rv:", ")")
    else Some(Browser("Unknown", "0"))
  }

  /** Neither the Windows nor the macOS test of `__ua2sec` holds. */
  predicate PastDesktop(ua: string) {
    !Contains(ua, "Windows NT") && !Contains(ua, "Macintosh") && !Contains(ua, "Mac OS X")
  }

  const PlatformNames: set<string> := {"Windows", "macOS", "Linux", "Android", "iOS", "Unknown"}

  /** The platform part of `__ua2sec`: the first branch whose test holds. */
  function DetectPlatform(ua: string): (r: string)
    ensures r in PlatformNames
    ensures r == "Windows" <==> Contains(ua, "Windows NT")
    ensures r == "macOS" <==> !Contains(ua, "Windows NT") && (Contains(ua, "Macintosh") || Contains(ua, "Mac OS X"))
    ensures r == "Linux" <==> PastDesktop(ua) && Contains(ua, "Linux") && !Contains(ua, "Android")
    ensures r == "Android" <==> PastDesktop(ua) && Contains(ua, "Android")
    ensures r == "iOS" <==>
      PastDesktop(ua) && !Contains(ua, "Linux") && !Contains(ua, "Android") && (Contains(ua, "iPhone") || Contains(ua, "iPad"))
    ensures r == "Unknown" <==>
      PastDesktop(ua) && !Contains(ua, "Linux") && !Contains(ua, "Android") && !Contains(ua, "iPhone") && !Contains(ua, "iPad")
  {
    if Contains(ua, "Windows NT") then "Windows"
    else if Contains(ua, "Macintosh") || Contains(ua, "Mac OS X") then "macOS"
    else if Contains(ua, "Linux") && !Contains(ua, "Android") then "Linux"
    else if Contains(ua, "Android") then "Android"
    else if Contains(ua, "iPhone") || Contains(ua, "iPad") then "iOS"
    else "Unknown"
  }

  /** The six keys of `__ua2sec`'s result, in order. */
  const SecKeys: seq<string> := [
    "sec-ch-ua", "sec-ch-ua-mobile", "sec-ch-ua-platform", "sec-fetch-dest", "sec-fetch-mode", "sec-fetch-site"]

  /** The pairs `(keys[i], values[i])`, as a dict literal lists them. */
  function Zip(keys: seq<string>, values: seq<string>): (r: seq<(string, string)>)
    requires |keys| == |values|
    ensures |r| == |keys| && forall i :: 0 <= i < |r| ==> r[i] == (keys[i], values[i])
  {
    seq(|keys|, i requires 0 <= i < |keys| => (keys[i], values[i]))
  }

  /** `version.split(".")[0]`. */
  function MajorVersion(version: string): (r: string)
    ensures '.' !in r && r <= version
  {
    var r := First(version, ".");
    assert forall j :: 0 <= j < |r| ==> r[j] != '.' by {
      forall j | 0 <= j < |r| ensures r[j] != '.' {
        if r[j] == '.' {
          ContainsAt(r, ".", j);
        }
      }
    }
    r
  }

  /** Text between double quotes. */
  function Quoted(s: string): string {
    [DoubleQuote] + s + [DoubleQuote]
  }

  /** One brand of `sec-ch-ua`: the quoted brand name, `;v=` and the quoted version. */
  function Brand(name: string, version: string): string {
    Quoted(name) + ";v=" + Quoted(version)
  }

  /**
   * `__ua2sec`: the six `sec-*` fields for a user agent, or nothing when the
   * version of the detected browser cannot be read.
   */
  function Ua2Sec(ua: string): (r: Option<seq<(string, string)>>)
    ensures r.None? <==> DetectBrowser(ua).None?
    ensures r.Some? ==> |r.value| == 6 && forall i :: 0 <= i < 6 ==> r.value[i].0 == SecKeys[i]
    ensures r.Some? ==> r.value[3].1 == "document" && r.value[4].1 == "navigate" && r.value[5].1 == "same-origin"
    ensures r.Some? ==> (r.value[1].1 == "?1" <==> Contains(ua, "Mobile"))
    ensures r.Some? ==> r.value[2].1 == Quoted(DetectPlatform(ua))
    ensures r.Some? ==> (r.value[0].1 ==
      Brand(DetectBrowser(ua).value.name, MajorVersion(DetectBrowser(ua).value.version)) + ", " + Brand("Not_A Brand", "99"))
  {
    match DetectBrowser(ua)
    case None => None
    case Some(b) =>
      var values := [
        Brand(b.name, MajorVersion(b.version)) + ", " + Brand("Not_A Brand", "99"),
        if Contains(ua, "Mobile") then "?1" else "?0",
        Quoted(DetectPlatform(ua)),
        "document",
        "navigate",
        "same-origin"];
      var fields := Zip(SecKeys, values);
      assert fields[0].1 == values[0] && fields[1].1 == values[1] && fields[2].1 == values[2];
      assert fields[3].1 == "document" && fields[4].1 == "navigate" && fields[5].1 == "same-origin";
      assert "?0" != "?1";
      Some(fields)
  }

  // ---- header dicts --------------------------------------------------------

  /** A header dict; `referer` may be `None`. */
  type HeaderDict = seq<(string, Json)>

  /** Where the `i`-th user agent and referer choice come from (`ua.random`, `random.choice`). */
  datatype Draws = Draws(userAgent: nat -> string, choice: nat -> nat)

  /** `random.choice(rList) if rList and isinstance(rList, list) else None`. */
  function RefererFor(rList: Json, draws: Draws, i: nat): (r: Json)
    ensures !Choosable(rList) ==> r == JNull
    ensures Choosable(rList) ==> r in rList.items
  {
    if Choosable(rList) then rList.items[draws.choice(i) % |rList.items|] else JNull
  }

  function SecAsJson(fields: seq<(string, string)>): HeaderDict {
    seq(|fields|, i requires 0 <= i < |fields| => (fields[i].0, JStr(fields[i].1)))
  }

  /** The dict `GenHeadersList` builds for one user agent and referer. */
  function HeaderFor(ua: string, referer: Json): (r: Option<HeaderDict>)
    ensures r.None? <==> Ua2Sec(ua).None?
    ensures r.Some? ==> |r.value| == 10 && r.value[2] == ("referer", referer) && r.value[3] == ("user-agent", JStr(ua))
  {
    match Ua2Sec(ua)
    case None => None
    case Some(sec) =>
      Some([("accept", JStr("*\U{2F}*")), ("accept-language", JStr("zh-CN,zh;q=0.9")),
            ("referer", referer), ("user-agent", JStr(ua))] + SecAsJson(sec))
  }

  /** The `i`-th draw, as `GenHeadersList` turns it into a dict. */
  function HeaderAt(rList: Json, draws: Draws, i: nat): (r: Option<HeaderDict>)
    ensures r.None? <==> Ua2Sec(draws.userAgent(i)).None?
    ensures r.Some? ==> DrawnAt(r.value, rList, draws, i)
  {
    HeaderFor(draws.userAgent(i), RefererFor(rList, draws, i))
  }

  /** All the draws of one `GenHeadersList` call. */
  function DrawAll(rList: Json, draws: Draws): nat -> Option<HeaderDict> {
    (i: nat) => HeaderAt(rList, draws, i)
  }

  /** The first `n` dicts built from the draws `make`, or nothing when one of them raises. */
  function Generated(n: nat, make: nat -> Option<HeaderDict>): (r: Option<seq<HeaderDict>>)
    ensures r.Some? ==> |r.value| == n
  {
    if n == 0 then Some([])
    else match Generated(n - 1, make)
      case None => None
      case Some(prefix) =>
        match make(n - 1)
        case None => None
        case Some(h) => Some(prefix + [h])
  }

  /** A referer list `random.choice` is applied to. */
  predicate Choosable(rList: Json) {
    rList.JArr? && rList.items != []
  }

  /** The dict built from the `i`-th draw: its user agent, and a referer from the list or `None`. */
  predicate DrawnAt(h: HeaderDict, rList: Json, draws: Draws, i: nat) {
    && |h| == 10
    && h[3] == ("user-agent", JStr(draws.userAgent(i)))
    && h[2].0 == "referer"
    && (if Choosable(rList) then h[2].1 in rList.items else h[2].1 == JNull)
  }

  /** The `i`-th dict generated is the `i`-th draw. */
  lemma {:induction false} GeneratedAt(n: nat, make: nat -> Option<HeaderDict>)
    requires Generated(n, make).Some?
    ensures forall i :: 0 <= i < n ==> make(i) == Some(Generated(n, make).value[i])
  {
    if n > 0 {
      var prefix := Generated(n - 1, make).value;
      GeneratedAt(n - 1, make);
      assert Generated(n, make).value == prefix + [make(n - 1).value];
    }
  }

  lemma GeneratedStep(n: nat, make: nat -> Option<HeaderDict>)
    ensures Generated(n + 1, make) ==
      if Generated(n, make).Some? && make(n).Some? then Some(Generated(n, make).value + [make(n).value]) else None
  {
  }

  /** Once a dict cannot be built, no longer run of draws can be either. */
  lemma {:induction false} GeneratedFailsOnward(k: nat, n: nat, make: nat -> Option<HeaderDict>)
    requires k <= n && Generated(k, make).None?
    ensures Generated(n, make).None?
    decreases n - k
  {
    if k < n {
      GeneratedFailsOnward(k + 1, n, make);
    }
  }

  /** Generation fails exactly when one of the draws fails. */
  lemma {:induction false} GeneratedFails(n: nat, make: nat -> Option<HeaderDict>)
    ensures Generated(n, make).None? <==> exists i :: 0 <= i < n && make(i).None?
  {
    if n > 0 {
      GeneratedFails(n - 1, make);
      if Generated(n, make).None? && make(n - 1).Some? {
        assert Generated(n - 1, make).None?;
        var i :| 0 <= i < n - 1 && make(i).None?;
      }
    }
  }

  /**
   * `GenHeadersList` yields one dict per draw, carrying its own user agent
   * and a `None` referer exactly when the referer list is empty or not a
   * list; it raises exactly when one of the user agents drawn has a version
   * that cannot be read.
   */
  lemma GeneratedHeaders(n: nat, rList: Json, draws: Draws)
    ensures Generated(n, DrawAll(rList, draws)).None? <==> exists i :: 0 <= i < n && Ua2Sec(draws.userAgent(i)).None?
    ensures Generated(n, DrawAll(rList, draws)).Some? ==>
      forall i :: 0 <= i < n ==> DrawnAt(Generated(n, DrawAll(rList, draws)).value[i], rList, draws, i)
  {
    var make := DrawAll(rList, draws);
    GeneratedFails(n, make);
    assert forall i :: make(i).None? <==> Ua2Sec(draws.userAgent(i)).None?;
    if Generated(n, make).Some? {
      GeneratedAt(n, make);
      assert forall i :: 0 <= i < n ==> Some(Generated(n, make).value[i]) == HeaderAt(rList, draws, i);
    }
  }

  /** `GenHeadersList(num, rList)`: the loop over `range(num)`. */
  method GenHeadersList(num: int, rList: Json, draws: Draws) returns (r: Option<seq<HeaderDict>>)
    ensures r == Generated(if num < 0 then 0 else num, DrawAll(rList, draws))
  {
    var n: nat := if num < 0 then 0 else num;
    var make := DrawAll(rList, draws);
    var retList: seq<HeaderDict> := [];
    for i := 0 to n
      invariant Generated(i, make) == Some(retList)
    {
      var headers := make(i);
      GeneratedStep(i, make);
      if headers.None? {
        GeneratedFailsOnward(i + 1, n, make);
        return None;
      }
      retList := retList + [headers.value];
    }
    return Some(retList);
  }

  /** The example referers used when no referer list was given. */
  const RefererExample: seq<string> := [
    "https://www.baidu.com", "https://kimi.moonshot.cn/?ref=aihub.cn", "https://github.com/", "https://www.example.com"]

  function AsJsonList(xs: seq<string>): (r: Json)
    ensures r.JArr? && |r.items| == |xs|
  {
    JArr(seq(|xs|, i requires 0 <= i < |xs| => JStr(xs[i])))
  }

  /** A `RandomHeaders` object with its connection check off. */
  class RandomHeaders {
    var headersList: seq<HeaderDict>
    var refererList: seq<string>

    /** The referers `resize` draws from: its own list, or the examples when that is empty. */
    function Referers(): (r: Json)
      reads this
      ensures r.JArr? && r.items != []
    {
      AsJsonList(if |refererList| > 0 then refererList else RefererExample)
    }

    /**
     * `resize(newsize)`: a negative size is refused and changes nothing; a
     * smaller size keeps the first `newsize` dicts; a larger one appends
     * `newsize - len` generated dicts. Nothing is returned, and the list is
     * left as it was, when generation raises.
     */
    method Resize(newsize: int, draws: Draws) returns (ok: Option<bool>)
      modifies this
      ensures refererList == old(refererList)
      ensures newsize < 0 ==> ok == Some(false) && headersList == old(headersList)
      ensures 0 <= newsize <= |old(headersList)| ==> ok == Some(true) && headersList == old(headersList)[..newsize]
      ensures newsize > |old(headersList)| ==>
        match Generated(newsize - |old(headersList)|, DrawAll(Referers(), draws))
        case None => ok.None? && headersList == old(headersList)
        case Some(extra) => ok == Some(true) && headersList == old(headersList) + extra
      ensures ok == Some(true) ==> newsize >= 0 && |headersList| == newsize
    {
      if newsize < 0 {
        return Some(false);
      }
      var delta := newsize - |headersList|;
      if delta < 0 {
        headersList := headersList[..newsize];
      } else {
        var extra := GenHeadersList(delta, Referers(), draws);
        if extra.None? {
          return None;
        }
        headersList := headersList + extra.value;
      }
      return Some(true);
    }

    /**
     * `modifyHeadersList(clear, addList)`: clearing empties the list,
     * otherwise a list argument is appended and anything else ignored.
     */
    method ModifyHeadersList(clear: bool, addList: Option<seq<HeaderDict>>) returns (ok: bool)
      modifies this
      ensures ok && refererList == old(refererList)
      ensures clear ==> headersList == []
      ensures !clear && addList.Some? ==> headersList == old(headersList) + addList.value
      ensures !clear && addList.None? ==> headersList == old(headersList)
    {
      if clear {
        headersList := [];
      } else if addList.Some? {
        headersList := headersList + addList.value;
      }
      return true;
    }
  }
}
