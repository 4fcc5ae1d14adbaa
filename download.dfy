/**
 * The segment downloader's bookkeeping (DownloadM3U8.py): the file names and
 * URLs planned from a playlist, the request counter, the adaptive timeout,
 * the failed files and their retry rounds, and the playlist rewrite that
 * drops the files that never arrived.
 */
module Download {
  import opened Wrappers
  import opened Text

  /** A playlist segment: the name it is written under and the URL it is fetched from. */
  datatype Segment = Segment(uri: string, absoluteUri: string)

  /** A decryption key, same fields. */
  datatype Key = Key(uri: string, absoluteUri: string)

  /** A parsed playlist; a key slot is `None` where the playlist names no key. */
  datatype Playlist = Playlist(keys: seq<Option<Key>>, segments: seq<Segment>)

  /** The playlist names keys: its first key slot holds one. */
  predicate HasKeys(p: Playlist) {
    |p.keys| > 0 && p.keys[0].Some?
  }

  /** Once the first key slot holds a key every slot must: the key loop reads each one's URL. */
  predicate KeysUsable(p: Playlist) {
    HasKeys(p) ==> forall i :: 0 <= i < |p.keys| ==> p.keys[i].Some?
  }

  function KeyName(i: nat): string {
    "key" + NatToString(i) + ".enc"
  }

  function SegmentName(i: nat): string {
    NatToString(i) + ".ts"
  }

  /** How many key files are planned. */
  function KeyCount(p: Playlist): nat {
    if HasKeys(p) then |p.keys| else 0
  }

  /** The file names `prepareDownload` plans: the key files, then the segment files. */
  function PlannedNames(p: Playlist): seq<string> {
    seq(KeyCount(p), i requires 0 <= i => KeyName(i)) + seq(|p.segments|, i requires 0 <= i => SegmentName(i))
  }

  /** The URLs `prepareDownload` plans, in the same order. */
  function PlannedUrls(p: Playlist): seq<string>
    requires KeysUsable(p)
  {
    seq(KeyCount(p), i requires 0 <= i < KeyCount(p) && KeysUsable(p) => p.keys[i].value.absoluteUri)
      + seq(|p.segments|, i requires 0 <= i < |p.segments| => p.segments[i].absoluteUri)
  }

  /** The playlist after `prepareDownload` has renamed its keys and segments to the planned file names. */
  function Renamed(p: Playlist): Playlist
    requires KeysUsable(p)
  {
    Playlist(
      if HasKeys(p) then seq(|p.keys|, i requires 0 <= i < |p.keys| && KeysUsable(p) => Some(p.keys[i].value.(uri := KeyName(i)))) else p.keys,
      seq(|p.segments|, i requires 0 <= i < |p.segments| => p.segments[i].(uri := SegmentName(i))))
  }

  /**
   * The planned lists are index-aligned with each other and with the
   * renamed playlist: file `k` is fetched from the URL of the key or
   * segment it names, and the playlist entry now carries that file name.
   */
  lemma PlannedAligned(p: Playlist)
    requires KeysUsable(p)
    ensures |PlannedNames(p)| == |PlannedUrls(p)| == KeyCount(p) + |p.segments|
    ensures forall i :: 0 <= i < KeyCount(p) ==>
      Renamed(p).keys[i] == Some(Key(PlannedNames(p)[i], PlannedUrls(p)[i])) && PlannedUrls(p)[i] == p.keys[i].value.absoluteUri
    ensures forall j :: 0 <= j < |p.segments| ==>
      Renamed(p).segments[j] == Segment(PlannedNames(p)[KeyCount(p) + j], PlannedUrls(p)[KeyCount(p) + j])
      && PlannedUrls(p)[KeyCount(p) + j] == p.segments[j].absoluteUri
  {
  }

  lemma NatToStringInjective(a: nat, b: nat)
    requires NatToString(a) == NatToString(b)
    ensures a == b
  {
    NatToStringRoundTrip(a);
    NatToStringRoundTrip(b);
  }

  lemma KeyNameInjective(a: nat, b: nat)
    requires KeyName(a) == KeyName(b)
    ensures a == b
  {
    var s := KeyName(a);
    assert NatToString(a) == s[3..|s| - 4];
    assert NatToString(b) == KeyName(b)[3..|KeyName(b)| - 4];
    NatToStringInjective(a, b);
  }

  lemma SegmentNameInjective(a: nat, b: nat)
    requires SegmentName(a) == SegmentName(b)
    ensures a == b
  {
    var s := SegmentName(a);
    assert NatToString(a) == s[..|s| - 3];
    assert NatToString(b) == SegmentName(b)[..|SegmentName(b)| - 3];
    NatToStringInjective(a, b);
  }

  lemma KeyNotSegment(a: nat, b: nat)
    ensures KeyName(a) != SegmentName(b)
  {
    NatToStringRoundTrip(b);
    assert IsDigit(SegmentName(b)[0]);
  }

  /** No two planned files share a name, so none overwrites another in the temporary folder. */
  lemma PlannedDistinct(p: Playlist)
    ensures forall i, j :: 0 <= i < j < |PlannedNames(p)| ==> PlannedNames(p)[i] != PlannedNames(p)[j]
  {
    var names := PlannedNames(p);
    var n := KeyCount(p);
    forall i, j | 0 <= i < j < |names| ensures names[i] != names[j] {
      if j < n {
        if names[i] == names[j] { KeyNameInjective(i, j); }
      } else if i < n {
        KeyNotSegment(i, j - n);
      } else {
        if names[i] == names[j] { SegmentNameInjective(i - n, j - n); }
      }
    }
  }

  /** The fields the download and retry rounds change, as one value. */
  datatype Counters = Counters(connections: int, timeout: int, failedNames: seq<string>, failedUrls: seq<string>)

  /**
   * Whether a request succeeds: given the request's position in the
   * connection count, the timeout in force and the URL. The network is not
   * part of this model.
   */
  type Fetch = (int, int, string) -> bool

  /** `__downloadSingle`: one more connection, and the file recorded as failed when the fetch fails. */
  function Single(st: Counters, name: string, url: string, fetch: Fetch): (r: Counters)
    ensures r.connections == st.connections + 1 && r.timeout == st.timeout
    ensures fetch(st.connections, st.timeout, url) ==> r.failedNames == st.failedNames && r.failedUrls == st.failedUrls
    ensures !fetch(st.connections, st.timeout, url) ==> r.failedNames == st.failedNames + [name] && r.failedUrls == st.failedUrls + [url]
  {
    var counted := st.(connections := st.connections + 1);
    if fetch(st.connections, st.timeout, url) then counted
    else counted.(failedNames := st.failedNames + [name], failedUrls := st.failedUrls + [url])
  }

  /** The first `n` pairs of `zip(names, urls)` downloaded in order. */
  function BatchN(st: Counters, names: seq<string>, urls: seq<string>, n: nat, fetch: Fetch): Counters
    requires n <= |names| && n <= |urls|
  {
    if n == 0 then st else Single(BatchN(st, names, urls, n - 1, fetch), names[n - 1], urls[n - 1], fetch)
  }

  function Min(a: int, b: int): int {
    if a <= b then a else b
  }

  /** Every pair of `zip(names, urls)` downloaded in order. */
  function Batch(st: Counters, names: seq<string>, urls: seq<string>, fetch: Fetch): Counters {
    BatchN(st, names, urls, Min(|names|, |urls|), fetch)
  }

  /** The failed lists are aligned and every failed (name, URL) pair is one of `pairs`. */
  predicate FailedFrom(st: Counters, pairs: set<(string, string)>) {
    |st.failedNames| == |st.failedUrls|
    && forall k :: 0 <= k < |st.failedNames| ==> (st.failedNames[k], st.failedUrls[k]) in pairs
  }

  /** The pairs of `zip(names, urls)`. */
  function Pairs(names: seq<string>, urls: seq<string>): set<(string, string)> {
    set k | 0 <= k < |names| && k < |urls| :: (names[k], urls[k])
  }

  /**
   * A batch makes exactly one connection per pair, leaves the timeout alone,
   * keeps the earlier failures, and adds only pairs it was given, name and
   * URL together.
   */
  lemma {:induction false} BatchEffect(st: Counters, names: seq<string>, urls: seq<string>, n: nat, fetch: Fetch, pairs: set<(string, string)>)
    requires n <= |names| && n <= |urls|
    requires FailedFrom(st, pairs)
    requires forall k :: 0 <= k < n ==> (names[k], urls[k]) in pairs
    ensures var r := BatchN(st, names, urls, n, fetch);
      r.connections == st.connections + n && r.timeout == st.timeout
      && |st.failedNames| <= |r.failedNames| <= |st.failedNames| + n
      && r.failedNames[..|st.failedNames|] == st.failedNames
      && FailedFrom(r, pairs)
  {
    if n > 0 {
      BatchEffect(st, names, urls, n - 1, fetch, pairs);
      var before := BatchN(st, names, urls, n - 1, fetch);
      var r := BatchN(st, names, urls, n, fetch);
      assert r == Single(before, names[n - 1], urls[n - 1], fetch);
      if !fetch(before.connections, before.timeout, urls[n - 1]) {
        assert r.failedNames[..|before.failedNames|] == before.failedNames;
        assert r.failedNames[..|st.failedNames|] == before.failedNames[..|st.failedNames|];
      }
    }
  }

  /** When every fetch fails, a batch records every pair, in order. */
  lemma {:induction false} BatchAllFail(st: Counters, names: seq<string>, urls: seq<string>, n: nat, fetch: Fetch)
    requires n <= |names| && n <= |urls|
    requires forall c, t, u :: !fetch(c, t, u)
    ensures BatchN(st, names, urls, n, fetch) ==
      Counters(st.connections + n, st.timeout, st.failedNames + names[..n], st.failedUrls + urls[..n])
  {
    if n > 0 {
      BatchAllFail(st, names, urls, n - 1, fetch);
      assert names[..n] == names[..n - 1] + [names[n - 1]];
      assert urls[..n] == urls[..n - 1] + [urls[n - 1]];
    }
  }

  /** When every fetch succeeds, a batch records no failure. */
  lemma {:induction false} BatchAllSucceed(st: Counters, names: seq<string>, urls: seq<string>, n: nat, fetch: Fetch)
    requires n <= |names| && n <= |urls|
    requires forall c, t, u :: fetch(c, t, u)
    ensures BatchN(st, names, urls, n, fetch) == st.(connections := st.connections + n)
  {
    if n > 0 {
      BatchAllSucceed(st, names, urls, n - 1, fetch);
    }
  }

  /**
   * One retry round: the failed lists are taken aside and cleared, the
   * timeout rises by 3 when `failed_time` is above 2, the taken files are
   * downloaded again, and `failed_time` counts a round with as many failures
   * as before, is reset to 1 by a round with fewer, and is left alone by one
   * with more.
   */
  function RetryRound(st: Counters, failedTime: int, fetch: Fetch): (Counters, int) {
    var cleared := Counters(st.connections, if failedTime > 2 then st.timeout + 3 else st.timeout, [], []);
    var after := Batch(cleared, st.failedNames, st.failedUrls, fetch);
    var nextTime :=
      if |after.failedNames| == |st.failedNames| then failedTime + 1
      else if |after.failedNames| >= |st.failedNames| then failedTime
      else 1;
    (after, nextTime)
  }

  /** The rounds of `RetryFailed` from round `attempt` on: stop after `retries` rounds, on an empty failed list, or once `failed_time` reaches 5. */
  function RetryFrom(st: Counters, attempt: nat, retries: int, failedTime: int, fetch: Fetch): Counters
    decreases retries - attempt
  {
    if attempt >= retries || |st.failedNames| == 0 then st
    else
      var (after, nextTime) := RetryRound(st, failedTime, fetch);
      if nextTime >= 5 then after else RetryFrom(after, attempt + 1, retries, nextTime, fetch)
  }

  /** `RetryFailed(retries)`. */
  function Retry(st: Counters, retries: int, fetch: Fetch): Counters {
    if retries <= 0 then st else RetryFrom(st, 0, retries, 0, fetch)
  }

  /** A round: one connection per failed file, failures never more than before, only old failures failing again. */
  lemma RoundEffect(st: Counters, failedTime: int, fetch: Fetch, pairs: set<(string, string)>)
    requires FailedFrom(st, pairs)
    ensures var (after, _) := RetryRound(st, failedTime, fetch);
      after.connections == st.connections + |st.failedNames|
      && after.timeout == (if failedTime > 2 then st.timeout + 3 else st.timeout)
      && |after.failedNames| <= |st.failedNames|
      && FailedFrom(after, pairs)
  {
    var cleared := Counters(st.connections, if failedTime > 2 then st.timeout + 3 else st.timeout, [], []);
    BatchEffect(cleared, st.failedNames, st.failedUrls, |st.failedNames|, fetch, pairs);
  }

  /**
   * The retries never lower the request count or the timeout, make at most
   * `retries` rounds of at most as many requests as there were failed files,
   * raise the timeout by at most 3 a round, never add failures, and leave
   * failed only files that had failed before, each under its own URL.
   */
  lemma {:induction false} RetryFromBounds(st: Counters, attempt: nat, retries: int, failedTime: int, fetch: Fetch, pairs: set<(string, string)>, m: nat)
    requires FailedFrom(st, pairs) && |st.failedNames| <= m && attempt <= retries
    ensures var r := RetryFrom(st, attempt, retries, failedTime, fetch);
      st.connections <= r.connections <= st.connections + (retries - attempt) * m
      && st.timeout <= r.timeout <= st.timeout + 3 * (retries - attempt)
      && |r.failedNames| <= |st.failedNames|
      && FailedFrom(r, pairs)
    decreases retries - attempt
  {
    RoundsTimesSize(retries - attempt, m);
    if attempt < retries && |st.failedNames| != 0 {
      var (after, nextTime) := RetryRound(st, failedTime, fetch);
      RoundEffect(st, failedTime, fetch, pairs);
      if nextTime < 5 {
        RetryFromBounds(after, attempt + 1, retries, nextTime, fetch, pairs, m);
      }
    }
  }

  /** `k` rounds of at most `m` requests: one round more is `m` more. */
  lemma RoundsTimesSize(k: int, m: nat)
    requires k >= 0
    ensures 0 <= k * m
    ensures k >= 1 ==> k * m == m + (k - 1) * m && m <= k * m
  {
  }

  /** `RetryFailed` with no retries, or with nothing failed, changes nothing. */
  lemma RetryNothing(st: Counters, retries: int, fetch: Fetch)
    requires retries <= 0 || st.failedNames == []
    ensures Retry(st, retries, fetch) == st
  {
  }

  /**
   * When every request fails the retries give up after five rounds: the
   * same files stay failed, each was requested five more times, and the
   * timeout rose by 3 in the fourth and fifth rounds.
   */
  lemma AllFailGivesUp(st: Counters, retries: int, fetch: Fetch)
    requires forall c, t, u :: !fetch(c, t, u)
    requires |st.failedNames| == |st.failedUrls| > 0 && retries >= 5
    ensures var r := Retry(st, retries, fetch);
      r.failedNames == st.failedNames && r.failedUrls == st.failedUrls
      && r.connections == st.connections + 5 * |st.failedNames|
      && r.timeout == st.timeout + 6
  {
    AllFailFrom(st, 0, retries, 0, fetch);
  }

  lemma {:induction false} AllFailFrom(st: Counters, attempt: nat, retries: int, failedTime: int, fetch: Fetch)
    requires forall c, t, u :: !fetch(c, t, u)
    requires |st.failedNames| == |st.failedUrls| > 0
    requires 0 <= failedTime < 5 && attempt + (5 - failedTime) <= retries
    ensures var r := RetryFrom(st, attempt, retries, failedTime, fetch);
      r.failedNames == st.failedNames && r.failedUrls == st.failedUrls
      && r.connections == st.connections + (5 - failedTime) * |st.failedNames|
      && r.timeout == st.timeout + 3 * (if failedTime <= 3 then 2 else 1)
    decreases 5 - failedTime
  {
    var n := |st.failedNames|;
    var cleared := Counters(st.connections, if failedTime > 2 then st.timeout + 3 else st.timeout, [], []);
    BatchAllFail(cleared, st.failedNames, st.failedUrls, n, fetch);
    assert st.failedNames[..n] == st.failedNames && st.failedUrls[..n] == st.failedUrls;
    var after := Counters(st.connections + n, cleared.timeout, st.failedNames, st.failedUrls);
    assert Batch(cleared, st.failedNames, st.failedUrls, fetch) == after;
    assert RetryRound(st, failedTime, fetch) == (after, failedTime + 1);
    RoundsTimesSize(5 - failedTime, n);
    if failedTime + 1 < 5 {
      assert RetryFrom(st, attempt, retries, failedTime, fetch) == RetryFrom(after, attempt + 1, retries, failedTime + 1, fetch);
      AllFailFrom(after, attempt + 1, retries, failedTime + 1, fetch);
    } else {
      assert RetryFrom(st, attempt, retries, failedTime, fetch) == after;
    }
  }

  /** When every request succeeds one round clears the failed list and the retries stop. */
  lemma AllSucceedClears(st: Counters, retries: int, fetch: Fetch)
    requires forall c, t, u :: fetch(c, t, u)
    requires |st.failedNames| == |st.failedUrls| && retries >= 1
    ensures var r := Retry(st, retries, fetch);
      r.failedNames == [] && r.failedUrls == [] && r.connections == st.connections + |st.failedNames|
  {
    if st.failedNames != [] {
      var cleared := Counters(st.connections, st.timeout, [], []);
      BatchAllSucceed(cleared, st.failedNames, st.failedUrls, |st.failedNames|, fetch);
      var after := cleared.(connections := st.connections + |st.failedNames|);
      assert RetryRound(st, 0, fetch) == (after, 1);
      assert RetryFrom(after, 1, retries, 1, fetch) == after;
    }
  }

  /**
   * `TimeoutAdapting`, the ratio `failed / connections` read as an exact
   * fraction: below 15 connections, or at the cap, nothing changes;
   * otherwise a failure ratio above 0.3 raises the timeout by 3.
   */
  function AdaptedTimeout(connections: int, timeout: int, maxTimeout: int, failed: nat): int {
    if connections < 15 then timeout
    else if timeout >= maxTimeout then timeout
    else if (failed as real) / (connections as real) > 0.3 then timeout + 3
    else timeout
  }

  /** The ratio test in whole numbers: the timeout rises by exactly 3 iff `10 * failed > 3 * connections`. */
  lemma AdaptedTimeoutRule(connections: int, timeout: int, maxTimeout: int, failed: nat)
    ensures connections < 15 || timeout >= maxTimeout ==> AdaptedTimeout(connections, timeout, maxTimeout, failed) == timeout
    ensures connections >= 15 && timeout < maxTimeout ==>
      AdaptedTimeout(connections, timeout, maxTimeout, failed) == (if 10 * failed > 3 * connections then timeout + 3 else timeout)
  {
    if connections >= 15 && timeout < maxTimeout {
      RatioAbove(failed, connections);
    }
  }

  /** `f / c > 0.3` in exact fractions is `10 * f > 3 * c`. */
  lemma RatioAbove(f: nat, c: int)
    requires c > 0
    ensures (f as real) / (c as real) > 0.3 <==> 10 * f > 3 * c
  {
    var fr, cr := f as real, c as real;
    var q := fr / cr;
    assert q * cr == fr;
    assert (10 * f) as real == 10.0 * fr && (3 * c) as real == 3.0 * cr;
    if q > 0.3 {
      ProductAbove(q, 0.3, cr);
      assert 10.0 * fr > 3.0 * cr;
    } else {
      ProductAbove(0.3, q, cr);
      assert 10.0 * fr <= 3.0 * cr;
    }
  }

  lemma ProductAbove(a: real, b: real, c: real)
    requires a >= b && c > 0.0
    ensures a * c >= b * c
    ensures a > b ==> a * c > b * c
  {
  }

  /** Adapting alone never takes a timeout below the cap more than 2 past it. */
  lemma AdaptedTimeoutCapped(connections: int, timeout: int, maxTimeout: int, failed: nat)
    requires timeout < maxTimeout
    ensures timeout <= AdaptedTimeout(connections, timeout, maxTimeout, failed) < maxTimeout + 3
  {
  }

  /** The segments `WriteM3U8` keeps: those whose file is not among the failed, in order. */
  function Kept(segments: seq<Segment>, failed: seq<string>): (r: seq<Segment>)
    ensures |r| <= |segments|
    ensures forall s :: s in r <==> s in segments && s.uri !in failed
  {
    if segments == [] then []
    else
      var last := segments[|segments| - 1];
      assert segments == segments[..|segments| - 1] + [last];
      Kept(segments[..|segments| - 1], failed) + (if last.uri in failed then [] else [last])
  }

  /** Filtering distributes over concatenation: the kept segments stay in their playlist order. */
  lemma {:induction false} KeptAppend(a: seq<Segment>, b: seq<Segment>, failed: seq<string>)
    ensures Kept(a + b, failed) == Kept(a, failed) + Kept(b, failed)
    decreases |b|
  {
    if b == [] {
      assert a + b == a;
    } else {
      var b0 := b[..|b| - 1];
      assert (a + b)[..|a + b| - 1] == a + b0;
      KeptAppend(a, b0, failed);
    }
  }

  /** With no failed file every segment is kept. */
  lemma {:induction false} KeptAll(segments: seq<Segment>)
    ensures Kept(segments, []) == segments
    decreases |segments|
  {
    if segments != [] {
      KeptAll(segments[..|segments| - 1]);
    }
  }

  /** `DownloadM3U8`: the planned files, the playlist and the counters. */
  class Downloader {
    var fileNameList: seq<string>
    var fileUrlList: seq<string>
    var playlist: Playlist
    var connections: int
    var timeout: int
    const maxTimeout: int
    var failedNameList: seq<string>
    var failedUrlList: seq<string>

    function Progress(): Counters
      reads this
    {
      Counters(connections, timeout, failedNameList, failedUrlList)
    }

    /** The object after `__init__`: the playlist prepared, 4 seconds of timeout, a cap of 25, nothing failed. */
    constructor(source: Playlist)
      requires KeysUsable(source)
      ensures fileNameList == PlannedNames(source) && fileUrlList == PlannedUrls(source)
      ensures playlist == Renamed(source)
      ensures Progress() == Counters(0, 4, [], []) && maxTimeout == 25
    {
      fileNameList := [];
      fileUrlList := [];
      playlist := source;
      connections := 0;
      timeout := 4;
      maxTimeout := 25;
      failedNameList := [];
      failedUrlList := [];
      new;
      PrepareDownload(source);
    }

    /** `prepareDownload` on an already parsed playlist: key files first, then segment files. */
    method PrepareDownload(source: Playlist)
      requires KeysUsable(source)
      modifies this`fileNameList, this`fileUrlList, this`playlist
      ensures fileNameList == old(fileNameList) + PlannedNames(source)
      ensures fileUrlList == old(fileUrlList) + PlannedUrls(source)
      ensures playlist == Renamed(source)
    {
      var keys := source.keys;
      if HasKeys(source) {
        keys := PlanKeys(source);
      }
      var segments := PlanSegments(source);
      playlist := Playlist(keys, segments);
    }

    /** The key loop of `prepareDownload`: `key{i}.enc` for key `i`. */
    method PlanKeys(source: Playlist) returns (keys: seq<Option<Key>>)
      requires HasKeys(source) && KeysUsable(source)
      modifies this`fileNameList, this`fileUrlList
      ensures keys == Renamed(source).keys
      ensures fileNameList == old(fileNameList) + seq(|source.keys|, k requires 0 <= k => KeyName(k))
      ensures fileUrlList == old(fileUrlList) + seq(|source.keys|, k requires 0 <= k < |source.keys| => source.keys[k].value.absoluteUri)
    {
      keys := source.keys;
      for i := 0 to |source.keys|
        invariant |keys| == |source.keys|
        invariant forall k :: 0 <= k < |keys| ==> keys[k] == (if k < i then Renamed(source).keys[k] else source.keys[k])
        invariant fileNameList == old(fileNameList) + seq(i, k requires 0 <= k => KeyName(k))
        invariant fileUrlList == old(fileUrlList) + seq(i, k requires 0 <= k < i => source.keys[k].value.absoluteUri)
      {
        var key := keys[i].value;
        fileUrlList := fileUrlList + [key.absoluteUri];
        keys := keys[i := Some(key.(uri := KeyName(i)))];
        fileNameList := fileNameList + [KeyName(i)];
      }
    }

    /** The segment loop of `prepareDownload`: `{i}.ts` for segment `i`. */
    method PlanSegments(source: Playlist) returns (segments: seq<Segment>)
      requires KeysUsable(source)
      modifies this`fileNameList, this`fileUrlList
      ensures segments == Renamed(source).segments
      ensures fileNameList == old(fileNameList) + seq(|source.segments|, k requires 0 <= k => SegmentName(k))
      ensures fileUrlList == old(fileUrlList) + seq(|source.segments|, k requires 0 <= k < |source.segments| => source.segments[k].absoluteUri)
    {
      segments := source.segments;
      for i := 0 to |source.segments|
        invariant |segments| == |source.segments|
        invariant forall k :: 0 <= k < |segments| ==> segments[k] == (if k < i then Renamed(source).segments[k] else source.segments[k])
        invariant fileNameList == old(fileNameList) + seq(i, k requires 0 <= k => SegmentName(k))
        invariant fileUrlList == old(fileUrlList) + seq(i, k requires 0 <= k < i => source.segments[k].absoluteUri)
      {
        fileUrlList := fileUrlList + [segments[i].absoluteUri];
        segments := segments[i := segments[i].(uri := SegmentName(i))];
        fileNameList := fileNameList + [SegmentName(i)];
      }
    }

    /** `__downloadSingle`, the outcome of the request given by `fetch`. */
    method DownloadSingle(fileName: string, fileUrl: string, fetch: Fetch)
      modifies this`connections, this`failedNameList, this`failedUrlList
      ensures Progress() == Single(old(Progress()), fileName, fileUrl, fetch)
    {
      if fetch(connections, timeout, fileUrl) {
        connections := connections + 1;
      } else {
        failedNameList := failedNameList + [fileName];
        failedUrlList := failedUrlList + [fileUrl];
        connections := connections + 1;
      }
    }

    /** The download pool over `zip(names, urls)`, one request after another. */
    method DownloadAll(names: seq<string>, urls: seq<string>, fetch: Fetch)
      modifies this`connections, this`failedNameList, this`failedUrlList
      ensures Progress() == Batch(old(Progress()), names, urls, fetch)
    {
      var n := Min(|names|, |urls|);
      for i := 0 to n
        invariant Progress() == BatchN(old(Progress()), names, urls, i, fetch)
      {
        DownloadSingle(names[i], urls[i], fetch);
      }
    }

    /** `RetryFailed`. */
    method RetryFailed(retries: int, fetch: Fetch)
      modifies this`connections, this`timeout, this`failedNameList, this`failedUrlList
      ensures Progress() == Retry(old(Progress()), retries, fetch)
    {
      if retries <= 0 {
        return;
      }
      var failedTime := 0;
      for attempt := 0 to retries
        invariant Retry(old(Progress()), retries, fetch) == RetryFrom(Progress(), attempt, retries, failedTime, fetch)
      {
        if |failedNameList| == 0 {
          break;
        }
        ghost var st, time0 := Progress(), failedTime;
        var names, urls := failedNameList, failedUrlList;
        failedNameList, failedUrlList := [], [];
        if failedTime > 2 {
          timeout := timeout + 3;
        }
        DownloadAll(names, urls, fetch);
        if |failedNameList| == |names| {
          failedTime := failedTime + 1;
        } else if |failedNameList| >= |names| {
        } else {
          failedTime := 1;
        }
        assert (Progress(), failedTime) == RetryRound(st, time0, fetch);
        if failedTime >= 5 {
          break;
        }
      }
    }

    /** `WriteM3U8`, without the file write: the playlist loses the segments whose file failed. */
    method WriteM3U8()
      modifies this`playlist
      ensures playlist == old(playlist).(segments := Kept(old(playlist.segments), failedNameList))
    {
      playlist := playlist.(segments := Kept(playlist.segments, failedNameList));
    }

    /** `DonwloadAndWrite`: every planned file, the retries, then the playlist rewrite. */
    method DownloadAndWrite(retries: int, fetch: Fetch)
      modifies this`connections, this`timeout, this`failedNameList, this`failedUrlList, this`playlist
      ensures Progress() == Retry(Batch(old(Progress()), fileNameList, fileUrlList, fetch), retries, fetch)
      ensures playlist == old(playlist).(segments := Kept(old(playlist.segments), failedNameList))
    {
      DownloadAll(fileNameList, fileUrlList, fetch);
      RetryFailed(retries, fetch);
      WriteM3U8();
    }

    /** `TimeoutAdapting`. */
    method TimeoutAdapting()
      modifies this`timeout
      ensures timeout == AdaptedTimeout(connections, old(timeout), maxTimeout, |failedNameList|)
    {
      if connections < 15 {
        return;
      }
      if timeout >= maxTimeout {
        return;
      }
      if (|failedNameList| as real) / (connections as real) > 0.3 {
        timeout := timeout + 3;
      }
    }
  }

  /**
   * After a whole download of a prepared playlist, with any outcome of the
   * requests, every file still failed is a planned file under its own URL.
   */
  lemma DownloadOutcome(p: Playlist, retries: int, fetch: Fetch)
    requires KeysUsable(p)
    ensures var names := PlannedNames(p);
      var urls := PlannedUrls(p);
      var r := Retry(Batch(Counters(0, 4, [], []), names, urls, fetch), retries, fetch);
      FailedFrom(r, Pairs(names, urls))
  {
    var names := PlannedNames(p);
    var urls := PlannedUrls(p);
    PlannedAligned(p);
    var st := Counters(0, 4, [], []);
    BatchEffect(st, names, urls, |names|, fetch, Pairs(names, urls));
    var b := Batch(st, names, urls, fetch);
    if retries > 0 {
      RetryFromBounds(b, 0, retries, 0, fetch, Pairs(names, urls), |b.failedNames|);
    }
  }
}
