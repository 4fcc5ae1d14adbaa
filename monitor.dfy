/**
 * The monitor's candidate store: the playlist URLs seen (`possible`), the
 * guessed variants (`predicted`), the pages worth visiting
 * (`page_candidates`), the referer hints, and the controlled recursion that
 * visits candidate pages through child monitors.
 */
module Monitor {
  import opened Text
  import opened JsonValue
  import opened Url
  import opened Classify
  import opened Ordering
  import opened Cookies

  /** A URL the store may keep as a playlist. */
  predicate PlaylistTarget(lib: Lib, u: string) {
    u != "" && IsM3u8Url(u) && IsHttpUrl(lib, u)
  }

  /** `{c}` when `c` is a playlist URL, the empty set otherwise. */
  function PlaylistAddition(c: string): set<string> {
    if c != "" && IsM3u8Url(c) then {c} else {}
  }

  /** `{c}` when `c` is a page worth visiting, the empty set otherwise. */
  function PageAddition(lib: Lib, c: string): set<string> {
    if c != "" && IsPageCandidate(lib, c) then {c} else {}
  }

  /** The query keys `_extract_nested_m3u8_from_wrapper` looks under, in order. */
  const NestedKeys: seq<string> := ["url", "v", "source", "src"]

  /** `_normalize_url(u)` with no base, as a function value. */
  function Normalizer(lib: Lib): string -> string {
    u => NormalizeUrl(lib, u, "")
  }

  /** A nested query value as the monitor reads it: `_normalize_url(unquote(raw))`. */
  function NestedValue(lib: Lib, raw: string): string {
    NormalizeUrl(lib, lib.unquote(raw), "")
  }

  function NestedDecoder(lib: Lib): string -> string {
    raw => NestedValue(lib, raw)
  }

  /** `_same_site(u, origin)`, as a function value. */
  function SameSiteAs(lib: Lib, origin: string): string -> bool {
    u => SameSite(lib, u, origin)
  }

  /** The playlist URLs among the values `raws` once each is decoded by `decode`. */
  function Targets(decode: string -> string, raws: seq<string>): set<string> {
    if raws == [] then {}
    else Targets(decode, raws[..|raws| - 1]) + PlaylistAddition(decode(raws[|raws| - 1]))
  }

  lemma TargetsAppend(decode: string -> string, raws: seq<string>, raw: string)
    ensures Targets(decode, raws + [raw]) == Targets(decode, raws) + PlaylistAddition(decode(raw))
  {
    assert (raws + [raw])[..|raws|] == raws;
  }

  /** A URL is a target exactly when it is a playlist URL that some value decodes to. */
  lemma {:induction false} TargetsMembers(decode: string -> string, raws: seq<string>, u: string)
    ensures u in Targets(decode, raws) <==> u != "" && IsM3u8Url(u) && exists raw :: raw in raws && decode(raw) == u
  {
    if raws != [] {
      var p := raws[..|raws| - 1];
      var last := raws[|raws| - 1];
      assert raws == p + [last];
      TargetsMembers(decode, p, u);
      if u in Targets(decode, raws) {
        if u in Targets(decode, p) {
          var raw :| raw in p && decode(raw) == u;
          assert raw in raws;
        } else {
          assert u in PlaylistAddition(decode(last));
          assert last in raws;
        }
      }
      if u != "" && IsM3u8Url(u) && exists raw :: raw in raws && decode(raw) == u {
        var raw :| raw in raws && decode(raw) == u;
        if raw in p {
          assert u in Targets(decode, p);
        } else {
          assert raw == last;
          assert u in PlaylistAddition(decode(last));
        }
      }
    }
  }

  /** The values bound to `keys`, key after key, in the parsed query `pairs`. */
  function KeyedValues(pairs: seq<(string, string)>, keys: seq<string>): seq<string> {
    if keys == [] then []
    else KeyedValues(pairs, keys[..|keys| - 1]) + QueryValues(pairs, keys[|keys| - 1])
  }

  /** A value is keyed exactly when some pair binds it to one of the keys. */
  lemma {:induction false} KeyedValuesMembers(pairs: seq<(string, string)>, keys: seq<string>)
    ensures forall v :: v in KeyedValues(pairs, keys) <==> exists k :: k in keys && (k, v) in pairs
  {
    if keys != [] {
      var p := keys[..|keys| - 1];
      KeyedValuesMembers(pairs, p);
      assert forall k :: k in keys <==> k in p || k == keys[|keys| - 1];
    }
  }

  /** The parsed query of a URL, as `parse_qs` sees it. */
  function QueryPairs(lib: Lib, url: string): seq<(string, string)> {
    ParseQsl(lib.urlparse(url).query, lib.unquote)
  }

  /** The playlist URLs nested in a wrapper page URL under `url`, `v`, `source` or `src`. */
  function WrapperTargets(lib: Lib, url: string): set<string> {
    Targets(NestedDecoder(lib), KeyedValues(QueryPairs(lib, url), NestedKeys))
  }

  /** A nested target is a decoded value of one of the four keys of the wrapper's query. */
  lemma WrapperTargetsFromQuery(lib: Lib, url: string, u: string)
    ensures u in WrapperTargets(lib, url) <==>
      u != "" && IsM3u8Url(u) &&
      (exists key, raw :: key in NestedKeys && (key, raw) in QueryPairs(lib, url) && NormalizeUrl(lib, lib.unquote(raw), "") == u)
    ensures u in WrapperTargets(lib, url) ==> PlaylistTarget(lib, u)
  {
    var pairs := QueryPairs(lib, url);
    var raws := KeyedValues(pairs, NestedKeys);
    var decode := NestedDecoder(lib);
    TargetsMembers(decode, raws, u);
    KeyedValuesMembers(pairs, NestedKeys);
    if u in WrapperTargets(lib, url) {
      var raw :| raw in raws && decode(raw) == u;
      assert NormalizeUrl(lib, lib.unquote(raw), "") == u;
    }
    if u != "" && IsM3u8Url(u) &&
      exists key, raw :: key in NestedKeys && (key, raw) in pairs && NormalizeUrl(lib, lib.unquote(raw), "") == u
    {
      var key, raw :| key in NestedKeys && (key, raw) in pairs && NormalizeUrl(lib, lib.unquote(raw), "") == u;
      assert raw in raws;
      assert decode(raw) == u;
    }
  }

  /** `m` with `referer` recorded for every URL of `urls`; nothing when the referer is empty. */
  function WithHint(m: map<string, string>, urls: set<string>, referer: string): (r: map<string, string>)
    ensures referer == "" ==> r == m
    ensures referer != "" ==> r.Keys == m.Keys + urls
    ensures forall u :: u in r ==> r[u] == (if u in urls && referer != "" then referer else m[u])
  {
    if referer == "" then m else m + map u | u in urls :: referer
  }

  /** `if referer: m[url] = referer`. */
  function HintOne(m: map<string, string>, url: string, referer: string): map<string, string> {
    if referer != "" then m[url := referer] else m
  }

  /** One hint is the hint for a one-element set. */
  lemma HintOneSingle(m: map<string, string>, url: string, referer: string)
    ensures HintOne(m, url, referer) == WithHint(m, {url}, referer)
  {
  }

  /** The values `before` followed by the first `j + 1` of `values`. */
  lemma PrefixStep(before: seq<string>, values: seq<string>, j: int)
    requires 0 <= j < |values|
    ensures before + values[..j + 1] == (before + values[..j]) + [values[j]]
  {
    assert values[..j + 1] == values[..j] + [values[j]];
  }

  /** Recording hints for two sets in turn records them for their union. */
  lemma WithHintUnion(m: map<string, string>, a: set<string>, b: set<string>, referer: string)
    ensures WithHint(WithHint(m, a, referer), b, referer) == WithHint(m, a + b, referer)
  {
  }

  /** The variants `_add_m3u8_candidate` guesses for a playlist URL. */
  function Variants(url: string): (r: set<string>)
    ensures forall v :: v in r ==> v != "" && v != url
  {
    var index := PredictVariant(url, "index.m3u8");
    var mixed := PredictVariant(url, "mixed.m3u8");
    VariantSet(index) + VariantSet(mixed)
  }

  /** The ordering key of `_ordered_m3u8_lists`: higher score first, then the URL. */
  function PriorityRank(lib: Lib, origin: string): string -> int {
    u => -M3u8Priority(lib, u, origin)
  }

  /** The ordering of a plain `list.sort()` on strings. */
  function Unranked(): string -> int {
    u => 0
  }

  /** A list sorted by `PriorityRank` puts higher scores first and breaks ties by the URL. */
  lemma PrioritySorted(lib: Lib, origin: string, xs: seq<string>, i: int, j: int)
    requires SortedBy(PriorityRank(lib, origin), xs) && 0 <= i < j < |xs|
    ensures M3u8Priority(lib, xs[i], origin) > M3u8Priority(lib, xs[j], origin)
      || (M3u8Priority(lib, xs[i], origin) == M3u8Priority(lib, xs[j], origin) && StrLess(xs[i], xs[j]))
  {
    assert Before(PriorityRank(lib, origin), xs[i], xs[j]);
  }

  /** Splits `s` by the predicate `p`, visiting its elements in any order. */
  method PartitionBy(s: set<string>, p: string -> bool) returns (yes: set<string>, no: set<string>)
    ensures yes !! no && yes + no == s
    ensures forall u :: u in yes ==> p(u)
    ensures forall u :: u in no ==> !p(u)
  {
    yes, no := {}, {};
    var rest := s;
    while rest != {}
      invariant rest <= s && yes !! no
      invariant forall u :: u in s <==> u in rest || u in yes || u in no
      invariant forall u :: u in yes ==> p(u) && u !in rest
      invariant forall u :: u in no ==> !p(u) && u !in rest
      decreases |rest|
    {
      var url :| url in rest;
      if p(url) {
        yes := yes + {url};
      } else {
        no := no + {url};
      }
      rest := rest - {url};
    }
  }

  /** `sorted(yes) + sorted(no)`, with `split` where the second group starts. */
  method SortedGroups(yes: set<string>, no: set<string>, p: string -> bool) returns (ranked: seq<string>, split: nat)
    requires yes !! no
    requires forall u :: u in yes ==> p(u)
    requires forall u :: u in no ==> !p(u)
    ensures split <= |ranked| == |yes + no|
    ensures forall u :: u in ranked <==> u in yes + no
    ensures SortedBy(Unranked(), ranked[..split]) && SortedBy(Unranked(), ranked[split..])
    ensures forall k :: 0 <= k < |ranked| ==> (p(ranked[k]) <==> k < split)
  {
    var s := SortSet(yes, Unranked());
    var c := SortSet(no, Unranked());
    ranked := s + c;
    split := |s|;
    assert ranked[..split] == s && ranked[split..] == c;
    assert |yes + no| == |yes| + |no|;
    forall k | 0 <= k < |ranked| ensures p(ranked[k]) <==> k < split {
      if k < split {
        assert ranked[k] == s[k] && s[k] in yes;
      } else {
        assert ranked[k] == c[k - split] && c[k - split] in no;
      }
    }
  }

  /** What a child monitor run reports back to its parent. */
  datatype ChildRun = ChildRun(
    possible: seq<string>,               // child_possible
    predicted: seq<string>,              // child_predicted
    cookies: seq<Json>,                  // child_hints["cookies"]
    refererMap: map<string, string>,     // child_hints["referer_map"]
    ranked: seq<string>)                 // child._rank_recursive_candidates()

  /** The child monitor for an explored node: depth 2 below the last level, 1 at it. */
  function ChildOf(child: (string, int) -> ChildRun, depth: int, node: (string, int)): ChildRun {
    child(node.0, if node.1 < depth then 2 else 1)
  }

  /** The playlist URLs the explored nodes' children reported, in exploration order. */
  function GatheredPossible(child: (string, int) -> ChildRun, depth: int, nodes: seq<(string, int)>): seq<string> {
    if nodes == [] then []
    else GatheredPossible(child, depth, nodes[..|nodes| - 1]) + ChildOf(child, depth, nodes[|nodes| - 1]).possible
  }

  function GatheredPredicted(child: (string, int) -> ChildRun, depth: int, nodes: seq<(string, int)>): seq<string> {
    if nodes == [] then []
    else GatheredPredicted(child, depth, nodes[..|nodes| - 1]) + ChildOf(child, depth, nodes[|nodes| - 1]).predicted
  }

  /** The session cookies after merging each explored child's cookies in turn. */
  function CookiesAfter(start: seq<Json>, child: (string, int) -> ChildRun, depth: int, nodes: seq<(string, int)>): seq<Json> {
    if nodes == [] then start
    else Merged(CookiesAfter(start, child, depth, nodes[..|nodes| - 1]) + ChildOf(child, depth, nodes[|nodes| - 1]).cookies)
  }

  /** The referer map after `update`-ing it with each explored child's map in turn. */
  function ReferersAfter(start: map<string, string>, child: (string, int) -> ChildRun, depth: int, nodes: seq<(string, int)>): map<string, string> {
    if nodes == [] then start
    else ReferersAfter(start, child, depth, nodes[..|nodes| - 1]) + ChildOf(child, depth, nodes[|nodes| - 1]).refererMap
  }

  /** One more explored node extends each accumulated result by its child's. */
  lemma ExploredStep(child: (string, int) -> ChildRun, depth: int, nodes: seq<(string, int)>, node: (string, int),
    possibleIn: seq<string>, predictedIn: seq<string>, cookies0: seq<Json>, referers0: map<string, string>)
    ensures var run := ChildOf(child, depth, node);
      possibleIn + GatheredPossible(child, depth, nodes + [node]) == (possibleIn + GatheredPossible(child, depth, nodes)) + run.possible
      && predictedIn + GatheredPredicted(child, depth, nodes + [node]) == (predictedIn + GatheredPredicted(child, depth, nodes)) + run.predicted
      && CookiesAfter(cookies0, child, depth, nodes + [node]) == Merged(CookiesAfter(cookies0, child, depth, nodes) + run.cookies)
      && ReferersAfter(referers0, child, depth, nodes + [node]) == ReferersAfter(referers0, child, depth, nodes) + run.refererMap
  {
    assert (nodes + [node])[..|nodes|] == nodes;
  }

  /** The number of nodes whose URL is not on the home site (`sameSite` fails). */
  function CrossCount(sameSite: string -> bool, nodes: seq<(string, int)>): (n: nat)
    ensures n <= |nodes|
  {
    if nodes == [] then 0
    else CrossCount(sameSite, nodes[..|nodes| - 1]) + (if sameSite(nodes[|nodes| - 1].0) then 0 else 1)
  }

  function MaxNodes(depth: int): int {
    if depth * 8 > 8 then depth * 8 else 8
  }

  function MaxCrossSite(depth: int): int {
    if depth * 2 > 2 then depth * 2 else 2
  }

  /** Every queued node has a URL and a level of at least 2 and at most `level`. */
  predicate QueueFrom(queue: seq<(string, int)>, level: int) {
    forall k :: 0 <= k < |queue| ==> queue[k].0 != "" && 2 <= queue[k].1 <= level
  }

  /** The explored nodes so far: distinct, visited, non-empty, not the home page, at levels 2..depth. */
  predicate ExploredOk(explored: seq<(string, int)>, home: string, depth: int, visited: set<string>) {
    && (forall k :: 0 <= k < |explored| ==>
          explored[k].0 != "" && explored[k].0 != home && 2 <= explored[k].1 <= depth && explored[k].0 in visited)
    && (forall i, j :: 0 <= i < j < |explored| ==> explored[i].0 != explored[j].0)
  }

  /** Exploring a node not visited yet keeps the explored nodes in order and counts it if it is off-site. */
  lemma ExploredAppend(sameSite: string -> bool, explored: seq<(string, int)>, node: (string, int), home: string, depth: int,
    visited: set<string>)
    requires ExploredOk(explored, home, depth, visited)
    requires node.0 != "" && node.0 != home && 2 <= node.1 <= depth && node.0 !in visited
    ensures ExploredOk(explored + [node], home, depth, visited + {node.0})
    ensures CrossCount(sameSite, explored + [node]) == CrossCount(sameSite, explored) + (if sameSite(node.0) then 0 else 1)
  {
    assert (explored + [node])[..|explored|] == explored;
  }

  /**
   * The URLs an enqueueing loop adds, in order: each normalised candidate
   * that is not empty, not queued before and not added earlier in the loop.
   */
  function Fresh(normalize: string -> string, candidates: seq<string>, queued: set<string>): seq<string>
    decreases |candidates|
  {
    if candidates == [] then []
    else
      var prev := Fresh(normalize, candidates[..|candidates| - 1], queued);
      var target := normalize(candidates[|candidates| - 1]);
      if target == "" || target in queued || target in prev then prev else prev + [target]
  }

  /** The elements of a list of URLs. */
  function Elems(urls: seq<string>): set<string> {
    set u | u in urls
  }

  /** The URLs of a list of nodes. */
  function Urls(nodes: seq<(string, int)>): set<string> {
    set n | n in nodes :: n.0
  }

  /** The URLs as nodes of one level. */
  function AtLevel(urls: seq<string>, level: int): (r: seq<(string, int)>)
    ensures |r| == |urls|
    ensures forall k :: 0 <= k < |r| ==> r[k] == (urls[k], level)
  {
    seq(|urls|, k requires 0 <= k < |urls| => (urls[k], level))
  }

  /**
   * The added URLs are non-empty, distinct and new, and every candidate that
   * normalises to a non-empty URL is queued already or added; each added URL
   * is the normalisation of some candidate.
   */
  lemma {:induction false} FreshNodes(normalize: string -> string, candidates: seq<string>, queued: set<string>)
    ensures forall u :: u in Fresh(normalize, candidates, queued) ==>
      u != "" && u !in queued && exists c :: c in candidates && normalize(c) == u
    ensures forall i, j :: 0 <= i < j < |Fresh(normalize, candidates, queued)| ==>
      Fresh(normalize, candidates, queued)[i] != Fresh(normalize, candidates, queued)[j]
    ensures forall c :: c in candidates && normalize(c) != "" ==>
      normalize(c) in queued || normalize(c) in Fresh(normalize, candidates, queued)
    decreases |candidates|
  {
    if candidates != [] {
      var front := candidates[..|candidates| - 1];
      var last := candidates[|candidates| - 1];
      FreshNodes(normalize, front, queued);
      var prev := Fresh(normalize, front, queued);
      var f := Fresh(normalize, candidates, queued);
      forall c | c in candidates
        ensures c in front || c == last
      {
        var i :| 0 <= i < |candidates| && candidates[i] == c;
        if i < |front| {
          assert front[i] == c;
        }
      }
      if f != prev {
        assert f == prev + [normalize(last)] && normalize(last) != "" && normalize(last) !in queued && normalize(last) !in prev;
        forall u | u in f
          ensures u != "" && u !in queued && exists c :: c in candidates && normalize(c) == u
        {
          if u in prev {
            var c :| c in front && normalize(c) == u;
            assert c in candidates;
          } else {
            assert u == normalize(last) && last in candidates;
          }
        }
        forall i, j | 0 <= i < j < |f| ensures f[i] != f[j] {
          if j < |prev| {
            assert f[i] == prev[i] && f[j] == prev[j];
          } else {
            assert f[i] == prev[i] && prev[i] in prev;
          }
        }
      } else {
        forall u | u in f
          ensures exists c :: c in candidates && normalize(c) == u
        {
          var c :| c in front && normalize(c) == u;
          assert c in candidates;
        }
      }
    }
  }

  /** Adding one URL to a list of fresh URLs adds one node and one element. */
  lemma AtLevelAppend(urls: seq<string>, target: string, level: int)
    ensures AtLevel(urls + [target], level) == AtLevel(urls, level) + [(target, level)]
    ensures Elems(urls + [target]) == Elems(urls) + {target}
  {
  }

  /** The URLs of nodes of one level are the URLs given. */
  lemma UrlsAtLevel(urls: seq<string>, level: int)
    ensures Urls(AtLevel(urls, level)) == Elems(urls)
  {
    var r := AtLevel(urls, level);
    forall u | u in Elems(urls) ensures u in Urls(r) {
      var k :| 0 <= k < |urls| && urls[k] == u;
      assert r[k] == (u, level);
    }
  }

  /**
   * Appends `(target, level)` for each normalised candidate that is not empty
   * and not queued yet, as both enqueueing loops of `_run_controlled_recursion` do.
   */
  method Enqueue(normalize: string -> string, candidates: seq<string>, level: int, queue: seq<(string, int)>, queued: set<string>,
    bound: int)
    returns (nextQueue: seq<(string, int)>, nextQueued: set<string>)
    ensures nextQueue == queue + AtLevel(Fresh(normalize, candidates, queued), level)
    ensures nextQueued == queued + Elems(Fresh(normalize, candidates, queued))
    ensures 2 <= level <= bound && QueueFrom(queue, bound) ==> QueueFrom(nextQueue, bound)
  {
    nextQueue, nextQueued := queue, queued;
    for i := 0 to |candidates|
      invariant nextQueue == queue + AtLevel(Fresh(normalize, candidates[..i], queued), level)
      invariant nextQueued == queued + Elems(Fresh(normalize, candidates[..i], queued))
    {
      var target := normalize(candidates[i]);
      assert candidates[..i + 1][..i] == candidates[..i];
      ghost var prev := Fresh(normalize, candidates[..i], queued);
      AtLevelAppend(prev, target, level);
      if target == "" || target in nextQueued {
        continue;
      }
      nextQueue := nextQueue + [(target, level)];
      nextQueued := nextQueued + {target};
    }
    assert candidates[..|candidates|] == candidates;
    if 2 <= level <= bound && QueueFrom(queue, bound) {
      FreshNodes(normalize, candidates, queued);
      QueueFromAppend(queue, Fresh(normalize, candidates, queued), level, bound);
    }
  }

  /** Queuing non-empty URLs at a level within the bound keeps the queue within it. */
  lemma QueueFromAppend(queue: seq<(string, int)>, urls: seq<string>, level: int, bound: int)
    requires QueueFrom(queue, bound) && 2 <= level <= bound
    requires forall u :: u in urls ==> u != ""
    ensures QueueFrom(queue + AtLevel(urls, level), bound)
  {
    var r := queue + AtLevel(urls, level);
    forall k | 0 <= k < |r| ensures r[k].0 != "" && 2 <= r[k].1 <= bound {
      if k >= |queue| {
        assert r[k] == (urls[k - |queue|], level);
        assert urls[k - |queue|] in urls;
      }
    }
  }

  /** The monitor's collections as one value: the state its methods change. */
  datatype Store = Store(
    possible: set<string>,            // self.possible
    predicted: set<string>,           // self.predicted
    pageCandidates: set<string>,      // self.page_candidates
    urlHints: map<string, string>,    // self.url_hints
    refererMap: map<string, string>,  // session_hints["referer_map"]
    cookies: seq<Json>)               // session_hints["cookies"]

  /** What the insertions keep true: only http(s) playlist URLs, only page candidates, hints only for kept URLs. */
  predicate StoreValid(lib: Lib, st: Store) {
    (forall u :: u in st.possible ==> PlaylistTarget(lib, u))
    && (forall u :: u in st.pageCandidates ==> IsPageCandidate(lib, u))
    && st.urlHints.Keys <= st.possible
  }

  /** The store after `_add_page_candidate` normalised its URL to `c`. */
  function WithPage(lib: Lib, st: Store, c: string): Store {
    if c != "" && IsPageCandidate(lib, c) then st.(pageCandidates := st.pageCandidates + {c}) else st
  }

  /** The store after keeping one playlist URL `c`, with its referer, as both insertion paths do. */
  function WithPlaylist(st: Store, c: string, referer: string): Store {
    if c != "" && IsM3u8Url(c) then
      st.(possible := st.possible + {c}, urlHints := HintOne(st.urlHints, c, referer),
          refererMap := HintOne(st.refererMap, c, referer))
    else st
  }

  /** The store after recording a guessed variant `v` ("" when there is none). */
  function WithVariant(st: Store, v: string, referer: string): Store {
    if v != "" then st.(predicted := st.predicted + {v}, refererMap := HintOne(st.refererMap, v, referer)) else st
  }

  /** The store after the nested values `raws` were decoded by `decode` and kept in turn. */
  function WithNested(decode: string -> string, st: Store, raws: seq<string>, referer: string): Store
    decreases |raws|
  {
    if raws == [] then st
    else WithPlaylist(WithNested(decode, st, raws[..|raws| - 1], referer), decode(raws[|raws| - 1]), referer)
  }

  lemma WithNestedAppend(decode: string -> string, st: Store, raws: seq<string>, raw: string, referer: string)
    ensures WithNested(decode, st, raws + [raw], referer) == WithPlaylist(WithNested(decode, st, raws, referer), decode(raw), referer)
  {
    assert (raws + [raw])[..|raws|] == raws;
  }

  /** The store after `_extract_nested_m3u8_from_wrapper(url, referer)`. */
  function Extracted(lib: Lib, st: Store, url: string, referer: string): Store {
    WithNested(NestedDecoder(lib), st, KeyedValues(QueryPairs(lib, url), NestedKeys), referer)
  }

  /** The store after `_add_m3u8_candidate` normalised its URL to `c`. */
  function Recorded(lib: Lib, st: Store, c: string, referer: string): Store {
    if c == "" || !IsM3u8Url(c) then st
    else Extracted(lib, Guessed(st, c, referer), c, referer)
  }

  /** Keeping the nested values one at a time keeps exactly their targets, with the referer. */
  lemma {:induction false} WithNestedEffect(decode: string -> string, st: Store, raws: seq<string>, referer: string)
    decreases |raws|
    ensures var r := WithNested(decode, st, raws, referer);
      r.possible == st.possible + Targets(decode, raws)
      && r.urlHints == WithHint(st.urlHints, Targets(decode, raws), referer)
      && r.refererMap == WithHint(st.refererMap, Targets(decode, raws), referer)
      && r.predicted == st.predicted && r.pageCandidates == st.pageCandidates && r.cookies == st.cookies
  {
    if raws != [] {
      var p := raws[..|raws| - 1];
      var c := decode(raws[|raws| - 1]);
      var t := Targets(decode, p);
      var prior := WithNested(decode, st, p, referer);
      WithNestedEffect(decode, st, p, referer);
      var r := WithNested(decode, st, raws, referer);
      assert r == WithPlaylist(prior, c, referer);
      assert Targets(decode, raws) == t + PlaylistAddition(c);
      if c != "" && IsM3u8Url(c) {
        assert r.possible == prior.possible + {c};
        HintOneSingle(prior.urlHints, c, referer);
        HintOneSingle(prior.refererMap, c, referer);
        WithHintUnion(st.urlHints, t, {c}, referer);
        WithHintUnion(st.refererMap, t, {c}, referer);
      } else {
        assert r == prior;
        assert Targets(decode, raws) == t;
      }
    }
  }

  /** `{v}` for a guessed variant, the empty set when there is none. */
  function VariantSet(v: string): set<string> {
    if v != "" then {v} else {}
  }

  /** Recording a guessed variant adds it to the guesses, with the referer. */
  lemma WithVariantEffect(st: Store, v: string, referer: string)
    ensures var r := WithVariant(st, v, referer);
      r.predicted == st.predicted + VariantSet(v)
      && r.refererMap == WithHint(st.refererMap, VariantSet(v), referer)
      && r.possible == st.possible && r.urlHints == st.urlHints
      && r.pageCandidates == st.pageCandidates && r.cookies == st.cookies
  {
    if v != "" {
      HintOneSingle(st.refererMap, v, referer);
    }
  }

  /** Keeping a playlist URL adds it, with the referer in both hint maps. */
  lemma WithPlaylistEffect(st: Store, c: string, referer: string)
    requires c != "" && IsM3u8Url(c)
    ensures var r := WithPlaylist(st, c, referer);
      r.possible == st.possible + {c}
      && r.urlHints == WithHint(st.urlHints, {c}, referer)
      && r.refererMap == WithHint(st.refererMap, {c}, referer)
      && r.predicted == st.predicted && r.pageCandidates == st.pageCandidates && r.cookies == st.cookies
  {
    HintOneSingle(st.urlHints, c, referer);
    HintOneSingle(st.refererMap, c, referer);
  }

  /** The store once `_add_m3u8_candidate` kept the playlist URL `c` and guessed its variants. */
  function Guessed(st: Store, c: string, referer: string): Store {
    var kept := WithPlaylist(st, c, referer);
    WithVariant(WithVariant(kept, PredictVariant(c, "index.m3u8"), referer), PredictVariant(c, "mixed.m3u8"), referer)
  }

  lemma GuessedEffect(st: Store, c: string, referer: string)
    requires c != "" && IsM3u8Url(c)
    ensures var r := Guessed(st, c, referer);
      r.possible == st.possible + {c}
      && r.predicted == st.predicted + Variants(c)
      && r.urlHints == WithHint(st.urlHints, {c}, referer)
      && r.refererMap == WithHint(st.refererMap, {c} + Variants(c), referer)
      && r.pageCandidates == st.pageCandidates && r.cookies == st.cookies
  {
    var kept := WithPlaylist(st, c, referer);
    WithPlaylistEffect(st, c, referer);
    var index := VariantSet(PredictVariant(c, "index.m3u8"));
    var mixed := VariantSet(PredictVariant(c, "mixed.m3u8"));
    var g1 := WithVariant(kept, PredictVariant(c, "index.m3u8"), referer);
    WithVariantEffect(kept, PredictVariant(c, "index.m3u8"), referer);
    WithVariantEffect(g1, PredictVariant(c, "mixed.m3u8"), referer);
    WithHintUnion(st.refererMap, {c}, index, referer);
    WithHintUnion(st.refererMap, {c} + index, mixed, referer);
    assert {c} + index + mixed == {c} + Variants(c);
  }

  /**
   * `_add_m3u8_candidate` on a playlist URL `c` keeps `c` and the playlists
   * nested in it, guesses its variants, and records the referer for all of
   * them (in `url_hints` not for the variants); on anything else it changes nothing.
   */
  lemma RecordedEffect(lib: Lib, st: Store, c: string, referer: string)
    ensures c == "" || !IsM3u8Url(c) ==> Recorded(lib, st, c, referer) == st
    ensures c != "" && IsM3u8Url(c) ==> var r := Recorded(lib, st, c, referer);
      r.possible == st.possible + {c} + WrapperTargets(lib, c)
      && r.predicted == st.predicted + Variants(c)
      && r.urlHints == WithHint(st.urlHints, {c} + WrapperTargets(lib, c), referer)
      && r.refererMap == WithHint(st.refererMap, {c} + Variants(c) + WrapperTargets(lib, c), referer)
      && r.pageCandidates == st.pageCandidates && r.cookies == st.cookies
  {
    if c != "" && IsM3u8Url(c) {
      var guessed := Guessed(st, c, referer);
      GuessedEffect(st, c, referer);
      var w := WrapperTargets(lib, c);
      WithNestedEffect(NestedDecoder(lib), guessed, KeyedValues(QueryPairs(lib, c), NestedKeys), referer);
      WithHintUnion(st.urlHints, {c}, w, referer);
      WithHintUnion(st.refererMap, {c} + Variants(c), w, referer);
    }
  }

  /** Every insertion keeps the store valid; normalisation keeps only http(s) URLs. */
  lemma RecordedValid(lib: Lib, st: Store, raw: string, referer: string)
    requires StoreValid(lib, st)
    ensures StoreValid(lib, Recorded(lib, st, NormalizeUrl(lib, raw, ""), referer))
  {
    var c := NormalizeUrl(lib, raw, "");
    RecordedEffect(lib, st, c, referer);
    if c != "" && IsM3u8Url(c) {
      var r := Recorded(lib, st, c, referer);
      var w := WrapperTargets(lib, c);
      assert PlaylistTarget(lib, c);
      forall u | u in w ensures PlaylistTarget(lib, u) {
        WrapperTargetsFromQuery(lib, c, u);
      }
      assert r.urlHints.Keys <= st.urlHints.Keys + {c} + w;
      ValidAfterRecord(lib, st, r, c, w);
    } else {
      assert Recorded(lib, st, c, referer) == st;
    }
  }

  /** A store that gained valid playlist URLs, and hints for them only, stays valid. */
  lemma ValidAfterRecord(lib: Lib, st: Store, r: Store, c: string, w: set<string>)
    requires StoreValid(lib, st) && PlaylistTarget(lib, c)
    requires forall u :: u in w ==> PlaylistTarget(lib, u)
    requires r.possible == st.possible + {c} + w && r.pageCandidates == st.pageCandidates
    requires r.urlHints.Keys <= st.urlHints.Keys + {c} + w
    ensures StoreValid(lib, r)
  {
    forall u | u in r.possible ensures PlaylistTarget(lib, u) {
      if u != c && u !in w {
        assert u in st.possible;
      }
    }
    forall u | u in r.pageCandidates ensures IsPageCandidate(lib, u) {
      assert u in st.pageCandidates;
    }
    assert st.urlHints.Keys <= st.possible;
  }

  /** `_add_page_candidate` keeps the store valid. */
  lemma WithPageValid(lib: Lib, st: Store, c: string)
    requires StoreValid(lib, st)
    ensures StoreValid(lib, WithPage(lib, st, c))
    ensures WithPage(lib, st, c).pageCandidates == st.pageCandidates + PageAddition(lib, c)
  {
    var r := WithPage(lib, st, c);
    if c != "" && IsPageCandidate(lib, c) {
      assert r == st.(pageCandidates := st.pageCandidates + {c});
      ValidAddPages(lib, st, c);
    } else {
      assert r == st && PageAddition(lib, c) == {};
    }
  }

  /** Adding a page worth visiting keeps the store valid. */
  lemma ValidAddPages(lib: Lib, st: Store, c: string)
    requires StoreValid(lib, st) && IsPageCandidate(lib, c)
    ensures StoreValid(lib, st.(pageCandidates := st.pageCandidates + {c}))
  {
    var r := st.(pageCandidates := st.pageCandidates + {c});
    assert r.possible == st.possible && r.urlHints == st.urlHints;
    forall u | u in r.pageCandidates ensures IsPageCandidate(lib, u) {
      if u != c {
        assert u in st.pageCandidates;
      }
    }
  }


  /**
   * What holds of the nodes a walk explored: within the node budget and the
   * cross-site budget, URLs distinct, non-empty and not the home page, levels 2..depth.
   */
  predicate Walked(sameSite: string -> bool, home: string, depth: int, explored: seq<(string, int)>) {
    && |explored| <= MaxNodes(depth)
    && CrossCount(sameSite, explored) <= MaxCrossSite(depth)
    && (forall k :: 0 <= k < |explored| ==> explored[k].0 != "" && explored[k].0 != home && 2 <= explored[k].1 <= depth)
    && (forall i, j :: 0 <= i < j < |explored| ==> explored[i].0 != explored[j].0)
  }

  /** A walk that explores nothing keeps every bound. */
  lemma WalkedNone(sameSite: string -> bool, home: string, depth: int)
    ensures Walked(sameSite, home, depth, [])
  {
    assert CrossCount(sameSite, []) == 0;
  }

  /** What the walk accumulates: playlists, guesses, the session's cookies and its referer map. */
  datatype Gains = Gains(possible: seq<string>, predicted: seq<string>, cookies: seq<Json>, referers: map<string, string>)

  /** The accumulated results once every node of `nodes` has been explored, from `start`. */
  function GainsAfter(start: Gains, child: (string, int) -> ChildRun, depth: int, nodes: seq<(string, int)>): Gains {
    Gains(start.possible + GatheredPossible(child, depth, nodes), start.predicted + GatheredPredicted(child, depth, nodes),
      CookiesAfter(start.cookies, child, depth, nodes), ReferersAfter(start.referers, child, depth, nodes))
  }

  /** Before any node is explored the accumulated results are where they started. */
  lemma GainsAfterNone(start: Gains, child: (string, int) -> ChildRun, depth: int)
    ensures GainsAfter(start, child, depth, []) == start
  {
    assert GatheredPossible(child, depth, []) == [] && GatheredPredicted(child, depth, []) == [];
    assert start.possible + [] == start.possible && start.predicted + [] == start.predicted;
  }

  /**
   * The nodes exploring `node` queues: below the last level, its child's
   * ranked candidates not queued before, one level deeper; none at the last level.
   */
  function Added(normalize: string -> string, child: (string, int) -> ChildRun, depth: int, node: (string, int),
    queued: set<string>): seq<(string, int)>
  {
    if node.1 < depth then AtLevel(Fresh(normalize, ChildOf(child, depth, node).ranked, queued), node.1 + 1) else []
  }

  /**
   * One explored page: its child monitor runs, its playlists are gathered,
   * its cookies merged in and its referer map applied; above the last level
   * its child's ranked candidates are queued one level deeper.
   */
  method ExploreNode(normalize: string -> string, child: (string, int) -> ChildRun, depth: int, node: (string, int),
    explored: seq<(string, int)>, start: Gains, acc: Gains, queue: seq<(string, int)>, queued: set<string>)
    returns (nextAcc: Gains, nextQueue: seq<(string, int)>, nextQueued: set<string>)
    requires acc == GainsAfter(start, child, depth, explored)
    requires 2 <= node.1 <= depth && QueueFrom(queue, depth)
    ensures nextAcc == GainsAfter(start, child, depth, explored + [node])
    ensures var run := ChildOf(child, depth, node);
      nextAcc.possible == acc.possible + run.possible && nextAcc.predicted == acc.predicted + run.predicted
      && nextAcc.cookies == Merged(acc.cookies + run.cookies) && nextAcc.referers == acc.referers + run.refererMap
    ensures QueueFrom(nextQueue, depth)
    ensures nextQueue == queue + Added(normalize, child, depth, node, queued)
    ensures nextQueued == queued + Urls(Added(normalize, child, depth, node, queued))
  {
    var run := child(node.0, if node.1 < depth then 2 else 1);
    ExploredStep(child, depth, explored, node, start.possible, start.predicted, start.cookies, start.referers);
    var cookies := MergeCookies(acc.cookies, run.cookies);
    nextAcc := Gains(acc.possible + run.possible, acc.predicted + run.predicted, cookies, acc.referers + run.refererMap);
    nextQueue, nextQueued := EnqueueChildren(normalize, child, depth, node, queue, queued);
  }

  /** Below the last level, queues the explored node's candidates one level deeper. */
  method EnqueueChildren(normalize: string -> string, child: (string, int) -> ChildRun, depth: int, node: (string, int),
    queue: seq<(string, int)>, queued: set<string>)
    returns (nextQueue: seq<(string, int)>, nextQueued: set<string>)
    requires 2 <= node.1 <= depth && QueueFrom(queue, depth)
    ensures QueueFrom(nextQueue, depth)
    ensures nextQueue == queue + Added(normalize, child, depth, node, queued)
    ensures nextQueued == queued + Urls(Added(normalize, child, depth, node, queued))
  {
    nextQueue, nextQueued := queue, queued;
    if node.1 < depth {
      var ranked := ChildOf(child, depth, node).ranked;
      nextQueue, nextQueued := Enqueue(normalize, ranked, node.1 + 1, queue, queued, depth);
      UrlsAtLevel(Fresh(normalize, ranked, queued), node.1 + 1);
    }
  }

  /**
   * One round of the loop of `_run_controlled_recursion`: the front node is
   * taken off the queue; a fresh node within the depth is marked visited and,
   * unless it would exceed the cross-site budget, explored, its child's
   * ranked candidates queued one level deeper.
   */
  method VisitFront(sameSite: string -> bool, normalize: string -> string, depth: int, home: string,
    child: (string, int) -> ChildRun, start: Gains, maxCrossSite: int,
    queue: seq<(string, int)>, queued: set<string>, visited: set<string>, explored: seq<(string, int)>,
    crossSiteUsed: int, acc: Gains)
    returns (nextQueue: seq<(string, int)>, nextQueued: set<string>, nextVisited: set<string>, nextExplored: seq<(string, int)>,
      nextCrossSiteUsed: int, nextAcc: Gains, processed: bool)
    requires queue != []
    requires crossSiteUsed == CrossCount(sameSite, explored) <= maxCrossSite
    requires home in visited && QueueFrom(queue, depth) && ExploredOk(explored, home, depth, visited)
    requires acc == GainsAfter(start, child, depth, explored)
    ensures nextCrossSiteUsed == CrossCount(sameSite, nextExplored) <= maxCrossSite
    ensures home in nextVisited && QueueFrom(nextQueue, depth) && ExploredOk(nextExplored, home, depth, nextVisited)
    ensures nextAcc == GainsAfter(start, child, depth, nextExplored)
    ensures processed ==> nextExplored == explored + [queue[0]]
    ensures !processed ==> nextExplored == explored && nextQueue == queue[1..]
    ensures processed <==> queue[0].0 !in visited && (sameSite(queue[0].0) || crossSiteUsed < maxCrossSite)
    ensures queue[0].0 !in visited ==> nextVisited == visited + {queue[0].0}
    ensures processed ==>
      nextQueue == queue[1..] + Added(normalize, child, depth, queue[0], queued)
      && nextQueued == queued + Urls(Added(normalize, child, depth, queue[0], queued))
    ensures !processed ==> nextQueued == queued && nextCrossSiteUsed == crossSiteUsed
  {
    var (target, level) := queue[0];
    nextQueue, nextQueued, nextVisited, nextExplored, nextCrossSiteUsed, nextAcc := queue[1..], queued, visited, explored, crossSiteUsed, acc;
    processed := false;
    assert QueueFrom(nextQueue, depth);
    if level <= depth && target != "" && target !in visited {
      nextVisited := visited + {target};
      if sameSite(target) || crossSiteUsed < maxCrossSite {
        nextQueue, nextQueued, nextExplored, nextCrossSiteUsed, nextAcc := ExploreFresh(sameSite, normalize, depth, home, child, start,
          maxCrossSite, (target, level), nextQueue, queued, visited, explored, crossSiteUsed, acc);
        processed := true;
      } else {
        ExploredMoreVisited(explored, home, depth, visited, target);
      }
    }
  }

  /** A visited set that grows keeps the explored nodes visited. */
  lemma ExploredMoreVisited(explored: seq<(string, int)>, home: string, depth: int, visited: set<string>, x: string)
    requires ExploredOk(explored, home, depth, visited)
    ensures ExploredOk(explored, home, depth, visited + {x})
  {
    forall k | 0 <= k < |explored| ensures explored[k].0 in visited + {x} {
      assert explored[k].0 in visited;
    }
  }

  /** The front node is fresh and within budget: it is explored and counted if off-site. */
  method ExploreFresh(sameSite: string -> bool, normalize: string -> string, depth: int, home: string,
    child: (string, int) -> ChildRun, start: Gains, maxCrossSite: int, node: (string, int),
    queue: seq<(string, int)>, queued: set<string>, visited: set<string>, explored: seq<(string, int)>,
    crossSiteUsed: int, acc: Gains)
    returns (nextQueue: seq<(string, int)>, nextQueued: set<string>, nextExplored: seq<(string, int)>,
      nextCrossSiteUsed: int, nextAcc: Gains)
    requires node.0 != "" && node.0 != home && 2 <= node.1 <= depth && node.0 !in visited
    requires sameSite(node.0) || crossSiteUsed < maxCrossSite
    requires crossSiteUsed == CrossCount(sameSite, explored) <= maxCrossSite
    requires QueueFrom(queue, depth) && ExploredOk(explored, home, depth, visited)
    requires acc == GainsAfter(start, child, depth, explored)
    ensures nextExplored == explored + [node]
    ensures nextCrossSiteUsed == CrossCount(sameSite, nextExplored) <= maxCrossSite
    ensures QueueFrom(nextQueue, depth) && ExploredOk(nextExplored, home, depth, visited + {node.0})
    ensures nextAcc == GainsAfter(start, child, depth, nextExplored)
    ensures nextQueue == queue + Added(normalize, child, depth, node, queued)
    ensures nextQueued == queued + Urls(Added(normalize, child, depth, node, queued))
  {
    ExploredAppend(sameSite, explored, node, home, depth, visited);
    nextCrossSiteUsed := if sameSite(node.0) then crossSiteUsed else crossSiteUsed + 1;
    nextAcc, nextQueue, nextQueued := ExploreNode(normalize, child, depth, node, explored, start, acc, queue, queued);
    nextExplored := explored + [node];
  }

  // ---- the order of the walk ------------------------------------------------

  /**
   * `log` lists every node ever queued, in order, and `popped` how many have
   * been taken off: the queue is the rest of the log, the `queued` set holds
   * the home page and the log's URLs, the visited set the home page and the
   * popped URLs; no URL is queued twice and the home page never.
   */
  predicate LogShape(log: seq<(string, int)>, popped: int, queue: seq<(string, int)>, queued: set<string>,
    visited: set<string>, home: string)
  {
    && 0 <= popped <= |log| && queue == log[popped..]
    && queued == {home} + Urls(log) && visited == {home} + Urls(log[..popped])
    && (forall k :: 0 <= k < |log| ==> log[k].0 != home)
    && (forall i, j :: 0 <= i < j < |log| ==> log[i].0 != log[j].0)
  }

  /**
   * Breadth-first order: the log's levels never decrease and span at most
   * one level from the queue's front on; the explored levels never decrease
   * and none is above a level still queued.
   */
  predicate LevelOrder(log: seq<(string, int)>, popped: int, explored: seq<(string, int)>) {
    && (forall i, j :: 0 <= i < j < |log| ==> log[i].1 <= log[j].1)
    && (0 <= popped < |log| ==> log[|log| - 1].1 <= log[popped].1 + 1)
    && (forall i, j :: 0 <= i < j < |explored| ==> explored[i].1 <= explored[j].1)
    && (forall i, k :: 0 <= i < |explored| && 0 <= popped <= k < |log| ==> explored[i].1 <= log[k].1)
  }

  /** Every popped node was explored, or turned away once the cross-site budget was spent. */
  predicate Settled(sameSite: string -> bool, log: seq<(string, int)>, popped: int, explored: seq<(string, int)>,
    crossSiteUsed: int, maxCrossSite: int)
  {
    forall k :: 0 <= k < popped && k < |log| ==>
      log[k] in explored || (!sameSite(log[k].0) && crossSiteUsed >= maxCrossSite)
  }

  /**
   * Every non-empty normalised candidate of the monitored page, and of every
   * explored page above the last level, has been queued.
   */
  predicate Closed(normalize: string -> string, child: (string, int) -> ChildRun, depth: int, ranked: seq<string>,
    explored: seq<(string, int)>, queued: set<string>)
  {
    && (forall r :: r in ranked && normalize(r) != "" ==> normalize(r) in queued)
    && (forall i, r ::
          0 <= i < |explored| && explored[i].1 < depth && r in ChildOf(child, depth, explored[i]).ranked && normalize(r) != ""
          ==> normalize(r) in queued)
  }

  /** A URL the walk reached: explored, or off-site with the cross-site budget spent. */
  predicate Reached(sameSite: string -> bool, depth: int, explored: seq<(string, int)>, u: string) {
    (exists i :: 0 <= i < |explored| && explored[i].0 == u)
    || (!sameSite(u) && CrossCount(sameSite, explored) >= MaxCrossSite(depth))
  }

  /**
   * The walk ran out of nodes: every page the monitored page or an explored
   * page above the last level ranks, once normalised, is empty, the home
   * page, or reached.
   */
  predicate Exhausted(normalize: string -> string, child: (string, int) -> ChildRun, sameSite: string -> bool, depth: int,
    home: string, seeds: set<string>, explored: seq<(string, int)>)
  {
    && (forall r :: r in seeds && normalize(r) != "" && normalize(r) != home ==>
          Reached(sameSite, depth, explored, normalize(r)))
    && (forall i, r ::
          0 <= i < |explored| && explored[i].1 < depth && r in ChildOf(child, depth, explored[i]).ranked
          && normalize(r) != "" && normalize(r) != home
          ==> Reached(sameSite, depth, explored, normalize(r)))
  }

  /** The URLs of two lists of nodes together. */
  lemma UrlsAppend(a: seq<(string, int)>, b: seq<(string, int)>)
    ensures Urls(a + b) == Urls(a) + Urls(b)
  {
    forall u | u in Urls(a + b) ensures u in Urls(a) + Urls(b) {
      var n :| n in a + b && n.0 == u;
      if n in a {
        assert u in Urls(a);
      } else {
        assert n in b;
      }
    }
  }

  /** The queue's front is not visited yet. */
  lemma FrontFresh(log: seq<(string, int)>, popped: int, queue: seq<(string, int)>, queued: set<string>,
    visited: set<string>, home: string)
    requires LogShape(log, popped, queue, queued, visited, home) && queue != []
    ensures queue[0] == log[popped] && queue[0].0 !in visited
  {
    assert queue[0] == log[popped];
    forall n | n in log[..popped] ensures n.0 != log[popped].0 {
      var k :| 0 <= k < popped && log[..popped][k] == n;
      assert log[k] == n;
    }
  }

  /** Popping the front and appending `added` keeps the log's shape. */
  lemma LogShapeStep(log: seq<(string, int)>, popped: int, queue: seq<(string, int)>, queued: set<string>,
    visited: set<string>, home: string, added: seq<(string, int)>)
    requires LogShape(log, popped, queue, queued, visited, home) && queue != []
    requires forall k :: 0 <= k < |added| ==> added[k].0 !in queued
    requires forall i, j :: 0 <= i < j < |added| ==> added[i].0 != added[j].0
    ensures LogShape(log + added, popped + 1, queue[1..] + added, queued + Urls(added), visited + {queue[0].0}, home)
  {
    var log' := log + added;
    assert log'[popped + 1..] == log[popped + 1..] + added;
    UrlsAppend(log, added);
    assert log'[..popped + 1] == log[..popped] + [log[popped]];
    UrlsAppend(log[..popped], [log[popped]]);
    assert Urls([log[popped]]) == {log[popped].0};
    forall i, j | 0 <= i < j < |log'| ensures log'[i].0 != log'[j].0 {
      if j >= |log| && i < |log| {
        assert log[i] in log && log'[j] == added[j - |log|];
      }
    }
  }

  /** Popping the front, exploring it or not, and appending deeper nodes keeps the breadth-first order. */
  lemma LevelStep(log: seq<(string, int)>, popped: int, explored: seq<(string, int)>, nextExplored: seq<(string, int)>,
    added: seq<(string, int)>)
    requires LevelOrder(log, popped, explored) && 0 <= popped < |log|
    requires forall k :: 0 <= k < |added| ==> added[k].1 == log[popped].1 + 1
    requires nextExplored == explored || nextExplored == explored + [log[popped]]
    ensures LevelOrder(log + added, popped + 1, nextExplored)
  {
    var log' := log + added;
    forall i, j | 0 <= i < j < |log'| ensures log'[i].1 <= log'[j].1 {
      if j >= |log| && i < |log| {
        if i < popped {
          assert log[i].1 <= log[popped].1;
        } else {
          assert log[i].1 <= log[|log| - 1].1;
        }
      }
    }
  }

  /** Popping the front, exploring it or turning it away, keeps every popped node settled. */
  lemma SettledStep(sameSite: string -> bool, log: seq<(string, int)>, popped: int, explored: seq<(string, int)>,
    nextExplored: seq<(string, int)>, crossSiteUsed: int, nextCrossSiteUsed: int, maxCrossSite: int, added: seq<(string, int)>)
    requires Settled(sameSite, log, popped, explored, crossSiteUsed, maxCrossSite) && 0 <= popped < |log|
    requires crossSiteUsed <= nextCrossSiteUsed
    requires nextExplored == explored + [log[popped]]
      || (nextExplored == explored && !sameSite(log[popped].0) && crossSiteUsed >= maxCrossSite)
    ensures Settled(sameSite, log + added, popped + 1, nextExplored, nextCrossSiteUsed, maxCrossSite)
  {
    forall k | 0 <= k < popped + 1 && k < |log + added|
      ensures (log + added)[k] in nextExplored || (!sameSite((log + added)[k].0) && nextCrossSiteUsed >= maxCrossSite)
    {
      assert (log + added)[k] == log[k];
      if k < popped && log[k] in explored {
        var i :| 0 <= i < |explored| && explored[i] == log[k];
        assert nextExplored[i] == log[k];
      }
    }
  }

  /** Exploring the front and queueing its candidates keeps the queued set closed. */
  lemma ClosedStep(normalize: string -> string, child: (string, int) -> ChildRun, depth: int, ranked: seq<string>,
    explored: seq<(string, int)>, queued: set<string>, node: (string, int))
    requires Closed(normalize, child, depth, ranked, explored, queued)
    ensures Closed(normalize, child, depth, ranked, explored + [node], queued + Urls(Added(normalize, child, depth, node, queued)))
  {
    var nextQueued := queued + Urls(Added(normalize, child, depth, node, queued));
    var nextExplored := explored + [node];
    if node.1 < depth {
      var run := ChildOf(child, depth, node);
      FreshNodes(normalize, run.ranked, queued);
      UrlsAtLevel(Fresh(normalize, run.ranked, queued), node.1 + 1);
    }
    forall i, r | 0 <= i < |nextExplored| && nextExplored[i].1 < depth && r in ChildOf(child, depth, nextExplored[i]).ranked
      && normalize(r) != ""
      ensures normalize(r) in nextQueued
    {
      if i < |explored| {
        assert nextExplored[i] == explored[i];
      }
    }
  }

  /** A queue that ran dry leaves every queued page reached. */
  lemma WalkDone(normalize: string -> string, child: (string, int) -> ChildRun, sameSite: string -> bool, depth: int,
    home: string, ranked: seq<string>, log: seq<(string, int)>, queued: set<string>, visited: set<string>,
    explored: seq<(string, int)>)
    requires LogShape(log, |log|, [], queued, visited, home)
    requires Settled(sameSite, log, |log|, explored, CrossCount(sameSite, explored), MaxCrossSite(depth))
    requires Closed(normalize, child, depth, ranked, explored, queued)
    ensures Exhausted(normalize, child, sameSite, depth, home, Elems(ranked), explored)
  {
    forall u | u in queued && u != home ensures Reached(sameSite, depth, explored, u) {
      var n :| n in log && n.0 == u;
      var k :| 0 <= k < |log| && log[k] == n;
      if log[k] in explored {
        var i :| 0 <= i < |explored| && explored[i] == log[k];
        assert explored[i].0 == u;
      }
    }
  }

  /**
   * The loop of `_run_controlled_recursion` from the ranked candidates of the
   * monitored page, whose normalised URL is `home`, down to level `depth`,
   * starting from the playlists and guesses given and the session's cookies
   * and referer map.
   */
  method WalkPages(ranked: seq<string>, home: string, sameSite: string -> bool, normalize: string -> string, depth: int,
    start: Gains, child: (string, int) -> ChildRun)
    returns (gains: Gains, explored: seq<(string, int)>)
    requires 2 <= depth
    ensures Walked(sameSite, home, depth, explored)
    ensures gains == GainsAfter(start, child, depth, explored)
    ensures forall i, j :: 0 <= i < j < |explored| ==> explored[i].1 <= explored[j].1
    ensures var first := Fresh(normalize, ranked, {home});
      first != [] ==> explored != [] && explored[0] == (first[0], 2)
    ensures |explored| < MaxNodes(depth) ==> Exhausted(normalize, child, sameSite, depth, home, Elems(ranked), explored)
  {
    var queue: seq<(string, int)>, queued := Enqueue(normalize, ranked, 2, [], {home}, depth);
    var first := AtLevel(Fresh(normalize, ranked, {home}), 2);
    WalkStart(normalize, child, sameSite, depth, ranked, home, start, queue, queued);
    var visited, crossSiteUsed, log, popped;
    queue, queued, visited, explored, crossSiteUsed, gains, log, popped :=
      WalkLoop(sameSite, normalize, depth, home, child, start, ranked, first, queue, queued, {home}, [], 0, start, queue, 0);
    WalkExit(normalize, child, sameSite, depth, ranked, home, first, log, popped, queue, queued, visited, explored,
      crossSiteUsed);
  }

  /**
   * `while queue and processed_nodes < max_nodes`: rounds until the queue is
   * empty or the node budget is spent, with `log` (every node queued so far)
   * and `popped` (how many were taken off) kept beside the queue.
   */
  method WalkLoop(sameSite: string -> bool, normalize: string -> string, depth: int, home: string,
    child: (string, int) -> ChildRun, start: Gains, ranked: seq<string>, first: seq<(string, int)>,
    queue0: seq<(string, int)>, queued0: set<string>, visited0: set<string>, explored0: seq<(string, int)>,
    crossSiteUsed0: int, gains0: Gains, log0: seq<(string, int)>, popped0: int)
    returns (queue: seq<(string, int)>, queued: set<string>, visited: set<string>, explored: seq<(string, int)>,
      crossSiteUsed: int, gains: Gains, log: seq<(string, int)>, popped: int)
    requires |explored0| <= MaxNodes(depth)
    requires crossSiteUsed0 == CrossCount(sameSite, explored0) <= MaxCrossSite(depth)
    requires home in visited0 && QueueFrom(queue0, depth) && ExploredOk(explored0, home, depth, visited0)
    requires gains0 == GainsAfter(start, child, depth, explored0)
    requires WalkInv(normalize, child, sameSite, depth, ranked, home, first, log0, popped0, queue0, queued0, visited0,
      explored0, crossSiteUsed0)
    ensures |explored| <= MaxNodes(depth) && (queue == [] || |explored| == MaxNodes(depth))
    ensures crossSiteUsed == CrossCount(sameSite, explored) <= MaxCrossSite(depth)
    ensures home in visited && QueueFrom(queue, depth) && ExploredOk(explored, home, depth, visited)
    ensures gains == GainsAfter(start, child, depth, explored)
    ensures WalkInv(normalize, child, sameSite, depth, ranked, home, first, log, popped, queue, queued, visited, explored,
      crossSiteUsed)
  {
    queue, queued, visited, explored, crossSiteUsed, gains, log, popped :=
      queue0, queued0, visited0, explored0, crossSiteUsed0, gains0, log0, popped0;
    var processedNodes := |explored|;
    while queue != [] && processedNodes < MaxNodes(depth)
      invariant processedNodes == |explored| <= MaxNodes(depth)
      invariant crossSiteUsed == CrossCount(sameSite, explored) <= MaxCrossSite(depth)
      invariant home in visited && QueueFrom(queue, depth) && ExploredOk(explored, home, depth, visited)
      invariant gains == GainsAfter(start, child, depth, explored)
      invariant WalkInv(normalize, child, sameSite, depth, ranked, home, first, log, popped, queue, queued, visited, explored,
        crossSiteUsed)
      decreases MaxNodes(depth) - processedNodes, |queue|
    {
      var processed;
      queue, queued, visited, explored, crossSiteUsed, gains, processed, log, popped :=
        WalkRound(sameSite, normalize, depth, home, child, start, ranked, first,
          queue, queued, visited, explored, crossSiteUsed, gains, log, popped);
      if processed {
        processedNodes := processedNodes + 1;
      }
    }
  }

  /** One round of the loop: the front node is taken off and explored or passed over. */
  method WalkRound(sameSite: string -> bool, normalize: string -> string, depth: int, home: string,
    child: (string, int) -> ChildRun, start: Gains, ranked: seq<string>, first: seq<(string, int)>,
    queue: seq<(string, int)>, queued: set<string>, visited: set<string>, explored: seq<(string, int)>,
    crossSiteUsed: int, gains: Gains, log: seq<(string, int)>, popped: int)
    returns (nextQueue: seq<(string, int)>, nextQueued: set<string>, nextVisited: set<string>, nextExplored: seq<(string, int)>,
      nextCrossSiteUsed: int, nextGains: Gains, processed: bool, nextLog: seq<(string, int)>, nextPopped: int)
    requires queue != []
    requires crossSiteUsed == CrossCount(sameSite, explored) <= MaxCrossSite(depth)
    requires home in visited && QueueFrom(queue, depth) && ExploredOk(explored, home, depth, visited)
    requires gains == GainsAfter(start, child, depth, explored)
    requires WalkInv(normalize, child, sameSite, depth, ranked, home, first, log, popped, queue, queued, visited, explored,
      crossSiteUsed)
    ensures nextCrossSiteUsed == CrossCount(sameSite, nextExplored) <= MaxCrossSite(depth)
    ensures home in nextVisited && QueueFrom(nextQueue, depth) && ExploredOk(nextExplored, home, depth, nextVisited)
    ensures nextGains == GainsAfter(start, child, depth, nextExplored)
    ensures WalkInv(normalize, child, sameSite, depth, ranked, home, first, nextLog, nextPopped, nextQueue, nextQueued,
      nextVisited, nextExplored, nextCrossSiteUsed)
    ensures processed ==> nextExplored == explored + [queue[0]]
    ensures !processed ==> nextExplored == explored && nextQueue == queue[1..]
  {
    FrontFresh(log, popped, queue, queued, visited, home);
    nextQueue, nextQueued, nextVisited, nextExplored, nextCrossSiteUsed, nextGains, processed :=
      VisitFront(sameSite, normalize, depth, home, child, start, MaxCrossSite(depth),
        queue, queued, visited, explored, crossSiteUsed, gains);
    nextLog := log + (if processed then Added(normalize, child, depth, queue[0], queued) else []);
    nextPopped := popped + 1;
    WalkStep(normalize, child, sameSite, depth, ranked, home, first, log, popped, queue, queued, visited, explored,
      crossSiteUsed, processed, nextQueue, nextQueued, nextVisited, nextExplored, nextCrossSiteUsed, nextLog);
  }

  /** When the loop stops, the walk's order properties hold of what it explored. */
  lemma WalkExit(normalize: string -> string, child: (string, int) -> ChildRun, sameSite: string -> bool, depth: int,
    ranked: seq<string>, home: string, first: seq<(string, int)>, log: seq<(string, int)>, popped: int,
    queue: seq<(string, int)>, queued: set<string>, visited: set<string>, explored: seq<(string, int)>, crossSiteUsed: int)
    requires WalkInv(normalize, child, sameSite, depth, ranked, home, first, log, popped, queue, queued, visited, explored,
      crossSiteUsed)
    requires first == AtLevel(Fresh(normalize, ranked, {home}), 2)
    requires crossSiteUsed == CrossCount(sameSite, explored)
    requires queue == [] || |explored| == MaxNodes(depth)
    ensures forall i, j :: 0 <= i < j < |explored| ==> explored[i].1 <= explored[j].1
    ensures var f := Fresh(normalize, ranked, {home});
      f != [] ==> explored != [] && explored[0] == (f[0], 2)
    ensures |explored| < MaxNodes(depth) ==> Exhausted(normalize, child, sameSite, depth, home, Elems(ranked), explored)
  {
    if |explored| < MaxNodes(depth) {
      assert popped == |log|;
      WalkDone(normalize, child, sameSite, depth, home, ranked, log, queued, visited, explored);
      if first != [] {
        assert first[0] == log[..|first|][0] == log[0];
      }
    } else if first != [] {
      assert first[0] == log[..|first|][0] == log[0];
    }
  }

  /** What holds of the walk's state before each round. */
  predicate WalkInv(normalize: string -> string, child: (string, int) -> ChildRun, sameSite: string -> bool, depth: int,
    ranked: seq<string>, home: string, first: seq<(string, int)>, log: seq<(string, int)>, popped: int,
    queue: seq<(string, int)>, queued: set<string>, visited: set<string>, explored: seq<(string, int)>, crossSiteUsed: int)
  {
    && LogShape(log, popped, queue, queued, visited, home)
    && LevelOrder(log, popped, explored)
    && Settled(sameSite, log, popped, explored, crossSiteUsed, MaxCrossSite(depth))
    && Closed(normalize, child, depth, ranked, explored, queued)
    && |first| <= |log| && log[..|first|] == first
    && |explored| <= popped && (popped > 0 ==> explored != [] && explored[0] == log[0])
  }

  /** One round of the walk keeps its invariant, the log growing by the nodes the round queued. */
  lemma WalkStep(normalize: string -> string, child: (string, int) -> ChildRun, sameSite: string -> bool, depth: int,
    ranked: seq<string>, home: string, first: seq<(string, int)>, log: seq<(string, int)>, popped: int,
    queue: seq<(string, int)>, queued: set<string>, visited: set<string>, explored: seq<(string, int)>, crossSiteUsed: int,
    processed: bool, nextQueue: seq<(string, int)>, nextQueued: set<string>, nextVisited: set<string>,
    nextExplored: seq<(string, int)>, nextCrossSiteUsed: int, nextLog: seq<(string, int)>)
    requires WalkInv(normalize, child, sameSite, depth, ranked, home, first, log, popped, queue, queued, visited, explored,
      crossSiteUsed)
    requires queue != [] && queue[0].0 !in visited && crossSiteUsed == CrossCount(sameSite, explored)
    requires processed <==> sameSite(queue[0].0) || crossSiteUsed < MaxCrossSite(depth)
    requires nextVisited == visited + {queue[0].0} && crossSiteUsed <= nextCrossSiteUsed
    requires processed ==>
      nextExplored == explored + [queue[0]]
      && nextQueue == queue[1..] + Added(normalize, child, depth, queue[0], queued)
      && nextQueued == queued + Urls(Added(normalize, child, depth, queue[0], queued))
    requires !processed ==>
      nextExplored == explored && nextQueue == queue[1..] && nextQueued == queued && nextCrossSiteUsed == crossSiteUsed
    requires nextLog == log + (if processed then Added(normalize, child, depth, queue[0], queued) else [])
    ensures WalkInv(normalize, child, sameSite, depth, ranked, home, first, nextLog, popped + 1, nextQueue, nextQueued,
      nextVisited, nextExplored, nextCrossSiteUsed)
  {
    if processed {
      var added := Added(normalize, child, depth, queue[0], queued);
      AddedNodes(normalize, child, depth, queue[0], queued);
      RoundParts(sameSite, depth, first, log, popped, queue, queued, visited, home, explored, nextExplored,
        crossSiteUsed, nextCrossSiteUsed, added);
      ClosedStep(normalize, child, depth, ranked, explored, queued, queue[0]);
    } else {
      assert queue[1..] + [] == queue[1..] && log + [] == log;
      RoundParts(sameSite, depth, first, log, popped, queue, queued, visited, home, explored, nextExplored,
        crossSiteUsed, nextCrossSiteUsed, []);
    }
  }

  /** The log, level, settlement and first-node parts of one round. */
  lemma RoundParts(sameSite: string -> bool, depth: int, first: seq<(string, int)>, log: seq<(string, int)>, popped: int,
    queue: seq<(string, int)>, queued: set<string>, visited: set<string>, home: string,
    explored: seq<(string, int)>, nextExplored: seq<(string, int)>, crossSiteUsed: int, nextCrossSiteUsed: int,
    added: seq<(string, int)>)
    requires LogShape(log, popped, queue, queued, visited, home) && queue != []
    requires LevelOrder(log, popped, explored)
    requires Settled(sameSite, log, popped, explored, crossSiteUsed, MaxCrossSite(depth))
    requires |first| <= |log| && log[..|first|] == first
    requires |explored| <= popped && (popped > 0 ==> explored != [] && explored[0] == log[0])
    requires crossSiteUsed == CrossCount(sameSite, explored) <= nextCrossSiteUsed
    requires forall k :: 0 <= k < |added| ==> added[k].0 !in queued && added[k].1 == queue[0].1 + 1
    requires forall i, j :: 0 <= i < j < |added| ==> added[i].0 != added[j].0
    requires nextExplored == explored + [queue[0]]
      || (nextExplored == explored && added == [] && !sameSite(queue[0].0) && crossSiteUsed >= MaxCrossSite(depth))
    ensures LogShape(log + added, popped + 1, queue[1..] + added, queued + Urls(added), visited + {queue[0].0}, home)
    ensures LevelOrder(log + added, popped + 1, nextExplored)
    ensures Settled(sameSite, log + added, popped + 1, nextExplored, nextCrossSiteUsed, MaxCrossSite(depth))
    ensures |first| <= |log + added| && (log + added)[..|first|] == first
    ensures |nextExplored| <= popped + 1 && nextExplored != [] && nextExplored[0] == (log + added)[0]
  {
    assert queue[0] == log[popped];
    LogShapeStep(log, popped, queue, queued, visited, home, added);
    LevelStep(log, popped, explored, nextExplored, added);
    SettledStep(sameSite, log, popped, explored, nextExplored, crossSiteUsed, nextCrossSiteUsed, MaxCrossSite(depth), added);
    FirstKept(sameSite, depth, first, log, popped, queue, explored, nextExplored, crossSiteUsed, added);
  }

  /** The first queued node stays first in the log, and the first round explores it. */
  lemma FirstKept(sameSite: string -> bool, depth: int, first: seq<(string, int)>, log: seq<(string, int)>, popped: int,
    queue: seq<(string, int)>, explored: seq<(string, int)>, nextExplored: seq<(string, int)>, crossSiteUsed: int,
    added: seq<(string, int)>)
    requires 0 <= popped < |log| && queue != [] && queue[0] == log[popped]
    requires |first| <= |log| && log[..|first|] == first
    requires |explored| <= popped && (popped > 0 ==> explored != [] && explored[0] == log[0])
    requires crossSiteUsed == CrossCount(sameSite, explored)
    requires nextExplored == explored + [queue[0]] || (nextExplored == explored && crossSiteUsed >= MaxCrossSite(depth))
    ensures |first| <= |log + added| && (log + added)[..|first|] == first
    ensures |nextExplored| <= popped + 1 && nextExplored != [] && nextExplored[0] == (log + added)[0]
  {
    assert (log + added)[..|first|] == log[..|first|];
    if popped == 0 {
      assert explored == [] && CrossCount(sameSite, explored) == 0;
      assert nextExplored == [log[0]];
    }
  }

  /** The nodes one explored page adds are one level deeper, new and distinct. */
  lemma AddedNodes(normalize: string -> string, child: (string, int) -> ChildRun, depth: int, node: (string, int),
    queued: set<string>)
    ensures var added := Added(normalize, child, depth, node, queued);
      forall k :: 0 <= k < |added| ==> added[k].0 !in queued && added[k].1 == node.1 + 1
    ensures var added := Added(normalize, child, depth, node, queued);
      forall i, j :: 0 <= i < j < |added| ==> added[i].0 != added[j].0
  {
    if node.1 < depth {
      var f := Fresh(normalize, ChildOf(child, depth, node).ranked, queued);
      FreshNodes(normalize, ChildOf(child, depth, node).ranked, queued);
      forall k | 0 <= k < |f| ensures f[k] !in queued {
        assert f[k] in f;
      }
    }
  }

  /** The first queue: the monitored page's fresh candidates at level 2, a log with nothing popped. */
  lemma WalkStart(normalize: string -> string, child: (string, int) -> ChildRun, sameSite: string -> bool, depth: int,
    ranked: seq<string>, home: string, start: Gains, queue: seq<(string, int)>, queued: set<string>)
    requires 2 <= depth
    requires queue == [] + AtLevel(Fresh(normalize, ranked, {home}), 2)
    requires queued == {home} + Elems(Fresh(normalize, ranked, {home}))
    ensures CrossCount(sameSite, []) == 0 && QueueFrom(queue, depth) && ExploredOk([], home, depth, {home})
    ensures start == GainsAfter(start, child, depth, [])
    ensures WalkInv(normalize, child, sameSite, depth, ranked, home, AtLevel(Fresh(normalize, ranked, {home}), 2), queue, 0,
      queue, queued, {home}, [], 0)
  {
    FirstLog(normalize, ranked, home, depth, queue, queued);
    FirstClosed(normalize, child, depth, ranked, home, queued);
    assert queue == AtLevel(Fresh(normalize, ranked, {home}), 2);
    FirstInv(normalize, child, sameSite, depth, ranked, home, queue, queue, queued);
    NoneExplored(sameSite, home, depth);
    GainsAfterNone(start, child, depth);
  }

  /**
   * The walk of `_run_controlled_recursion` over the ranked candidates `ranked`
   * of the monitored page, whose elements are `seeds`; nothing is walked when
   * there are none.
   */
  method WalkCandidates(ranked: seq<string>, seeds: set<string>, home: string, sameSite: string -> bool,
    normalize: string -> string, depth: int, start: Gains, child: (string, int) -> ChildRun)
    returns (gains: Gains, explored: seq<(string, int)>)
    requires depth >= 2 ==> Elems(ranked) == seeds
    ensures depth <= 1 ==> explored == []
    ensures Walked(sameSite, home, depth, explored)
    ensures gains == GainsAfter(start, child, depth, explored)
    ensures forall i, j :: 0 <= i < j < |explored| ==> explored[i].1 <= explored[j].1
    ensures depth >= 2 && |explored| < MaxNodes(depth) ==>
      Exhausted(normalize, child, sameSite, depth, home, seeds, explored)
    ensures depth >= 2 ==>
      (exists r :: r in seeds && normalize(r) != "" && normalize(r) != home) ==>
      explored != [] && explored[0].1 == 2 && exists r :: r in seeds && explored[0].0 == normalize(r)
  {
    gains, explored := start, [];
    WalkedNone(sameSite, home, depth);
    GainsAfterNone(start, child, depth);
    if depth >= 2 {
      if |ranked| > 0 {
        gains, explored := WalkPages(ranked, home, sameSite, normalize, depth, start, child);
      }
      FirstWalked(normalize, ranked, home, explored);
    }
  }

  /**
   * When some candidate normalises to a page other than the home page, the
   * walk starts from the first such page, at level 2.
   */
  lemma FirstWalked(normalize: string -> string, ranked: seq<string>, home: string, explored: seq<(string, int)>)
    requires var first := Fresh(normalize, ranked, {home});
      first != [] ==> explored != [] && explored[0] == (first[0], 2)
    ensures (exists r :: r in Elems(ranked) && normalize(r) != "" && normalize(r) != home) ==>
      explored != [] && explored[0].1 == 2 && exists r :: r in Elems(ranked) && explored[0].0 == normalize(r)
  {
    FreshNodes(normalize, ranked, {home});
    var first := Fresh(normalize, ranked, {home});
    if r :| r in Elems(ranked) && normalize(r) != "" && normalize(r) != home {
      assert normalize(r) in first;
      assert first[0] in first;
    }
  }

  /** Nothing explored: no off-site node counted, and the explored nodes trivially in order. */
  lemma NoneExplored(sameSite: string -> bool, home: string, depth: int)
    ensures CrossCount(sameSite, []) == 0 && ExploredOk([], home, depth, {home})
  {
  }

  /** The walk invariant before the first round: the log is the first queue, nothing popped or explored. */
  lemma FirstInv(normalize: string -> string, child: (string, int) -> ChildRun, sameSite: string -> bool, depth: int,
    ranked: seq<string>, home: string, first: seq<(string, int)>, queue: seq<(string, int)>, queued: set<string>)
    requires first == queue
    requires LogShape(queue, 0, queue, queued, {home}, home) && LevelOrder(queue, 0, [])
    requires Closed(normalize, child, depth, ranked, [], queued)
    ensures WalkInv(normalize, child, sameSite, depth, ranked, home, first, queue, 0, queue, queued, {home}, [], 0)
  {
    assert queue[..|queue|] == queue;
  }

  /** Every candidate of the monitored page is in the first `queued` set. */
  lemma FirstClosed(normalize: string -> string, child: (string, int) -> ChildRun, depth: int, ranked: seq<string>,
    home: string, queued: set<string>)
    requires queued == {home} + Elems(Fresh(normalize, ranked, {home}))
    ensures Closed(normalize, child, depth, ranked, [], queued)
  {
    FreshNodes(normalize, ranked, {home});
  }

  /** The first queue as a log with nothing popped. */
  lemma FirstLog(normalize: string -> string, ranked: seq<string>, home: string, depth: int, queue: seq<(string, int)>,
    queued: set<string>)
    requires 2 <= depth
    requires queue == [] + AtLevel(Fresh(normalize, ranked, {home}), 2)
    requires queued == {home} + Elems(Fresh(normalize, ranked, {home}))
    ensures LogShape(queue, 0, queue, queued, {home}, home) && LevelOrder(queue, 0, [])
    ensures QueueFrom(queue, depth)
  {
    var f := Fresh(normalize, ranked, {home});
    FreshNodes(normalize, ranked, {home});
    assert queue == [] + AtLevel(f, 2) == AtLevel(f, 2);
    LevelLog(f, home, queue, queued);
    QueueFromAppend([], f, 2, depth);
  }

  /** Distinct URLs other than the home page, all at level 2, as a log with nothing popped. */
  lemma LevelLog(f: seq<string>, home: string, queue: seq<(string, int)>, queued: set<string>)
    requires forall u :: u in f ==> u != home
    requires forall i, j :: 0 <= i < j < |f| ==> f[i] != f[j]
    requires queue == AtLevel(f, 2) && queued == {home} + Elems(f)
    ensures LogShape(queue, 0, queue, queued, {home}, home) && LevelOrder(queue, 0, [])
  {
    UrlsAtLevel(f, 2);
    assert Urls(queue[..0]) == {};
    forall k | 0 <= k < |queue| ensures queue[k].0 != home {
      assert f[k] in f;
    }
  }

  class CandidateStore {
    /** The monitored page, `self.URL`. */
    const origin: string
    const lib: Lib
    /** The normalised recursion depth. */
    const recursionDepth: int
    var possible: set<string>
    var predicted: set<string>
    var pageCandidates: set<string>
    var urlHints: map<string, string>
    /** `session_hints["referer_map"]`. */
    var refererMap: map<string, string>
    /** `session_hints["cookies"]`. */
    var cookies: seq<Json>

    /** The collections as one value. */
    function Snapshot(): Store
      reads this
    {
      Store(possible, predicted, pageCandidates, urlHints, refererMap, cookies)
    }

    constructor(origin: string, lib: Lib, recursionDepth: int)
      ensures this.origin == origin && this.lib == lib && this.recursionDepth == recursionDepth
      ensures Snapshot() == Store({}, {}, {}, map[], map[], [])
      ensures StoreValid(lib, Snapshot())
    {
      this.origin := origin;
      this.lib := lib;
      this.recursionDepth := recursionDepth;
      possible := {};
      predicted := {};
      pageCandidates := {};
      urlHints := map[];
      refererMap := map[];
      cookies := [];
    }

    /** `_add_page_candidate`: keeps the normalised URL when it is a page worth visiting. */
    method AddPageCandidate(raw: string, base: string)
      modifies this`pageCandidates
      ensures Snapshot() == WithPage(lib, old(Snapshot()), NormalizeUrl(lib, raw, base))
    {
      var candidate := NormalizeUrl(lib, raw, base);
      InsertPage(candidate);
    }

    /** The part of `_add_page_candidate` after normalisation. */
    method InsertPage(candidate: string)
      modifies this`pageCandidates
      ensures Snapshot() == WithPage(lib, old(Snapshot()), candidate)
    {
      if candidate == "" || !IsPageCandidate(lib, candidate) {
        return;
      }
      pageCandidates := pageCandidates + {candidate};
    }

    /** Keeps one normalised playlist URL with its referer. */
    method InsertPlaylist(nested: string, referer: string)
      modifies this`possible, this`urlHints, this`refererMap
      ensures Snapshot() == WithPlaylist(old(Snapshot()), nested, referer)
    {
      if nested == "" || !IsM3u8Url(nested) {
        return;
      }
      possible := possible + {nested};
      if referer != "" {
        urlHints := urlHints[nested := referer];
        refererMap := refererMap[nested := referer];
      }
    }

    /** One value of the inner loop of `_extract_nested_m3u8_from_wrapper`. */
    method InsertNestedValue(raw: string, referer: string)
      modifies this`possible, this`urlHints, this`refererMap
      ensures Snapshot() == WithPlaylist(old(Snapshot()), NestedValue(lib, raw), referer)
    {
      var decoded := lib.unquote(raw);
      var nested := NormalizeUrl(lib, decoded, "");
      InsertPlaylist(nested, referer);
    }

    /** The inner loop of `_extract_nested_m3u8_from_wrapper`: `values` after the values `before`. */
    method InsertNestedValues(before: seq<string>, values: seq<string>, referer: string, st0: Store)
      requires Snapshot() == WithNested(NestedDecoder(lib), st0, before, referer)
      modifies this`possible, this`urlHints, this`refererMap
      ensures Snapshot() == WithNested(NestedDecoder(lib), st0, before + values, referer)
    {
      ghost var done := before;
      for j := 0 to |values|
        invariant done == before + values[..j]
        invariant Snapshot() == WithNested(NestedDecoder(lib), st0, done, referer)
      {
        PrefixStep(before, values, j);
        WithNestedAppend(NestedDecoder(lib), st0, done, values[j], referer);
        InsertNestedValue(values[j], referer);
        done := done + [values[j]];
      }
      assert values[..|values|] == values;
    }

    /** `_extract_nested_m3u8_from_wrapper`: the playlist URLs a wrapper page carries in its query. */
    method ExtractNestedM3u8FromWrapper(wrapperUrl: string, referer: string)
      modifies this`possible, this`urlHints, this`refererMap
      ensures Snapshot() == Extracted(lib, old(Snapshot()), wrapperUrl, referer)
    {
      var pairs := QueryPairs(lib, wrapperUrl);
      var st0 := Snapshot();
      var done: seq<string> := [];
      for i := 0 to |NestedKeys|
        invariant done == KeyedValues(pairs, NestedKeys[..i])
        invariant Snapshot() == WithNested(NestedDecoder(lib), st0, done, referer)
      {
        assert NestedKeys[..i + 1][..i] == NestedKeys[..i];
        var values := QueryValues(pairs, NestedKeys[i]);
        InsertNestedValues(done, values, referer, st0);
        done := done + values;
      }
      assert NestedKeys[..|NestedKeys|] == NestedKeys;
    }

    /** `_add_m3u8_candidate`: see `RecordedEffect` for what it keeps and `RecordedValid` for what it preserves. */
    method AddM3u8Candidate(raw: string, referer: string)
      modifies this`possible, this`predicted, this`urlHints, this`refererMap
      ensures Snapshot() == Recorded(lib, old(Snapshot()), NormalizeUrl(lib, raw, ""), referer)
    {
      var candidate := NormalizeUrl(lib, raw, "");
      RecordM3u8Candidate(candidate, referer);
    }

    /** The part of `_add_m3u8_candidate` after normalisation. */
    method RecordM3u8Candidate(candidate: string, referer: string)
      modifies this`possible, this`predicted, this`urlHints, this`refererMap
      ensures Snapshot() == Recorded(lib, old(Snapshot()), candidate, referer)
    {
      if candidate == "" || !IsM3u8Url(candidate) {
        return;
      }
      InsertPlaylist(candidate, referer);
      var guessedIndex := PredictVariant(candidate, "index.m3u8");
      InsertVariant(guessedIndex, referer);
      var guessedMixed := PredictVariant(candidate, "mixed.m3u8");
      InsertVariant(guessedMixed, referer);
      ExtractNestedM3u8FromWrapper(candidate, referer);
    }

    /** Records one guessed variant, when there is one. */
    method InsertVariant(guessed: string, referer: string)
      modifies this`predicted, this`refererMap
      ensures Snapshot() == WithVariant(old(Snapshot()), guessed, referer)
    {
      if guessed != "" {
        predicted := predicted + {guessed};
        if referer != "" {
          refererMap := refererMap[guessed := referer];
        }
      }
    }

    /** `_ordered_m3u8_lists`: both sets as lists, by descending score and then by URL. */
    method OrderedM3u8Lists() returns (p: seq<string>, q: seq<string>)
      ensures SortedBy(PriorityRank(lib, origin), p) && |p| == |possible| && forall u :: u in p <==> u in possible
      ensures SortedBy(PriorityRank(lib, origin), q) && |q| == |predicted| && forall u :: u in q <==> u in predicted
    {
      p := SortSet(possible, PriorityRank(lib, origin));
      q := SortSet(predicted, PriorityRank(lib, origin));
    }

    /** `_has_strong_candidate`: some playlist URL scores at least 6. */
    method HasStrongCandidate() returns (strong: bool)
      ensures strong <==> exists u :: u in possible && M3u8Priority(lib, u, origin) >= 6
    {
      var rest := possible;
      while rest != {}
        invariant rest <= possible
        invariant forall u :: u in possible - rest ==> M3u8Priority(lib, u, origin) < 6
        decreases |rest|
      {
        var item :| item in rest;
        if M3u8Priority(lib, item, origin) >= 6 {
          return true;
        }
        rest := rest - {item};
      }
      return false;
    }

    /**
     * `_rank_recursive_candidates`: the same-site page candidates sorted, then
     * the cross-site ones sorted; `split` is where the second group starts.
     */
    method RankRecursiveCandidates() returns (ranked: seq<string>, split: nat)
      ensures split <= |ranked| == |pageCandidates|
      ensures forall u :: u in ranked <==> u in pageCandidates
      ensures SortedBy(Unranked(), ranked[..split]) && SortedBy(Unranked(), ranked[split..])
      ensures forall k :: 0 <= k < |ranked| ==> (SameSiteAs(lib, origin)(ranked[k]) <==> k < split)
    {
      var sameSite, crossSite := PartitionBy(pageCandidates, SameSiteAs(lib, origin));
      ranked, split := SortedGroups(sameSite, crossSite, SameSiteAs(lib, origin));
    }

    /**
     * `_run_controlled_recursion`: a breadth-first walk over candidate pages,
     * each explored page run by a child monitor (`child`). `explored` lists the
     * (URL, level) nodes that were handed to a child, in order.
     */
    method RunControlledRecursion(possibleIn: seq<string>, predictedIn: seq<string>, child: (string, int) -> ChildRun)
      returns (possibleOut: seq<string>, predictedOut: seq<string>, explored: seq<(string, int)>)
      modifies this`cookies, this`refererMap
      ensures recursionDepth <= 1 ==> explored == []
      ensures Walked(SameSiteAs(lib, origin), NormalizeUrl(lib, origin, ""), recursionDepth, explored)
      ensures Gains(possibleOut, predictedOut, cookies, refererMap)
        == GainsAfter(Gains(possibleIn, predictedIn, old(cookies), old(refererMap)), child, recursionDepth, explored)
      ensures forall i, j :: 0 <= i < j < |explored| ==> explored[i].1 <= explored[j].1
      ensures recursionDepth >= 2 && |explored| < MaxNodes(recursionDepth) ==>
        Exhausted(Normalizer(lib), child, SameSiteAs(lib, origin), recursionDepth, NormalizeUrl(lib, origin, ""),
          pageCandidates, explored)
      ensures recursionDepth >= 2 ==>
        (exists r :: r in pageCandidates && Normalizer(lib)(r) != "" && Normalizer(lib)(r) != NormalizeUrl(lib, origin, "")) ==>
        explored != [] && explored[0].1 == 2 && exists r :: r in pageCandidates && explored[0].0 == Normalizer(lib)(r)
    {
      var ranked: seq<string> := [];
      if recursionDepth > 1 {
        var sameSiteCount;
        ranked, sameSiteCount := RankRecursiveCandidates();
        assert Elems(ranked) == pageCandidates;
      }
      var gains;
      gains, explored := WalkCandidates(ranked, pageCandidates, NormalizeUrl(lib, origin, ""), SameSiteAs(lib, origin),
        Normalizer(lib), recursionDepth, Gains(possibleIn, predictedIn, cookies, refererMap), child);
      possibleOut, predictedOut := gains.possible, gains.predicted;
      SetSessionHints(gains.cookies, gains.referers);
    }

    /** Stores the session's cookies and referer map. */
    method SetSessionHints(newCookies: seq<Json>, newRefererMap: map<string, string>)
      modifies this`cookies, this`refererMap
      ensures cookies == newCookies && refererMap == newRefererMap
    {
      cookies, refererMap := newCookies, newRefererMap;
    }
  }
}
