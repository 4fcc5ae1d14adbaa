# m3u8 finder and downloader: a Dafny model of its core

The program watches a web page for HLS playlist (`.m3u8`) URLs. It scores
and ranks what it finds, follows candidate pages through child monitors,
and downloads the chosen playlist's segments. It also expands URL
templates such as `https://example.com/p_{{idx}}.jpg {{idx:1-5}}`.

This project models the parts of that program that decide things. The
browser, the network and the file system are supplied as parameters.

The model covers these parts:

- **Candidate store** (`Monitor`, `Classify`, `Url`, `Ordering`, `Cookies`).
  - The playlist URLs seen (`possible`), the guessed variants (`predicted`), the pages worth visiting and the referer hints.
  - The additions to those collections and the score of a playlist URL.
  - The ordering of the candidate lists.
  - The merge of a child session's cookies.
  - The controlled recursion: a breadth-first walk over candidate pages.
- **Interaction-rule engine**.
  - `RuleActions`: normalising actions and chain maps, and splicing named chains into action lists.
  - `RuleSet`: loading the rule document.
  - `RuleCheck`: the whitelist validator.
  - `WhenGate`: gating an action on the attempt number.
  - `RuleMatch`: matching rules to a URL and building the active rule.
  - `Selectors`: selector and frame helpers.
  - `WaitGroup`: wait-group latching.
- **Segment downloader** (`Download`).
  - The planned file names and URLs.
  - The request counter and the failed lists.
  - The retry rounds and the adaptive timeout.
  - The playlist rewrite.
- **URL template expander** (`UrlTemplate`).
- **Configuration window helpers** (`Coerce`, `Config`).
  - The lenient conversions and the configuration validator.
  - Configuration repair, output file names and proxy repair.
- **Worker arithmetic and the log pane** (`Worker`, `LogView`).
  - The status of each downloaded candidate and the success quota.
  - The progress ratios, which never fall back.
  - The clean-log filter.
- **Request headers and JSON stores** (`Headers`, `JsonStore`).

`Text`, `JsonValue` and `Wrappers` hold shared helpers:

- Python's `strip`, `lower`, `split`, `join`, `isdigit` and `zfill`.
- A JSON value type whose dicts keep their insertion order.
- `Option` and `Result`.

Code that works step by step is modelled by methods:

- the downloader's counters;
- the candidate store's collections;
- the progress closures of `Worker.run`;
- the log pane buffer;
- the header list;
- the JSON dicts.

Each of these methods is proved against a specification function. Lemmas then prove what the program promises about that function.

Two behaviours of the code are worth noting:

- **The missing-segment tolerance.** A merged download counts as complete by tolerance when at most two segments are missing (`maxMissingSegments` = 2), or when at least 99.5% of its segments arrived.
  - Under this rule, 3 failed segments out of 100 give `merged_with_missing_segments`. `Worker.HundredSegmentsTolerance` states this case.
- **Chain references.** The rule validator does not check that a `chain` action names a chain that exists. A dangling name is only dropped when chains are expanded.

## Model

| member | source | states |
|---|---|---|
| Coerce.PyInt | MonitorM3U8.py:56-66 | `int(value)` accepts ints and bools (as 0/1), reads text as `Text.ParseInt` does, and refuses null, lists and dicts |
| Text.Ungrouped | MonitorM3U8.py:58 | removing the underscores of a run of digits and underscores leaves digits; text without underscores is unchanged |
| Text.UngroupedAppend | MonitorM3U8.py:58 | removing underscores distributes over concatenation |
| Text.DigitsAreGrouped | MonitorM3U8.py:58 | plain digits are a digit run `int()` accepts, with nothing to remove |
| Text.ParseInt | MonitorM3U8.py:58 | a number iff the stripped text is ASCII digits with single underscores between them, optionally after one `+` or `-`; plain digits read as their value |
| Text.ParseIntGrouped | MonitorM3U8.py:58 | such a digit run reads as the value of its digits |
| Text.ParseIntRoundTrip | MonitorM3U8.py:58 | `int(str(i)) == i` for every integer |
| Text.ParseIntStripped | MonitorM3U8.py:58 | surrounding whitespace does not change the number read |
| Text.ParseIntNegative | MonitorM3U8.py:58 | a leading `-` negates the value |
| Text.ParseIntUnderscore | MonitorM3U8.py:58 | an underscore between two digit runs is ignored, as in `int("1_000") == 1000` |
| Text.UngroupedJoin | MonitorM3U8.py:58 | dropping the underscore of `a_b` gives `ab` |
| Text.GroupedJoin | MonitorM3U8.py:58 | two digit runs joined by one underscore form a digit run `int()` accepts |
| Coerce.ToBool | MonitorM3U8.py:46-54 | a bool is itself; text is true iff its trimmed lower-case form is one of 1/true/yes/on; a number is true iff it is non-zero; anything else gives the default |
| Coerce.ToInt | MonitorM3U8.py:56-66 | the result never exceeds the maximum and is at least the minimum when the bounds are consistent; an in-range parsed value is returned unchanged; values beyond a bound are clamped to it |
| Coerce.ToIntFallsBackThenClamps | UI/MyWindow.py:96-105 | an unparseable value behaves exactly like the default; a parseable one like its parsed number: the fallback comes before the clamp |
| Coerce.ToTextList | MonitorM3U8.py:68-77 | every item is non-blank and trimmed; null gives no item; a scalar gives its stripped text, or nothing when that is blank; a list at most one per element |
| Coerce.StrippedTexts | MonitorM3U8.py:70-74 | every kept text is non-blank and trimmed, at most one per item |
| Coerce.StrippedTextsAppend | MonitorM3U8.py:70-74 | one more item appends its stripped text at the end unless that text is blank: the texts keep the items' order |
| Coerce.StrippedTextsMembers | MonitorM3U8.py:70-74 | a text is kept iff it is non-blank and the stripped text of some item |
| Coerce.NormalizeRecursionDepth | MonitorM3U8.py:80-87 | the depth is at least 1; it is 1 when recursion is off or the depth does not parse; a parsed depth of at least 1 is kept |
| Coerce.NormalizeProxyConfig | MonitorM3U8.py:129-149 | the address, user name and password of a dict are its stripped texts; a non-numeric port is dropped; the proxy is enabled iff it was enabled and has both an address and a port; a non-dict gives the disabled empty proxy |
| Coerce.ToText | UI/MyWindow.py:112-115 | null gives the default, text gives its trimmed self |
| Coerce.RepairPort | UI/MyWindow.py:284-285 | the port is empty or all digits; a non-numeric port becomes the default port `7897`, anything else is kept |
| Coerce.BuildProxyConfig | UI/MyWindow.py:278-294 | the port is the repaired port text, the address the address text, and the proxy is enabled iff the flag is on and neither address nor port is empty |
| Url.RFind | MonitorM3U8.py:967-974 | the index is the last occurrence of the character, or -1 when it does not occur |
| Url.Hostname | MonitorM3U8.py:967-974 | the host name is the parsed host, lower-cased: same length, no upper-case letter |
| Url.DomainKey | MonitorM3U8.py:967-974 | the key is empty iff the dot-stripped host is empty, and it is always a suffix of that host |
| Url.LastTwoLabels | MonitorM3U8.py:971-974 | the key of a non-empty host is non-empty and a suffix of the host |
| Url.LastTwoLabelsSuffix | MonitorM3U8.py:973-974 | joining the last two dot-separated labels gives a non-empty suffix of the host |
| Url.JoinSuffix | MonitorM3U8.py:973-974 | joining a tail of the parts gives a suffix of joining all of them |
| Url.PairsOf | MonitorM3U8.py:1097-1101 | the query split never yields more pairs than there are fields |
| Url.QueryValues | MonitorM3U8.py:1097-1101 | the values returned for a key are exactly the values some pair binds to that key |
| Url.NormalizeUrl | MonitorM3U8.py:992-1017 | a non-empty result always has scheme http or https |
| Classify.RunLength | MonitorM3U8.py:1024-1026 | the run is the longest prefix free of `/`, `?` and `#` |
| Classify.PlaylistAtPrefix | MonitorM3U8.py:1024-1026 | dropping the last character keeps exactly the `.m3u8` matches that end before it |
| Classify.LastPlaylistSuffix | MonitorM3U8.py:1024-1026 | the index is the last position (at least 1) where `.m3u8` starts, in any case, or -1 when there is none |
| Classify.PredictVariant | MonitorM3U8.py:1024-1026 | the guessed variant is either absent ("") or differs from the URL it was guessed from |
| Classify.PathExtension | MonitorM3U8.py:1033-1035 | a found extension has 1 to 8 lower-case letters or digits and the path ends with a dot and that extension |
| Classify.SignalsOf | MonitorM3U8.py:1269-1292 | the VIP-wrapper signal implies the wrapper signal, as the two tests overlap |
| Classify.ScoreBounds | MonitorM3U8.py:1269-1292 | any consistent set of scoring signals scores between -9 and 14 |
| Classify.PriorityBounds | MonitorM3U8.py:1269-1292 | `_m3u8_priority` lies between -9 and 14 for every URL |
| Classify.WrapperRanksBelowDirect | MonitorM3U8.py:1265-1292 | a wrapper page scores at most 8 and a direct playlist URL whose path names the playlist at least 9, so the wrapper always ranks below it |
| Ordering.StrLessIrreflexive | MonitorM3U8.py:1294-1299 | Python's string order is irreflexive |
| Ordering.StrLessTransitive | MonitorM3U8.py:1294-1299 | Python's string order is transitive |
| Ordering.StrLessTotal | MonitorM3U8.py:1294-1299 | two different strings are ordered one way or the other |
| Ordering.BeforeTransitive | MonitorM3U8.py:1294-1299 | the `(rank, text)` sort key order is transitive |
| Ordering.BeforeTotal | MonitorM3U8.py:1294-1299 | the sort key order is total on different strings |
| Ordering.BeforeIrreflexive | MonitorM3U8.py:1294-1299 | the sort key order is irreflexive |
| Ordering.Insert | MonitorM3U8.py:1294-1299 | inserting adds exactly the new element: one longer, with the old elements and the new one |
| Ordering.InsertSorted | MonitorM3U8.py:1294-1299 | inserting a new element into a sorted list keeps it sorted |
| Ordering.SortSet | MonitorM3U8.py:1296-1297 | `sorted(set)` is ascending under the key, holds exactly the set's elements, and has the set's size, so it is a permutation |
| Ordering.SortedUnique | MonitorM3U8.py:1294-1299 | two ascending lists with the same elements are equal: the sort result does not depend on the set's iteration order |
| Cookies.MergedDicts | MonitorM3U8.py:1522-1537 | the merge keeps only dict cookies and is never longer than its input |
| Cookies.MergedStep | MonitorM3U8.py:1527-1536 | the last cookie is appended exactly when it is a dict with a key not merged yet |
| Cookies.MergedDistinct | MonitorM3U8.py:1522-1537 | no two merged cookies share a key |
| Cookies.FirstOfKeyPrefix | MonitorM3U8.py:1522-1537 | being the first cookie of its key survives appending more input |
| Cookies.FirstOfKeyLast | MonitorM3U8.py:1522-1537 | a dict whose key no earlier dict had is the first of its key |
| Cookies.MergedFirst | MonitorM3U8.py:1522-1537 | every merged cookie is the first dict of its key in existing-then-incoming order |
| Cookies.MergedCovers | MonitorM3U8.py:1522-1537 | the key of every input dict occurs in the merge |
| Cookies.MergeCookies | MonitorM3U8.py:1522-1537 | `_merge_cookies(existing, incoming)` is the merge of existing followed by incoming |
| Monitor.TargetsAppend | MonitorM3U8.py:1105-1113 | one more nested value adds its decoded URL when that URL is a playlist URL |
| Monitor.TargetsMembers | MonitorM3U8.py:1105-1113 | a URL is a nested target iff it is a non-empty playlist URL that some value decodes to |
| Monitor.KeyedValuesMembers | MonitorM3U8.py:1103-1106 | a value is collected iff some query pair binds it to one of the keys `url`, `v`, `source`, `src` |
| Monitor.WrapperTargetsFromQuery | MonitorM3U8.py:1095-1113 | the targets of a wrapper page are exactly the playlist URLs its query values under the four keys decode to, and each is a kept playlist URL |
| Monitor.WithHint | MonitorM3U8.py:1076-1093 | an empty referer records nothing; otherwise every URL of the set gets the referer and every other hint is kept |
| Monitor.HintOneSingle | MonitorM3U8.py:1076-1093 | recording one hint is recording the hint for a one-element set |
| Monitor.PrefixStep | MonitorM3U8.py:2411-2454 | the values seen so far extend by one value per step |
| Monitor.WithHintUnion | MonitorM3U8.py:1069-1113 | recording hints for two sets in turn records them for their union |
| Monitor.Variants | MonitorM3U8.py:1083-1088 | every guessed variant is non-empty and differs from the URL it came from |
| Monitor.PrioritySorted | MonitorM3U8.py:1294-1299 | in a list sorted by the priority key, an earlier URL that is not tied with a later one has a strictly higher score |
| Monitor.PartitionBy | MonitorM3U8.py:2378-2388 | the same-site split is a partition: disjoint, covering the set, each half on its side of the test |
| Monitor.SortedGroups | MonitorM3U8.py:2378-2388 | the ranking is the sorted first group followed by the sorted second one, with exactly the elements of both, and `split` separates them |
| Monitor.ExploredStep | MonitorM3U8.py:2420-2452 | one more explored node extends the gathered playlists, cookies and referers by what its child reports |
| Monitor.CrossCount | MonitorM3U8.py:2428-2432 | the number of cross-site nodes is at most the number of nodes |
| Monitor.Enqueue | MonitorM3U8.py:2402-2408 | enqueueing appends exactly the fresh URLs of the candidates, in candidate order and at the given level, and marks them queued; the queue keeps its level bounds |
| Monitor.FreshNodes | MonitorM3U8.py:2402-2408 | the fresh URLs are non-empty, not queued before, distinct, and each the normalisation of a candidate; every candidate whose normalisation is non-empty ends up queued before or among them |
| Monitor.WithNestedAppend | MonitorM3U8.py:1105-1113 | keeping one more nested value keeps its decoded URL after the earlier ones |
| Monitor.WithNestedEffect | MonitorM3U8.py:1095-1113 | keeping nested values adds exactly their targets to `possible`, hints the referer for them, and leaves the guesses and pages alone |
| Monitor.WithVariantEffect | MonitorM3U8.py:1083-1091 | recording a guessed variant adds it to `predicted` with the referer and changes nothing else |
| Monitor.WithPlaylistEffect | MonitorM3U8.py:1075-1081 | keeping a playlist URL adds it to `possible`, with the referer in both hint maps |
| Monitor.GuessedEffect | MonitorM3U8.py:1075-1091 | keeping a playlist URL and guessing its variants adds the URL and its variants, hinting all but the variants in `url_hints` |
| Monitor.RecordedEffect | MonitorM3U8.py:1069-1113 | `_add_m3u8_candidate` changes nothing unless the normalised URL is a playlist URL; otherwise it keeps it, its nested playlists and its variants, with the referer |
| Monitor.RecordedValid | MonitorM3U8.py:1069-1113 | adding a candidate keeps the store valid: only http(s) playlist URLs, only page candidates, hints only for kept URLs |
| Monitor.WithPageValid | MonitorM3U8.py:1062-1067 | adding a page keeps the store valid and adds the page exactly when it is a page worth visiting |
| Monitor.CandidateStore.constructor | MonitorM3U8.py:2390-2400 | a new store is empty and valid |
| Monitor.CandidateStore.AddPageCandidate | MonitorM3U8.py:1062-1067 | the store becomes the store with the normalised URL added as a page, when it is one |
| Monitor.CandidateStore.InsertPage | MonitorM3U8.py:1064-1067 | the store becomes the store with the page added, when it is one |
| Monitor.CandidateStore.InsertPlaylist | MonitorM3U8.py:1108-1113 | the store becomes the store with the playlist URL and its referer kept |
| Monitor.CandidateStore.InsertNestedValue | MonitorM3U8.py:1106-1113 | one decoded value is kept as a playlist URL |
| Monitor.CandidateStore.InsertNestedValues | MonitorM3U8.py:1105-1113 | the inner loop keeps every value of the key, in order |
| Monitor.CandidateStore.ExtractNestedM3u8FromWrapper | MonitorM3U8.py:1095-1113 | the store becomes the store with the wrapper's nested playlists kept (see `WithNestedEffect`) |
| Monitor.CandidateStore.AddM3u8Candidate | MonitorM3U8.py:1069-1093 | the store becomes the recorded store of the normalised URL (see `RecordedEffect`, `RecordedValid`) |
| Monitor.CandidateStore.RecordM3u8Candidate | MonitorM3U8.py:1071-1093 | the store becomes the recorded store of the given URL |
| Monitor.CandidateStore.InsertVariant | MonitorM3U8.py:1085-1091 | the store becomes the store with the variant recorded |
| Monitor.CandidateStore.OrderedM3u8Lists | MonitorM3U8.py:1294-1299 | each list is a permutation of its set, sorted by descending score and then by URL |
| Monitor.CandidateStore.HasStrongCandidate | MonitorM3U8.py:1301-1305 | true iff some playlist URL scores at least 6 |
| Monitor.CandidateStore.RankRecursiveCandidates | MonitorM3U8.py:2378-2388 | the page candidates, each once, same-site ones first and each group sorted |
| Monitor.ExploreNode | MonitorM3U8.py:2428-2453 | one explored page extends the gathered playlists and guesses by its child's, merges its cookies into the session's and applies its referer map; above the last level exactly the fresh normalised candidates of its child are appended to the queue one level deeper and marked queued, and at the last level the queue is left alone |
| Monitor.VisitFront | MonitorM3U8.py:2414-2453 | the front node is explored exactly when it was not visited and it is same-site or the cross-site budget is not spent; it is marked visited whenever it was not; an explored node is appended to the explored pages and its children queued, otherwise the queue only loses its front; the cross-site count stays within its budget |
| Monitor.CandidateStore.RunControlledRecursion | MonitorM3U8.py:2390-2456 | depth 1 explores nothing; at most the node budget is explored and at most the cross-site budget of them off-site; explored URLs are distinct, non-empty, not the home page, at levels 2..depth, with levels never decreasing; the walk stops early only when every candidate of the page and of each explored page above the last level has been reached or is off-site with the cross-site budget spent; when some candidate normalises to a page other than the home page, the first explored node is such a page at level 2; the results are the inputs plus what the explored children report, in order |
| Monitor.WalkCandidates | MonitorM3U8.py:2394-2454 | no candidates means nothing explored; otherwise the same order, stopping and first-node facts over the set of candidates |
| Monitor.WalkPages | MonitorM3U8.py:2397-2454 | the breadth-first walk keeps the bounds, distinctness and gathered results; levels never decrease; the first explored node is the first queued one; stopping before the node budget means every candidate was reached |
| Monitor.WalkLoop | MonitorM3U8.py:2411-2453 | the loop ends with the queue empty or the node budget reached, keeping the walk invariant: the queue is the unpopped tail of every node ever queued, levels in order, each popped node explored or cut by the cross-site budget, every candidate of an explored page above the last level queued |
| Monitor.WalkStep | MonitorM3U8.py:2414-2453 | one round keeps the walk invariant |
| Monitor.WalkExit | MonitorM3U8.py:2411-2412 | at the loop's exit the explored levels are in order, the first explored node is the first queued one, and below the node budget every candidate was reached |
| RuleActions.SplitLast | MonitorM3U8.py:351-369 | a non-empty list is its front followed by its last element |
| RuleActions.TypeOfStored | MonitorM3U8.py:357-364 | a stored type is read back trimmed and lower-cased |
| RuleActions.NormalizedActionForm | MonitorM3U8.py:351-369 | an item is kept iff it is a dict with a non-blank type; the kept action has that type in normal form, dict args and no `name` |
| RuleActions.NormalizedActionFixed | MonitorM3U8.py:351-369 | an action already in normal form is left as it is |
| RuleActions.NormalizedActions | MonitorM3U8.py:351-369 | normalising never lengthens the list |
| RuleActions.NormalizedActionsNormal | MonitorM3U8.py:351-369 | every normalised action is in normal form |
| RuleActions.NormalizeActionList | MonitorM3U8.py:351-369 | the loop builds the normalised list of a list value, and nothing from any other value |
| RuleActions.NormalizedActionsIdempotent | MonitorM3U8.py:351-369 | normalising twice is normalising once |
| RuleActions.NormalFixed | MonitorM3U8.py:351-369 | a list in normal form normalises to itself |
| RuleActions.NormalizedActionsWithin | MonitorM3U8.py:351-369 | normalising introduces no action type the input dicts do not have |
| RuleActions.NormalizedActionsKeepAll | MonitorM3U8.py:351-369 | a list of typed dicts loses no item |
| RuleActions.ChainMapOfNames | MonitorM3U8.py:642-651 | the chain names are exactly the non-blank trimmed names of the dict |
| RuleActions.ChainMapOfLast | MonitorM3U8.py:642-651 | each name is bound to the normalised actions of its last binding |
| RuleActions.ChainMapOfNormal | MonitorM3U8.py:642-651 | every chain holds normalised actions only |
| RuleActions.ChainMapOfWithin | MonitorM3U8.py:642-651 | the chains introduce no action type the dict does not have |
| RuleActions.NormalizeChainMap | MonitorM3U8.py:642-651 | the loop builds the chain map of a dict, and the empty map from any other value |
| RuleActions.StampOneEffect | MonitorM3U8.py:795-805 | an action with its own `when` (or no dict) is kept; otherwise it gets the chain's `when` and every other field is unchanged |
| RuleActions.Stamp | MonitorM3U8.py:795-805 | stamping treats every spliced action alike and keeps the count |
| RuleActions.AppendStamped | MonitorM3U8.py:795-805 | the inner loop appends the stamped chain actions |
| RuleActions.ExpandActionChains | MonitorM3U8.py:761-810 | the loop computes the expansion; above depth 10 it is empty |
| RuleActions.StampOneKeepsType | MonitorM3U8.py:795-805 | stamping keeps the action's type |
| RuleActions.StampKeepsTypes | MonitorM3U8.py:795-805 | stamping chain-free actions keeps them chain-free and within their types |
| RuleActions.ExpandSpliced | MonitorM3U8.py:761-810 | the expansion contains no chain action and no type absent from the list and the chains |
| RuleActions.SpliceSpliced | MonitorM3U8.py:776-805 | what one action contributes contains no chain action and no new type |
| RuleActions.ExpandNeverEmitsChain | MonitorM3U8.py:761-810 | every expanded action is a dict whose type is not `chain` |
| RuleActions.ExpandAppend | MonitorM3U8.py:761-810 | expansion distributes over concatenation of action lists |
| RuleActions.ExpandWithoutChains | MonitorM3U8.py:761-810 | a list of dicts with no chain action expands to itself |
| RuleActions.SelfCallStops | MonitorM3U8.py:781-784 | a chain that calls itself expands to its own non-chain actions: the trace stops the second entry |
| RuleSet.LowerAll | MonitorM3U8.py:820-823 | each text is lower-cased in place |
| RuleSet.LoweredTextsNormal | MonitorM3U8.py:820-823 | lower-cased text lists stay trimmed and non-blank |
| RuleSet.EntryName | MonitorM3U8.py:816 | the name is the default or non-blank trimmed text; a missing name gives the default; a non-blank text name is kept trimmed |
| RuleSet.EntryRegex | MonitorM3U8.py:824 | the regex is trimmed and empty when missing |
| RuleSet.NormalizeRuleEntry | MonitorM3U8.py:812-836 | an entry gives a rule iff it is an enabled dict; the rule is in normal form and carries the entry's name |
| RuleSet.EntryWithoutMatch | MonitorM3U8.py:818-825 | an entry without a `match` dict has no host patterns, no substrings and no regex |
| RuleSet.SiteName | MonitorM3U8.py:880-884 | the default site names are non-blank and trimmed |
| RuleSet.Placed | MonitorM3U8.py:866-895 | placing keeps the criteria, merges the chains with the entry's own overriding the base ones, and leaves no chain action |
| RuleSet.Present | MonitorM3U8.py:878-895 | the values kept are exactly the present ones, in order |
| RuleSet.PresentAll | MonitorM3U8.py:878-895 | with nothing missing every value is kept in its place |
| RuleSet.PresentStep | MonitorM3U8.py:878-895 | one more option adds its value when present |
| RuleSet.SiteOptions | MonitorM3U8.py:878-895 | one placed rule, or nothing, per site entry, by position |
| RuleSet.SiteRules | MonitorM3U8.py:878-895 | every site rule sees every root chain, holds no chain action and has a name |
| RuleSet.LoadRules | MonitorM3U8.py:838-902 | the loaded rules keep the root chains; the global rule matches on nothing of its own; no rule holds a chain action |
| RuleSet.PlaceRule | MonitorM3U8.py:866-876 | the method places a rule under the base chains |
| RuleSet.PlaceSites | MonitorM3U8.py:878-895 | the site loop builds the site rules |
| RuleSet.LoadMonitorRules | MonitorM3U8.py:838-902 | the loader builds the loaded rules of the document |
| RuleSet.SiteRulesKeepEnabled | MonitorM3U8.py:878-895 | with every entry an enabled dict, each gives one rule, named as the entry says or `site_<n>` |
| RuleSet.PlacedWithin | MonitorM3U8.py:866-876 | placing keeps actions and chains within a set of types |
| RuleSet.EntryWithin | MonitorM3U8.py:812-836 | an entry whose lists pass the rule check normalises to whitelisted types only |
| RuleSet.SiteRulesWithin | MonitorM3U8.py:878-895 | site rules built from checked entries hold whitelisted types only |
| RuleSet.ValidatedRulesWhitelisted | MonitorM3U8.py:707-902 | once the document passes the rule check, every action and chain the loaded rules hold has a whitelisted type |
| RuleCheck.Both | MonitorM3U8.py:653-686 | two checks pass together iff each passes |
| RuleCheck.WhenNeverAnArg | MonitorM3U8.py:396-443 | no action type accepts `when` among its args |
| RuleCheck.NumbersAt | MonitorM3U8.py:452-626 | passes iff every present key holds a number |
| RuleCheck.Shaped | MonitorM3U8.py:452-626 | passes iff a present key holds a value of the required kind |
| RuleCheck.Choice | MonitorM3U8.py:452-626 | passes iff a present key, trimmed and lower-cased, is one of the choices |
| RuleCheck.Required | MonitorM3U8.py:452-626 | passes iff the key holds non-blank text |
| RuleCheck.CoordinatesAt | MonitorM3U8.py:600-612 | passes iff every present coordinate is a number, `center` or `middle` |
| RuleCheck.ValidateActionItem | MonitorM3U8.py:653-686 | a passing action is a dict of a whitelisted type with only `type`, `when` and `args` keys |
| RuleCheck.ValidateWhen | MonitorM3U8.py:678-686 | a passing `when` does not parse to `never` |
| RuleCheck.ScalarItems | MonitorM3U8.py:678-684 | passes iff every `when` item is text or a number |
| RuleCheck.ValidateActionArgs | MonitorM3U8.py:452-626 | passing args hold only whitelisted keys |
| RuleCheck.ValidateItems | MonitorM3U8.py:688-696 | every item of a passing list is accepted |
| RuleCheck.ValidateActionList | MonitorM3U8.py:688-696 | a passing list holds accepted actions only |
| RuleCheck.ValidateChainMap | MonitorM3U8.py:698-705 | a passing chain map has non-blank names bound to accepted lists |
| RuleCheck.ValidateChains | MonitorM3U8.py:698-705 | every binding of a passing map is accepted |
| RuleCheck.ValidatePayload | MonitorM3U8.py:707-759 | a passing document has exactly the three root keys and every part accepted |
| RuleCheck.ValidateGlobal | MonitorM3U8.py:715-727 | a passing global entry is accepted |
| RuleCheck.ValidateSites | MonitorM3U8.py:729-759 | passing sites are a list of accepted entries |
| RuleCheck.ValidateSiteList | MonitorM3U8.py:729-759 | every site from the index on is accepted |
| RuleCheck.ValidateSite | MonitorM3U8.py:731-759 | a passing site entry is accepted |
| RuleCheck.ValidateMatch | MonitorM3U8.py:741-753 | passes iff the `match` dict is accepted |
| RuleCheck.ArgsPassForm | MonitorM3U8.py:452-500 | passing args hold whitelisted keys, a chain's name, a selector where needed and a known target |
| RuleCheck.BlankWhenAlways | MonitorM3U8.py:1551-1592 | a blank `when` lets the action run on every attempt |
| RuleCheck.AcceptedListNormalizes | MonitorM3U8.py:351-369 | normalising an accepted list keeps every item and only accepted types |
| RuleCheck.AcceptedChainsNormalize | MonitorM3U8.py:642-651 | normalising an accepted chain map drops no binding and keeps whitelisted types |
| WhenGate.NormalizeActionWhenTokens | MonitorM3U8.py:1551-1592 | the loop reads the `when` value as always, never or a token list |
| WhenGate.CollectExplicit | MonitorM3U8.py:1560-1590 | no value was explicit iff every value is ignored |
| WhenGate.CollectNoTokens | MonitorM3U8.py:1560-1590 | no token was parsed iff every value is ignored or fails to parse |
| WhenGate.CollectTokensFrom | MonitorM3U8.py:1560-1590 | every token comes from a value that parses to it |
| WhenGate.CollectTokensAll | MonitorM3U8.py:1560-1590 | every value that parses contributes its token |
| WhenGate.CollectSingle | MonitorM3U8.py:1560-1590 | the scan of a single value is that value's reading |
| WhenGate.AlwaysIffSilent | MonitorM3U8.py:1551-1592 | `when` reads as always iff every value is a bool, blank or `"null"` |
| WhenGate.NeverIffUnparseable | MonitorM3U8.py:1551-1592 | `when` reads as never iff some value is explicit and none parses |
| WhenGate.AtLeastOne | MonitorM3U8.py:1603-1604 | the attempt number used is at least 1 and is the attempt itself when that is positive |
| WhenGate.RawWhen | MonitorM3U8.py:1599-1601 | the action's own `when` wins; with none there nor in its args the value is blank |
| WhenGate.ActionEnabledForInteractionStage | MonitorM3U8.py:1595-1626 | the method decides whether the tokens admit the attempt |
| WhenGate.AnyAdmitted | MonitorM3U8.py:1612-1626 | the token loop returns true iff some token admits the attempt |
| WhenGate.NoWhenAlwaysEnabled | MonitorM3U8.py:1595-1626 | an action with no `when` at all runs on every attempt |
| WhenGate.SingleToken | MonitorM3U8.py:1551-1592 | a single value that parses gives exactly its token |
| WhenGate.SingleValue | MonitorM3U8.py:1595-1626 | with one parsed value the action runs iff its token admits the attempt |
| WhenGate.BareNumberIsEquality | MonitorM3U8.py:1573-1576 | a bare number means equality with the attempt number |
| WhenGate.AttemptColonIsEquality | MonitorM3U8.py:1577-1583 | `"attempt:N"` runs the action exactly on attempt N |
| WhenGate.AttemptDigits | MonitorM3U8.py:1577-1583 | `attempt:N`, `attemptN` and `N` all parse as equality with N |
| WhenGate.ParseTokenText | MonitorM3U8.py:1563-1572 | parsing the text of a comparison gives the comparison back (round trip) |
| WhenGate.ParseTokenOfText | MonitorM3U8.py:1563-1583 | the text of a comparison is read as that comparison |
| WhenGate.ComparisonWhen | MonitorM3U8.py:1595-1626 | a `when` holding one comparison's text runs the action exactly on the attempts it admits |
| WhenGate.UpwardClosed | MonitorM3U8.py:1595-1626 | a `when` of only `>` and `>=` comparisons, once passed, stays passed on every later attempt |
| RuleMatch.AnyFnmatch | MonitorM3U8.py:912-916 | true iff some host pattern matches |
| RuleMatch.AnyContains | MonitorM3U8.py:917-920 | true iff some keyword occurs in the text |
| RuleMatch.RuleMatchesUrlIff | MonitorM3U8.py:904-934 | a rule with no criteria matches everything; otherwise it matches iff a host pattern, a substring or the regex hits (a bad regex never hits) |
| RuleMatch.Decide | MonitorM3U8.py:931-934 | true iff no check is configured or some configured check passed |
| RuleMatch.DecideThree | MonitorM3U8.py:931-934 | with the three checks of a rule: true iff none is configured or one of them passed |
| RuleMatch.PresentEmpty | MonitorM3U8.py:931-934 | no check is configured iff every option is missing |
| RuleMatch.MoreHostPatternsKeepMatch | MonitorM3U8.py:904-934 | a rule that matches through a criterion still matches with one more host pattern |
| RuleMatch.MatchedSitesMembers | MonitorM3U8.py:936-965 | the matched sites are exactly the site rules that match the URL |
| RuleMatch.Names | MonitorM3U8.py:950-956 | one name per matched site, in order |
| RuleMatch.Details | MonitorM3U8.py:950-956 | one detail record per matched site, in order |
| RuleMatch.GlobalName | MonitorM3U8.py:958-963 | the global rule's name is non-blank and trimmed |
| RuleMatch.AppendRule | MonitorM3U8.py:946-956 | a matched site appends its name, its details and its actions |
| RuleMatch.MatchedStep | MonitorM3U8.py:946-956 | one more site is appended when it matches |
| RuleMatch.AccumulatedStep | MonitorM3U8.py:946-956 | recording one more matched site extends the active rule |
| RuleMatch.ResolveActiveInteractionRule | MonitorM3U8.py:936-965 | the loop builds the active rule: global actions, then every matching site's, named after the matched sites or the global rule |
| RuleMatch.ActionsCounted | MonitorM3U8.py:946-956 | the site actions number the sum of the recorded action counts |
| RuleMatch.ActiveRuleCounts | MonitorM3U8.py:936-965 | the active rule starts with the global actions, then holds exactly the counted site actions, one detail per matched site |
| RuleMatch.NoSiteMatched | MonitorM3U8.py:936-965 | with no site matching the active rule is the global rule under its own name |
| RuleMatch.NoneMatched | MonitorM3U8.py:946-956 | no site matches gives no matched site |
| RuleMatch.ActionsOfFrom | MonitorM3U8.py:946-956 | every action of the active rule comes from one of its rules |
| RuleMatch.ActiveActionsSpliced | MonitorM3U8.py:761-965 | whatever the document and the page, the active rule never runs a chain action |
| RuleMatch.ValidatedActiveWhitelisted | MonitorM3U8.py:707-965 | once the document passes the rule check, every action the active rule runs has a whitelisted type |
| Selectors.ActionArg | MonitorM3U8.py:628-640 | the argument when the action's dict args hold it, the default otherwise |
| Selectors.WaitSelectorState | MonitorM3U8.py:1681-1686 | a known selector state is kept, anything else gives the default |
| Selectors.MatchMode | MonitorM3U8.py:1688-1693 | `any` or `all` is kept, anything else gives the default |
| Selectors.ChildFrames | MonitorM3U8.py:1646-1653 | exactly the frames other than the main frame |
| Selectors.IterActionTargets | MonitorM3U8.py:1646-1653 | the page is a target unless the mode is `frame`/`frames`; the child frames are targets for those modes and for `all`/`page_and_frames` |
| Selectors.ExpandPlayer | MonitorM3U8.py:1655-1672 | exactly the other selectors plus, for `$player`, every player selector |
| Selectors.FirstIndex | MonitorM3U8.py:1672 | the position of an item's first occurrence |
| Selectors.FirstIndexAppend | MonitorM3U8.py:1672 | appending moves no first occurrence, and a new item first occurs at the end |
| Selectors.Dedupe | MonitorM3U8.py:1670-1672 | the same elements without duplicates, in the order of their first occurrences |
| Selectors.ExpandPlayerStep | MonitorM3U8.py:1663-1669 | one more selector extends the expansion |
| Selectors.ExpandPlayerSelectors | MonitorM3U8.py:1663-1669 | the loop expands `$player` |
| Selectors.ResolveActionSelectors | MonitorM3U8.py:1655-1672 | the method resolves the action's selectors |
| Selectors.StripKeepsHead | MonitorM3U8.py:1655-1672 | stripping text that starts with no space keeps its first character |
| Selectors.PlayerSelectorsPlain | MonitorM3U8.py:17-31 | no player selector is itself the `$player` keyword |
| Selectors.ResolvedSelectorsForm | MonitorM3U8.py:1655-1672 | the result has no duplicate and no `$player`, keeps every other selector and, when `$player` was named, every player selector, in the order of their first occurrence after expansion |
| WaitGroup.CompileItems | MonitorM3U8.py:1933-1988 | every compiled item is well formed; a list gives at most one item per child, anything else nothing |
| WaitGroup.CompileList | MonitorM3U8.py:1933-1988 | every compiled child is well formed and there are no more than the children |
| WaitGroup.CompileChild | MonitorM3U8.py:1940-1986 | a child compiles to at most one well-formed item |
| WaitGroup.MissingGroupActions | MonitorM3U8.py:1975-1984 | a missing `group_actions` compiles to nothing |
| WaitGroup.PrepareAll | MonitorM3U8.py:1990-1998 | every child is prepared in its place |
| WaitGroup.Falses | MonitorM3U8.py:1994-1996 | one unset flag per child |
| WaitGroup.PrepareFresh | MonitorM3U8.py:1990-1998 | preparing gives every group, nested ones too, the start time and one unset flag per child |
| WaitGroup.Poll | MonitorM3U8.py:2000-2026 | polling keeps the item's kind, mode, start time and the number of children and flags |
| WaitGroup.PollChildren | MonitorM3U8.py:2010-2022 | only children not yet done are polled; the rest stay as they were |
| WaitGroup.LatchedFlags | MonitorM3U8.py:2010-2022 | a flag is set once its child holds and stays set |
| WaitGroup.PolledItems | MonitorM3U8.py:2010-2022 | polled children keep their new latch state, the others stay |
| WaitGroup.PollLatches | MonitorM3U8.py:2000-2026 | a set flag stays set, and the group holds iff any (mode `any`) or all of its flags are set, never with none |
| WaitGroup.HoldsStay | MonitorM3U8.py:2000-2026 | once a group holds it keeps holding at the next poll, whatever the page and the time |
| WaitGroup.UnpreparedGroupWaits | MonitorM3U8.py:2012-2026 | a group that was never prepared never holds |
| WaitGroup.PrepareItem | MonitorM3U8.py:1990-1998 | the method prepares the item |
| WaitGroup.PollItem | MonitorM3U8.py:2000-2026 | the method polls the item |
| WaitGroup.PollGroup | MonitorM3U8.py:2010-2026 | the group loop polls the group |
| WaitGroup.CompileGroupActions | MonitorM3U8.py:1933-1988 | the loop compiles the group's actions |
| WaitGroup.AnyTimerFires | MonitorM3U8.py:2005-2026 | in mode `any`, a child timer that has waited its delay makes the group hold |
| Download.PlannedAligned | DownloadM3U8.py:94-113 | names and URLs are equally long and index-aligned: file k is fetched from the URL of the key or segment it names, and the renamed playlist carries that name |
| Download.NatToStringInjective | DownloadM3U8.py:103-113 | different indices have different decimal texts |
| Download.KeyNameInjective | DownloadM3U8.py:103-106 | key file names are distinct |
| Download.SegmentNameInjective | DownloadM3U8.py:108-113 | segment file names are distinct |
| Download.KeyNotSegment | DownloadM3U8.py:103-113 | no key file name is a segment file name |
| Download.PlannedDistinct | DownloadM3U8.py:103-113 | no two planned files share a name |
| Download.Single | DownloadM3U8.py:115-137 | exactly one more connection; a failed fetch appends its name and its URL together |
| Download.BatchEffect | DownloadM3U8.py:180-182 | one connection per pair, the timeout kept, earlier failures kept, and only given pairs added, name and URL together |
| Download.BatchAllFail | DownloadM3U8.py:180-182 | when every fetch fails every pair is recorded, in order |
| Download.BatchAllSucceed | DownloadM3U8.py:180-182 | when every fetch succeeds no failure is recorded |
| Download.RoundEffect | DownloadM3U8.py:148-166 | a round makes one connection per failed file, never more failures, and only old failures fail again |
| Download.RetryFromBounds | DownloadM3U8.py:139-166 | at most `retries` rounds of at most the failed count of requests each; the timeout rises at most 3 a round; failures never grow and stay among the earlier ones |
| Download.RetryNothing | DownloadM3U8.py:139-147 | no retries, or nothing failed, changes nothing |
| Download.AllFailGivesUp | DownloadM3U8.py:139-166 | when every request fails the retries stop after five rounds, the same files failed and the timeout raised in rounds four and five |
| Download.AllFailFrom | DownloadM3U8.py:139-166 | the all-fail rounds from any round on |
| Download.AllSucceedClears | DownloadM3U8.py:139-166 | when every request succeeds one round clears the failures |
| Download.AdaptedTimeoutRule | DownloadM3U8.py:193-204 | under 15 connections or at the cap nothing changes; otherwise the timeout rises by exactly 3 iff `10 * failed > 3 * connections` |
| Download.RatioAbove | DownloadM3U8.py:199-200 | `failed / connections > 0.3` in exact fractions is `10 * failed > 3 * connections` |
| Download.ProductAbove | DownloadM3U8.py:199-200 | multiplying by a positive factor keeps an order |
| Download.AdaptedTimeoutCapped | DownloadM3U8.py:193-204 | adapting alone never lowers the timeout and takes it at most 2 past the cap |
| Download.Kept | DownloadM3U8.py:168-171 | exactly the segments whose file did not fail |
| Download.KeptAppend | DownloadM3U8.py:168-171 | the kept segments stay in playlist order |
| Download.KeptAll | DownloadM3U8.py:168-171 | with no failed file every segment is kept |
| Download.Downloader.constructor | DownloadM3U8.py:13-36 | the playlist is prepared, 4 seconds of timeout, a cap of 25, nothing failed |
| Download.Downloader.PrepareDownload | DownloadM3U8.py:94-113 | the planned names and URLs are appended and the playlist renamed |
| Download.Downloader.PlanKeys | DownloadM3U8.py:99-106 | `key{i}.enc` and the key's URL per key |
| Download.Downloader.PlanSegments | DownloadM3U8.py:108-113 | `{i}.ts` and the segment's URL per segment |
| Download.Downloader.DownloadSingle | DownloadM3U8.py:115-137 | the counters become those of one request |
| Download.Downloader.DownloadAll | DownloadM3U8.py:180-182 | the counters become those of the whole batch |
| Download.Downloader.RetryFailed | DownloadM3U8.py:139-166 | the counters become those of the retry rounds |
| Download.Downloader.WriteM3U8 | DownloadM3U8.py:168-171 | the playlist loses exactly the segments whose file failed, in order |
| Download.Downloader.DownloadAndWrite | DownloadM3U8.py:173-191 | every planned file, then the retries, then the rewrite |
| Download.Downloader.TimeoutAdapting | DownloadM3U8.py:193-204 | the timeout becomes the adapted timeout |
| Download.DownloadOutcome | DownloadM3U8.py:173-191 | after a whole download every file still failed is a planned file under its own URL |
| UrlTemplate.WordRun | SimpleUrlParser.py:34 | the longest run of word characters at the index |
| UrlTemplate.SpaceRun | SimpleUrlParser.py:19 | the longest run of whitespace at the index |
| UrlTemplate.CloseFrom | SimpleUrlParser.py:34 | the lazy match stops at the first `}}`, before any line break |
| UrlTemplate.RuleAt | SimpleUrlParser.py:34 | a found rule is the text `{{key:spec}}` with a word key and a non-empty single-line spec |
| UrlTemplate.PlaceholderAt | SimpleUrlParser.py:52 | a found placeholder is the literal `{{key}}` of a word key |
| UrlTemplate.FindPlaceholders | SimpleUrlParser.py:52 | every placeholder found is a word |
| UrlTemplate.LiteralParses | SimpleUrlParser.py:101-102 | the placeholder search finds `key` in `_placeholder_literal(key)`, the text `{{key}}` (round trip) |
| UrlTemplate.WordRunOver | SimpleUrlParser.py:34 | a word followed by a non-word character is one run |
| UrlTemplate.RulesStart | SimpleUrlParser.py:19-21 | the leftmost whitespace run followed by a rule, and no earlier one |
| UrlTemplate.DigitsHaveNoDash | SimpleUrlParser.py:41 | a digit string holds no dash |
| UrlTemplate.RangeOfForm | SimpleUrlParser.py:41-44 | a spec is a range iff it is digits, a dash and digits; the bounds are their values |
| UrlTemplate.SplitDigitsDash | SimpleUrlParser.py:43 | splitting digits-dash-digits on the dash gives the two digit strings |
| UrlTemplate.StripAll | SimpleUrlParser.py:47 | each item is stripped in place |
| UrlTemplate.Values | SimpleUrlParser.py:41-47 | a range gives every integer from start to end inclusive, a list its items |
| UrlTemplate.Replacements | SimpleUrlParser.py:32-47 | the keys are exactly the stripped rule keys |
| UrlTemplate.ReplacementsLast | SimpleUrlParser.py:36-47 | a later rule for the same key overrides an earlier one |
| UrlTemplate.NoRulesWholeTemplate | SimpleUrlParser.py:15-29 | with no whitespace-preceded rule the whole stripped input is the template and there are no rules |
| UrlTemplate.ParseInputString | SimpleUrlParser.py:9-63 | the loop parses the input into template, rules and placeholders |
| UrlTemplate.ValueList | SimpleUrlParser.py:104-120 | a placeholder with a non-empty rule takes its values, any other takes its raw `{{key}}` text |
| UrlTemplate.ValueLists | SimpleUrlParser.py:104-120 | one value list per placeholder, in template order |
| UrlTemplate.BuildOrderedValueLists | SimpleUrlParser.py:104-120 | the loop builds the value lists and records which placeholders have rules |
| UrlTemplate.Prefixed | SimpleUrlParser.py:138 | the head in front of every tail |
| UrlTemplate.Prepend | SimpleUrlParser.py:138 | every head in front of every tail: the product of the lengths |
| UrlTemplate.PrependMember | SimpleUrlParser.py:138 | every combination is a head followed by a tail |
| UrlTemplate.PrependComplete | SimpleUrlParser.py:138 | every head with every tail occurs |
| UrlTemplate.Product | SimpleUrlParser.py:138 | as many combinations as the product of the list lengths |
| UrlTemplate.ProductMember | SimpleUrlParser.py:138 | each combination takes one value from each list |
| UrlTemplate.ProductComplete | SimpleUrlParser.py:138 | every choice of one value per list is produced |
| UrlTemplate.RangeMax | SimpleUrlParser.py:147-152 | the upper bound is the largest value of a non-empty range |
| UrlTemplate.RangeValuesPadded | SimpleUrlParser.py:147-152 | every range value is written with the digit count of the range's maximum: zeros, then its digits |
| UrlTemplate.Results | SimpleUrlParser.py:122-162 | nothing to fill gives `[(template, "")]`; otherwise one result per combination |
| UrlTemplate.Urls | SimpleUrlParser.py:65-98 | nothing to fill gives `[template]` |
| UrlTemplate.UrlsAreResultUrls | SimpleUrlParser.py:65-162 | `generate_urls` gives the URLs of `generate_urls_with_match_strings`, in order |
| UrlTemplate.CountPositive | SimpleUrlParser.py:104-120 | each placeholder takes at least one value, so there is at least one combination |
| UrlTemplate.ResultsNonEmpty | SimpleUrlParser.py:122-162 | there is always at least one result |
| Text.ReplaceFirstAt | SimpleUrlParser.py:153 | `replace(pat, repl, 1)` rewrites only the leftmost occurrence: the text before it, then the replacement, then the text after it |
| Text.ReplaceFirstAbsent | SimpleUrlParser.py:153 | with no occurrence the text is returned unchanged |
| UrlTemplate.LiteralStays | SimpleUrlParser.py:153-157 | a placeholder without values stays as its raw text and adds no match part |
| UrlTemplate.PartsForExtend | SimpleUrlParser.py:155-157 | one more ruled placeholder adds its `key_value` part |
| UrlTemplate.MatchPartsAllRuled | SimpleUrlParser.py:153-161 | with every placeholder ruled the match parts are one `key_value` each, in template order |
| UrlTemplate.MatchPartsNoneRuled | SimpleUrlParser.py:153-161 | with no placeholder ruled the match string is empty |
| UrlTemplate.PartsAtRuled | SimpleUrlParser.py:155-157 | a ruled placeholder adds its position and its `key_value` part |
| UrlTemplate.PartsAtUnruled | SimpleUrlParser.py:153-161 | a placeholder without a rule adds no part |
| UrlTemplate.MatchPartsRuled | SimpleUrlParser.py:153-161 | the match parts are one `key_value` for each ruled placeholder, in template order; the placeholders without a rule add none |
| UrlTemplate.FillCombo | SimpleUrlParser.py:142-160 | the inner loop fills one combination |
| UrlTemplate.FilledPrefixExtend | SimpleUrlParser.py:138-161 | one more combination appends its result |
| UrlTemplate.UrlPrefixExtend | SimpleUrlParser.py:79-96 | one more combination appends its URL |
| UrlTemplate.GenerateUrlsWithMatchStrings | SimpleUrlParser.py:122-162 | the loop computes the results |
| UrlTemplate.GenerateUrls | SimpleUrlParser.py:65-98 | the loop computes the URLs |
| JsonValue.PutField | JsonProcessor.py:65-66 | `d[key] = v` binds the key to the value and leaves every other key as it was |
| JsonValue.RemoveField | JsonProcessor.py:68-69 | `del d[key]` removes the key and leaves every other key as it was |
| Config.CheckInts | UI/MyWindow.py:309-372 | no error iff every integer field is an int in its range; an error names a failing field |
| Config.CheckOptions | UI/MyWindow.py:309-372 | no error iff every option field is one of its options; an error names a failing field |
| Config.CheckValues | UI/MyWindow.py:309-372 | no error iff flags, integers, texts and options all hold |
| Config.ValidateConfig | UI/MyWindow.py:309-372 | the payload passes iff it conforms; a non-dict or a key set other than the schema's is rejected |
| Config.ExtraKeyRejected | UI/MyWindow.py:297-330 | a key outside the schema is always reported |
| Config.Sanitize | UI/MyWindow.py:268 | forbidden characters become `_`, every other character is kept |
| Config.SanitizeSafe | UI/MyWindow.py:268 | a safe name is left as it is |
| Config.CleanName | UI/MyWindow.py:268-272 | the cleaned name is safe and trimmed |
| Config.CleanNameFixed | UI/MyWindow.py:268-272 | a clean name is left as it is |
| Config.Basename | UI/MyWindow.py:262 | the text after the last `/` |
| Config.LastIndex | UI/MyWindow.py:262-263 | the last position of the character, or none when absent |
| Config.SplitExtRoot | UI/MyWindow.py:263 | the text before the last dot, unless only dots come before it |
| Config.OutputSafe | UI/MyWindow.py:271-272 | the last fallback `output` is safe |
| Config.NormalizeFilename | UI/MyWindow.py:253-275 | the name is never empty and holds no forbidden character |
| Config.CleanStemKept | UI/MyWindow.py:253-275 | a clean stem is kept as it is |
| Config.PlainNameKept | UI/MyWindow.py:253-275 | a plain safe name without a dot or quote is kept as it is |
| Config.NameStemPlain | UI/MyWindow.py:258-263 | a plain name is its own stem |
| Config.SplitExtRootNoDot | UI/MyWindow.py:263 | a name without a dot has no extension |
| Config.BasenameNoSlash | UI/MyWindow.py:262 | a name without `/` is its own base name |
| Config.BasenameAfterSlash | UI/MyWindow.py:262 | the base name of `dir/name` is `name` |
| Config.DirectoryDropped | UI/MyWindow.py:253-275 | `dir/name` gives `name`: the directory is dropped |
| Config.NameStemAfterDir | UI/MyWindow.py:258-263 | the stem of `dir/name` is `name` |
| Config.MapCharAfterSlash | UI/MyWindow.py:261 | replacing characters in `dir/name` leaves a clean `name` alone |
| Config.NormalizedSettings | UI/MyWindow.py:375-443 | every number is in its range, the file name is non-empty and safe, the rule path is set, the download list is on, an enabled proxy has address and port, the port is empty or numeric |
| Config.InRangeIntKept | UI/MyWindow.py:96-105 | an in-range int is kept by the repair |
| Config.AppendHint | UI/MyWindow.py:1619-1628 | the two texts joined by a space unless the first ends with a colon or space; either alone when the other is empty |
| Worker.Trunc | UI/MyWindow.py:560-562 | `int()` truncates toward zero |
| Worker.ClampPercent | UI/MyWindow.py:560-562 | the percent is in [0, 100], equal to the truncated value when that is in range |
| Worker.TruncMonotone | UI/MyWindow.py:560-562 | truncation is monotone |
| Worker.ClampPercentMonotone | UI/MyWindow.py:560-562 | clamping is monotone and idempotent |
| Worker.Clamp01 | UI/MyWindow.py:732-751 | the ratio is in [0, 1] and equal to the value when that is |
| Worker.Raise | UI/MyWindow.py:954-962 | the stored ratio never falls: the larger of the stored and the clamped value |
| Worker.CombinedBounds | UI/MyWindow.py:732-737 | the weighted progress is a ratio and monotone in both phases |
| Worker.Refresh | UI/MyWindow.py:732-737 | refreshing keeps the phases and never lowers the overall value |
| Worker.PhaseSettersMonotone | UI/MyWindow.py:739-751 | setting either phase keeps every ratio in [0, 1] and lowers none |
| Worker.SumBounds | UI/MyWindow.py:964-975 | a sum of ratios lies between 0 and the count |
| Worker.SumUpdate | UI/MyWindow.py:964-975 | replacing one ratio changes the sum by the difference |
| Worker.Mean | UI/MyWindow.py:964-975 | the mean of ratios is a ratio |
| Worker.MeanRaised | UI/MyWindow.py:964-975 | raising one candidate's ratio never lowers the mean |
| Worker.DivMonotone | UI/MyWindow.py:964-975 | division by a positive count is monotone |
| Worker.RunProgress.constructor | UI/MyWindow.py:712-760 | every ratio starts at 0, one per candidate |
| Worker.RunProgress.RefreshTaskProgress | UI/MyWindow.py:732-737 | the overall value is refreshed and emitted; it never falls |
| Worker.RunProgress.SetMonitorRatio | UI/MyWindow.py:739-744 | the monitor phase is raised to the clamped value and the overall value refreshed |
| Worker.RunProgress.SetDownloadRatio | UI/MyWindow.py:746-751 | the download phase is raised to the clamped value and the overall value refreshed |
| Worker.RunProgress.PushDownloadRatio | UI/MyWindow.py:954-962 | the stored ratio is raised; the download phase is set only when it moved |
| Worker.RunProgress.UpdateCandidateProgress | UI/MyWindow.py:964-975 | an index outside the list changes nothing; otherwise that candidate is raised and the mean pushed: the download phase and the emitted values are unchanged when the stored ratio did not move, and otherwise the download phase is set to the new ratio and the overall value emitted |
| Worker.RunProgress.UpdateQuotaProgress | UI/MyWindow.py:977-983 | with no success planned the download is complete; otherwise the successes plus the current share, over the plan, is pushed: the download phase and the emitted values are unchanged when the stored ratio did not move, and otherwise the download phase is set to the new ratio and the overall value emitted |
| Worker.OutcomeCompletion | UI/MyWindow.py:1063-1125 | completed iff downloaded without interruption, some segment arrived, merged and within the tolerance; by tolerance iff completed with segments missing |
| Worker.HundredSegmentsTolerance | UI/MyWindow.py:875-878 | 3 of 100 missing is not tolerated, 2 of 100 and 5 of 1000 are, 6 of 1000 is not |
| Worker.PlannedSuccessesBounds | UI/MyWindow.py:939-952 | mode 0 plans nothing; the others plan between 1 and the candidate count: one, up to five, or all |
| Worker.Repeat | UI/MyWindow.py:1160-1177 | the same status for every remaining candidate |
| Worker.Run | UI/MyWindow.py:990-1177 | one status per candidate, and the success count never falls |
| Worker.CountSuccessesAppend | UI/MyWindow.py:990-1177 | success counts add up over concatenation |
| Worker.CountNoSuccesses | UI/MyWindow.py:1160-1177 | skipped statuses count no success |
| Worker.RunCounts | UI/MyWindow.py:990-1177 | the successes counted are the successful statuses; a limited mode never exceeds its plan |
| Worker.ModeZeroSkipsForTarget | UI/MyWindow.py:997-1013 | as written, mode 0 marks every candidate `skipped_target_reached` and none `skipped_no_download` |
| Worker.RunIntended | UI/MyWindow.py:990-1177 | one status per candidate, and the success count never falls |
| Worker.ModeZeroIntended | UI/MyWindow.py:1011-1013 | with the intended check, mode 0 marks every candidate `skipped_no_download` |
| Worker.IntendedAgreesWithQuota | UI/MyWindow.py:997-999 | with a plan above zero the intended and the written checks give the same run |
| Worker.TracksStep | UI/MyWindow.py:990-1177 | one more processed candidate keeps the loop on track |
| Worker.TracksExit | UI/MyWindow.py:990-1177 | leaving the loop early finishes the run |
| Worker.RunCandidates | UI/MyWindow.py:990-1177 | the loop records the statuses and successes of the run, which equal the intended run whenever the mode plans a download |
| LogView.FirstBreak | UI/MyWindow.py:1908 | the first line break, with none before it |
| LogView.LineLength | UI/MyWindow.py:1908 | the first line with its terminator is non-empty |
| LogView.FirstLineWellFormed | UI/MyWindow.py:1908 | the first line has no inner break and is terminated unless it is the last |
| LogView.SplitLines | UI/MyWindow.py:1908 | `splitlines(keepends=True)`: well-formed lines, all but the last terminated, none for empty text |
| LogView.ConcatPrepend | UI/MyWindow.py:1908 | joining lines distributes over prepending |
| LogView.ConcatAppend | UI/MyWindow.py:1908 | joining lines distributes over appending |
| LogView.SplitLinesConcat | UI/MyWindow.py:1908 | joining the lines gives back the text (round trip) |
| LogView.StripTrailing | UI/MyWindow.py:1685-1690 | stripping removes trailing whitespace from stripped text |
| LogView.CompletedLineForms | UI/MyWindow.py:1685-1690 | a bare `completed` line is kept, a report naming a segment after the tab is dropped |
| LogView.KeepLines | UI/MyWindow.py:1914-1917 | exactly the lines that are not completed-segment reports |
| LogView.DrainRoundTrip | UI/MyWindow.py:1907-1912 | the lines taken and the fragment kept make up the buffered text, and the fragment holds no `\n` or `\r` |
| LogView.FragmentHasNoNewline | UI/MyWindow.py:1909-1910 | a last line not ending in `\n` or `\r` holds no `\n` or `\r` |
| LogView.FilterLines | UI/MyWindow.py:1914-1917 | the loop keeps exactly the lines that are not completed-segment reports |
| LogView.LogPane.PrintInTextBrowser | UI/MyWindow.py:1900-1919 | empty text changes nothing; with clean log off text is appended as it is; with it on the complete lines are appended but for completed reports and only an unterminated fragment stays buffered |
| Headers.Second | RandomHeaders.py:44-70 | the text after the separator, or nothing when it is absent |
| Headers.First | RandomHeaders.py:44-70 | the prefix before the separator |
| Headers.FirstIsPrefix | RandomHeaders.py:44-70 | the first split part is a prefix of the text |
| Headers.Versioned | RandomHeaders.py:44-70 | the browser and its version when the marker occurs, nothing otherwise |
| Headers.Between | RandomHeaders.py:46-70 | the text after the marker up to the stop, which it does not contain |
| Headers.DetectBrowser | RandomHeaders.py:42-70 | for each browser, the name is chosen iff every earlier test fails, its own test holds and its version marker occurs. The order is Google Chrome (without Chromium), Chromium, Firefox, Safari with `Version/`, Opera, Microsoft Edge, Internet Explorer. Each version is taken from its marker up to a space: `Chrome/`, `Chromium/`, `Version/`, `OPR/` before `Opera/`, `Edge/`. Firefox keeps everything after `Firefox/`; Internet Explorer reads from `rv:` up to `)`. `Unknown` version `0` is chosen iff no marker occurs. A missing version marker gives nothing |
| Headers.DetectPlatform | RandomHeaders.py:73-82 | for each platform, the result is chosen iff the earlier tests fail and its own holds. The order is Windows (`Windows NT`), macOS (`Macintosh` or `Mac OS X`), Linux without Android, Android, iOS (`iPhone` or `iPad`); `Unknown` when none holds |
| Headers.Zip | RandomHeaders.py:85-93 | the keys paired with the values, in order |
| Headers.MajorVersion | RandomHeaders.py:86 | the version up to its first dot |
| Headers.Ua2Sec | RandomHeaders.py:85-93 | the same six keys; dest, mode and site are `document`, `navigate`, `same-origin`; mobile is `?1` iff `Mobile` occurs; the platform quoted; the browser's major version |
| Headers.RefererFor | RandomHeaders.py:106-110 | `None` when the referer list is empty or not a list, otherwise one of its items |
| Headers.HeaderFor | RandomHeaders.py:103-117 | ten fields holding the referer and the user agent, or nothing when the user agent cannot be read |
| Headers.HeaderAt | RandomHeaders.py:103-117 | the dict drawn at an index carries that draw's agent and referer |
| Headers.Generated | RandomHeaders.py:97-119 | when it succeeds, exactly `n` dicts |
| Headers.GeneratedAt | RandomHeaders.py:97-119 | each generated dict is the one drawn at its index |
| Headers.GeneratedStep | RandomHeaders.py:97-119 | one more draw appends its dict or fails |
| Headers.GeneratedFailsOnward | RandomHeaders.py:97-119 | one failed draw fails everything after it |
| Headers.GeneratedFails | RandomHeaders.py:97-119 | generation fails iff some draw fails |
| Headers.GeneratedHeaders | RandomHeaders.py:97-119 | one dict per draw with its own agent, a `None` referer iff the referer list is empty or no list; fails iff some agent's version cannot be read |
| Headers.GenHeadersList | RandomHeaders.py:97-119 | the loop generates `num` dicts (none for a negative count) |
| Headers.AsJsonList | RandomHeaders.py:18-22 | a list of the same length |
| Headers.RandomHeaders.Referers | RandomHeaders.py:18-22 | the referer list is a non-empty list |
| Headers.RandomHeaders.Resize | RandomHeaders.py:159-173 | a negative size is refused and changes nothing; shrinking keeps the first entries; growing appends exactly the missing number of generated dicts |
| Headers.RandomHeaders.ModifyHeadersList | RandomHeaders.py:144-157 | clearing empties the list, a list argument is appended, anything else ignored |
| JsonStore.JsonProcessor.constructor | JsonProcessor.py:20-23 | `self.data` is the data handed in, or `None` until the file is read |
| JsonStore.Open | JsonProcessor.py:12-27 | data handed in is kept; without data the parsed file is kept, and a broken file gives `{}` when covering and otherwise makes the construction raise |
| JsonStore.JsonProcessor.Read | JsonProcessor.py:30-51 | a parsed file becomes the data; a broken one becomes `{}` when covering, otherwise raises and keeps the data |
| JsonStore.JsonProcessor.GetItem | JsonProcessor.py:60-63 | a present key is returned with nothing changed; a missing key is stored with `''` and `''` returned |
| JsonStore.JsonProcessor.SetItem | JsonProcessor.py:65-66 | the key is bound to the value and nothing else changes (see `JsonValue.PutField`) |
| JsonStore.JsonProcessor.DelItem | JsonProcessor.py:68-69 | a present key is removed and nothing else changes; a missing key raises and changes nothing |
| JsonStore.JsonProcessor.Clear | JsonProcessor.py:90-92 | a dict or a list is emptied; any other document raises and is kept |
| JsonStore.PutFieldAbsent | JsonProcessor.py:60-63 | storing a new key appends it after the others |
| JsonStore.Entry | JsonProcessor.py:113-121 | a dict with a non-blank stripped URL gives that URL and the truthiness of `completed`; anything else is skipped |
| JsonStore.EntriesClean | JsonProcessor.py:110-123 | every URL taken is non-empty and stripped |
| JsonStore.UrlsWithMembers | JsonProcessor.py:119-123 | a URL is in a list iff an entry with that URL and that state is |
| JsonStore.EntriesStep | JsonProcessor.py:111-123 | one more key adds its entry when it is all digits |
| JsonStore.UrlsWithAppend | JsonProcessor.py:119-123 | one more entry lands at the end of its list |
| JsonStore.UrlsPartition | JsonProcessor.py:119-123 | every entry lands in exactly one of the two lists |
| JsonStore.NonDigitKeyIgnored | JsonProcessor.py:111 | a key that is not all digits adds nothing |
| JsonStore.ReadDownloadJson.constructor | JsonProcessor.py:104-108 | from a dict document, the lists are those `paddingList` fills |
| JsonStore.ReadDownloadJson.PaddingList | JsonProcessor.py:110-123 | the URL of every dict under a digit key is appended to the completed or pending list, in key order; a non-dict document raises and changes nothing |
| JsonStore.ReadDownloadJson.Write | JsonProcessor.py:125-127 | writing always fails |

## Left out

- Browser automation. The Playwright page, its frames, selector checks and page state are parameters. `_action_wait_group`'s polling loop is left out, and so are the other page actions that drive the browser.
- Wall-clock time: times are given as whole milliseconds and sleeping is not modelled.
- Network I/O. Every segment or key fetch is the `Fetch` parameter, and a child monitor run is the `child` parameter of `RunControlledRecursion`. `_fallback_probe_with_requests` and ConnectionTest.py are not part of this model.
- Concurrency. The download thread pool runs its requests one after another, and races on `connections` are not modelled. TimerTimer.py and the Qt worker thread are not part of this model.
- File system. Reading and writing JSON, rule files and logs, `clearFolder`, `writeVideoBat`, directory resolution (the `FolderResolver` parameter) and config backups are left out. A JSON read is given as the parsed document.
- Library routines. The following are the `Lib` parameter: `urlparse`, `urljoin`, `urldefrag`, `unquote`, `unicode_escape` decoding, `fnmatch` and `re.search`. The m3u8 parser's output is a given `Playlist`.
- Url.NormalizeUrl: states only that its result is empty or an http(s) URL, because the parsing it relies on belongs to the `Lib` routines.
- Numbers are ints only. JSON floats are not modelled, so `_is_number` accepts ints, and percent rounding and float formatting are left out.
- Character classes. Python's `\w`, `\d` and `lower` are modelled on ASCII; `isspace` follows Python's Unicode whitespace.
- Text.ParseInt: reads only the ASCII digits 0-9. Python's `int()` also accepts other Unicode decimal digits, such as `٣`. Underscores between digits are modelled.
- Text.IsDigits: accepts only the ASCII digits 0-9. Python's `str.isdigit` also accepts other Unicode digits, such as `²` or `٣`. This affects the port checks (MonitorM3U8.py:137, UI/MyWindow.py:284), the candidate count (MonitorM3U8.py:1574) and the digit keys of a download list (JsonProcessor.py:111).
- JSON objects are field lists, and a list may repeat a key, which a Python dict cannot. Lookups take the first field with the key, and `ReadDownloadJson` visits every field. The results agree with Python's on documents without repeated keys, which are the only documents `json.load` produces.
- Paths follow POSIX rules. Windows reserved names and `os.name` are left out.
- Randomness. The user agents of `fake_useragent` and the choices of `random.choice` are the `Draws` parameter.
- Headers.RandomHeaders.Resize: the `check=True` branch, which probes each header over the network, is left out. `Headers.RandomHeaders.ModifyHeadersList` likewise models only `check` off.
- Worker.RunCandidates: stop requests are modelled only as an interrupted download. The newer downloader API that `Worker.run` calls is abstracted as the `DownloadReport` record of what a finished download reports.
- JsonStore.ReadDownloadJson.constructor: a document that is not a dict leaves both lists empty. The source raises `AttributeError` at JsonProcessor.py:111 there, and no object is made.
- Download.Downloader.constructor, Download.Downloader.PrepareDownload, Download.PlannedUrls and Download.Renamed require `KeysUsable`. The source also accepts a playlist whose first key slot holds a key and a later slot holds `None`. It raises `AttributeError` at DownloadM3U8.py:103-104 on the `None` slot, after it has appended the URLs and names of the keys before it. The model does not capture that partial state or the error.
- Worker.RunProgress.constructor: the Qt signals that carry the percentages are left out; the values emitted are recorded in `emitted`.
- RuleCheck.ValidateActionItem, RuleCheck.ValidateActionArgs, RuleCheck.ValidateGlobal, RuleCheck.ValidateSite and RuleCheck.ValidateMatch: the unsupported-fields message omits the sorted list of extra keys that the source appends (MonitorM3U8.py:456, 659, 724, 737, 748). Which rules fail, and on which path, is modelled exactly; only the message text differs.
- XmlEncoderDecoder.py, main.py, the Qt window classes and `MonitorM3U8`'s browser-driving methods are not part of this model.

## Findings

| source | as written | input that shows it | evidently intended | confidence | as-written member | corrected member |
|---|---|---|---|---|---|---|
| UI/MyWindow.py:997-1013 | In download mode 0 the quota test `success_target is not None and successful_videos >= planned_successes` holds at once, because the target and `planned_successes` are both 0. The loop breaks before the first candidate, and every candidate is marked `skipped_target_reached`. | download mode 0 with one or more candidates | every candidate is marked `skipped_no_download` (lines 1011-1013); this branch is unreachable as written | not executed | Worker.ModeZeroSkipsForTarget | Worker.ModeZeroIntended |
