// The monitor's interaction rules once loaded: normalised rule entries, the
// global rule and the site rules with their chains merged and expanded, URL
// matching and the active rule for a page (MonitorM3U8.py, lines 812-965).

module RuleSet {
  import opened Wrappers
  import opened Text
  import opened JsonValue
  import opened Coerce
  import opened Url
  import opened RuleActions
  import opened RuleCheck

  /** A normalised rule entry (`_normalize_rule_entry`'s dict). */
  datatype Rule = Rule(
    name: string,
    hostPatterns: seq<string>,
    urlContains: seq<string>,
    urlRegex: string,
    actions: seq<Json>,
    chains: ChainMap)

  /** The loaded rule document (`_load_monitor_rules`'s dict). */
  datatype Rules = Rules(source: string, chains: ChainMap, global: Rule, sites: seq<Rule>)

  /** The rule used when the document has no enabled global entry. */
  const DefaultGlobal: Rule := Rule("global", [], [], "", [], map[])

  predicate IsLowerText(s: string) {
    forall i :: 0 <= i < |s| ==> !('A' <= s[i] <= 'Z')
  }

  /** Patterns and keywords as a rule keeps them: trimmed, not blank, lower case. */
  predicate NormalTexts(texts: seq<string>) {
    forall i :: 0 <= i < |texts| ==> texts[i] != "" && Stripped(texts[i]) && IsLowerText(texts[i])
  }

  /** `[item.lower() for item in texts]`. */
  function LowerAll(texts: seq<string>): (r: seq<string>)
    ensures |r| == |texts|
    ensures forall i :: 0 <= i < |r| ==> r[i] == Lower(texts[i])
  {
    if texts == [] then [] else LowerAll(texts[..|texts| - 1]) + [Lower(texts[|texts| - 1])]
  }

  /** Lower-casing the items of `_to_text_list` keeps them trimmed and not blank. */
  lemma LoweredTextsNormal(value: Json)
    ensures NormalTexts(LowerAll(ToTextList(value)))
  {
    var texts := ToTextList(value);
    forall i | 0 <= i < |texts| ensures Lower(texts[i]) != "" && Stripped(Lower(texts[i])) && IsLowerText(Lower(texts[i])) {
      assert texts[i] in texts;
      LowerKeepsStripped(texts[i]);
    }
  }

  /** What every normalised rule is: a name, normal texts, a trimmed regex, normal actions and chains. */
  predicate NormalRule(rule: Rule, defaultName: string) {
    (rule.name == defaultName || (rule.name != "" && Stripped(rule.name)))
    && NormalTexts(rule.hostPatterns) && NormalTexts(rule.urlContains)
    && Stripped(rule.urlRegex)
    && (forall i :: 0 <= i < |rule.actions| ==> IsNormalAction(rule.actions[i]))
    && NormalChains(rule.chains)
  }

  /** The `match` dict of an entry, `{}` when it is missing or not a dict. */
  function MatchOf(source: Json): Json {
    var m := GetOr(source, "match", JObj([]));
    if m.JObj? then m else JObj([])
  }

  /** `str(source.get("name", default_name)).strip() or default_name`. */
  function EntryName(source: Json, defaultName: string): (n: string)
    ensures n == defaultName || (n != "" && Stripped(n))
    ensures !HasKey(source, "name") && Stripped(defaultName) ==> n == defaultName
    ensures Get(source, "name").Some? && Get(source, "name").value.JStr? && Strip(Get(source, "name").value.s) != "" ==>
      n == Strip(Get(source, "name").value.s)
  {
    var name := Strip(Str(GetOr(source, "name", JStr(defaultName))));
    if name != "" then name else defaultName
  }

  /** `str(match.get("url_regex", "") or "").strip()`: trimmed, and "" when the key is missing. */
  function EntryRegex(criteria: Json): (r: string)
    ensures Stripped(r)
    ensures !HasKey(criteria, "url_regex") ==> r == ""
  {
    var regex := GetOr(criteria, "url_regex", JStr(""));
    Strip(if Truthy(regex) then Str(regex) else "")
  }

  /**
   * `_normalize_rule_entry(source, default_name)`: nothing for a non-dict or a
   * disabled entry; otherwise the entry's name (or the default), its host
   * patterns and substrings lower-cased, its regex trimmed, its actions and
   * chains normalised.
   */
  function NormalizeRuleEntry(source: Json, defaultName: string): (r: Option<Rule>)
    ensures r.Some? <==> source.JObj? && ToBool(GetOr(source, "enabled", JBool(true)), true)
    ensures r.Some? ==> NormalRule(r.value, defaultName) && r.value.name == EntryName(source, defaultName)
  {
    if !source.JObj? || !ToBool(GetOr(source, "enabled", JBool(true)), true) then None
    else
      var criteria := MatchOf(source);
      var chains := GetOr(source, "chains", JObj([]));
      var actions := GetOr(source, "actions", JArr([]));
      LoweredTextsNormal(GetOr(criteria, "host", JArr([])));
      LoweredTextsNormal(GetOr(criteria, "url_contains", JArr([])));
      ChainMapOfNormal(if chains.JObj? then chains.fields else []);
      NormalizedActionsNormal(if actions.JArr? then actions.items else []);
      Some(Rule(
        EntryName(source, defaultName),
        LowerAll(ToTextList(GetOr(criteria, "host", JArr([])))),
        LowerAll(ToTextList(GetOr(criteria, "url_contains", JArr([])))),
        EntryRegex(criteria),
        ActionListOf(actions),
        ChainsOf(chains)))
  }

  /** An entry whose `match` is missing or no dict matches on nothing of its own. */
  lemma EntryWithoutMatch(source: Json, defaultName: string)
    requires NormalizeRuleEntry(source, defaultName).Some?
    requires !GetOr(source, "match", JObj([])).JObj?
    ensures NormalizeRuleEntry(source, defaultName).value.hostPatterns == []
    ensures NormalizeRuleEntry(source, defaultName).value.urlContains == []
    ensures NormalizeRuleEntry(source, defaultName).value.urlRegex == ""
  {
    assert MatchOf(source) == JObj([]);
    assert ToTextList(JArr([])) == [];
  }

  /** The document's own chains, `payload.get("chains", {})` normalised. */
  function RootChains(payload: Json): ChainMap {
    ChainsOf(GetOr(payload, "chains", JObj([])))
  }

  /** The global entry, `{}` when it is missing or no dict. */
  function GlobalSource(payload: Json): Json {
    var g := GetOr(payload, "global", JObj([]));
    if g.JObj? then g else JObj([])
  }

  /** The default name of the site entry at `index`: `site_1`, `site_2`, ... */
  function SiteName(index: nat): (n: string)
    ensures n != "" && Stripped(n)
  {
    "site_" + NatToString(index + 1)
  }

  /**
   * A normalised entry placed under the `base` chains: the entry's own chains
   * override base chains of the same name, and its actions are expanded
   * through the merged map, so no chain action is left in them.
   */
  function Placed(rule: Rule, base: ChainMap): (r: Rule)
    ensures r.name == rule.name && r.hostPatterns == rule.hostPatterns
    ensures r.urlContains == rule.urlContains && r.urlRegex == rule.urlRegex
    ensures r.chains.Keys == base.Keys + rule.chains.Keys
    ensures forall name :: name in rule.chains ==> r.chains[name] == rule.chains[name]
    ensures forall name :: name in base && name !in rule.chains ==> r.chains[name] == base[name]
    ensures Spliced(r.actions)
  {
    var merged := base + rule.chains;
    ExpandNeverEmitsChain(rule.actions, merged, [], 0);
    rule.(chains := merged, actions := Expand(rule.actions, merged, [], 0))
  }

  /** The global rule: the normalised global entry with its match criteria cleared, placed under the root chains. */
  function GlobalRuleOf(payload: Json, root: ChainMap): Option<Rule> {
    match NormalizeRuleEntry(GlobalSource(payload), "global")
    case None => None
    case Some(rule) => Some(Placed(rule.(hostPatterns := [], urlContains := [], urlRegex := ""), root))
  }

  /** The site rule of the entry at `index`, placed under the `base` chains. */
  function SiteRuleOf(site: Json, index: nat, base: ChainMap): Option<Rule> {
    match NormalizeRuleEntry(site, SiteName(index))
    case None => None
    case Some(rule) => Some(Placed(rule, base))
  }

  /** The values present in a list of options, in order. */
  function Present<T>(xs: seq<Option<T>>): (r: seq<T>)
    ensures |r| <= |xs|
    ensures forall k :: 0 <= k < |r| ==> Some(r[k]) in xs
    ensures forall k :: 0 <= k < |xs| && xs[k].Some? ==> xs[k].value in r
  {
    if xs == [] then []
    else
      var rest := Present(xs[..|xs| - 1]);
      assert xs == xs[..|xs| - 1] + [xs[|xs| - 1]];
      match xs[|xs| - 1]
      case None => rest
      case Some(x) => rest + [x]
  }

  /** With no option missing, every value is kept in its place. */
  lemma {:induction false} PresentAll<T>(xs: seq<Option<T>>)
    requires forall k :: 0 <= k < |xs| ==> xs[k].Some?
    ensures |Present(xs)| == |xs|
    ensures forall k :: 0 <= k < |xs| ==> Present(xs)[k] == xs[k].value
  {
    if xs != [] {
      var p := xs[..|xs| - 1];
      var x := xs[|xs| - 1].value;
      assert forall k :: 0 <= k < |p| ==> p[k] == xs[k];
      PresentAll(p);
      var r := Present(p);
      assert Present(xs) == r + [x];
      forall k | 0 <= k < |xs| ensures (r + [x])[k] == xs[k].value {
        if k < |p| {
          assert (r + [x])[k] == r[k];
        }
      }
    }
  }

  /** One step of `Present` over a growing prefix. */
  lemma PresentStep<T>(xs: seq<Option<T>>, i: nat)
    requires i < |xs|
    ensures Present(xs[..i + 1]) == Present(xs[..i]) + (if xs[i].Some? then [xs[i].value] else [])
  {
    assert xs[..i + 1][..i] == xs[..i];
  }

  /** The site rule of every entry, or nothing, by position. */
  function SiteOptions(sites: seq<Json>, base: ChainMap): (r: seq<Option<Rule>>)
    ensures |r| == |sites|
    ensures forall k :: 0 <= k < |sites| ==> r[k] == SiteRuleOf(sites[k], k, base)
  {
    seq(|sites|, k requires 0 <= k < |sites| => SiteRuleOf(sites[k], k, base))
  }

  /**
   * The site rules of the entries in order, disabled and non-dict entries
   * left out. Every rule sees every base chain, holds no chain action and
   * has a name.
   */
  function SiteRules(sites: seq<Json>, base: ChainMap): (r: seq<Rule>)
    ensures |r| <= |sites|
    ensures forall rule :: rule in r ==> rule.chains.Keys >= base.Keys && Spliced(rule.actions) && rule.name != ""
  {
    var opts := SiteOptions(sites, base);
    var r := Present(opts);
    assert forall rule :: rule in r ==> rule.chains.Keys >= base.Keys && Spliced(rule.actions) && rule.name != "" by {
      forall rule | rule in r
        ensures rule.chains.Keys >= base.Keys && Spliced(rule.actions) && rule.name != ""
      {
        var k :| 0 <= k < |opts| && opts[k] == Some(rule);
        SiteRuleOfForm(sites[k], k, base);
      }
    }
    r
  }

  /** The site rules are the rules present among the options. */
  lemma SiteRulesPresent(sites: seq<Json>, base: ChainMap)
    ensures SiteRules(sites, base) == Present(SiteOptions(sites, base))
  {
  }

  /** A site rule sees every base chain, holds no chain action and has a name. */
  lemma SiteRuleOfForm(site: Json, index: nat, base: ChainMap)
    ensures SiteRuleOf(site, index, base).Some? ==> var rule := SiteRuleOf(site, index, base).value;
      rule.chains.Keys >= base.Keys && Spliced(rule.actions) && rule.name != ""
  {
    var entry := NormalizeRuleEntry(site, SiteName(index));
    if entry.Some? {
      var rule := Placed(entry.value, base);
      assert SiteRuleOf(site, index, base) == Some(rule);
      assert rule.name == entry.value.name;
    }
  }

  /**
   * `_load_monitor_rules` applied to the document once it is read: the root
   * chains, the global rule (or the default one) and the site rules.
   */
  function LoadRules(payload: Json, source: string): (r: Rules)
    ensures r.source == source
    ensures r.chains.Keys >= RootChains(payload).Keys
    ensures r.global.hostPatterns == [] && r.global.urlContains == [] && r.global.urlRegex == ""
    ensures Spliced(r.global.actions)
    ensures forall site :: site in r.sites ==> site.chains.Keys >= r.chains.Keys && Spliced(site.actions) && site.name != ""
  {
    var root := RootChains(payload);
    if !payload.JObj? then Rules(source, root, DefaultGlobal, [])
    else
      var g := GlobalRuleOf(payload, root);
      var chains := if g.Some? then g.value.chains else root;
      var global := if g.Some? then g.value else DefaultGlobal;
      var sites := GetOr(payload, "sites", JArr([]));
      Rules(source, chains, global, if sites.JArr? then SiteRules(sites.items, chains) else [])
  }

  /** Merges the chains of a normalised entry over `base` and expands its actions. */
  method PlaceRule(rule: Rule, base: ChainMap) returns (placed: Rule)
    ensures placed == Placed(rule, base)
  {
    var merged := base + rule.chains;
    var actions := ExpandActionChains(rule.actions, merged, [], 0);
    placed := rule.(chains := merged, actions := actions);
  }

  /** The loop of `_load_monitor_rules` over the site entries. */
  method PlaceSites(items: seq<Json>, base: ChainMap) returns (siteRules: seq<Rule>)
    ensures siteRules == SiteRules(items, base)
  {
    ghost var options := SiteOptions(items, base);
    siteRules := [];
    for i := 0 to |items|
      invariant siteRules == Present(options[..i])
    {
      PresentStep(options, i);
      var siteRule := NormalizeRuleEntry(items[i], SiteName(i));
      if siteRule.Some? {
        var placed := PlaceRule(siteRule.value, base);
        siteRules := siteRules + [placed];
      }
    }
    assert options[..|items|] == options;
    SiteRulesPresent(items, base);
  }

  /** `_load_monitor_rules`, the file reading and repair aside. */
  method LoadMonitorRules(payload: Json, source: string) returns (rules: Rules)
    ensures rules == LoadRules(payload, source)
  {
    var root := NormalizeChainMap(GetOr(payload, "chains", JObj([])));
    if !payload.JObj? {
      return Rules(source, root, DefaultGlobal, []);
    }
    var chains := root;
    var global := DefaultGlobal;
    var globalRule := NormalizeRuleEntry(GlobalSource(payload), "global");
    if globalRule.Some? {
      global := PlaceRule(globalRule.value.(hostPatterns := [], urlContains := [], urlRegex := ""), root);
      chains := global.chains;
    }
    assert chains == LoadRules(payload, source).chains && global == LoadRules(payload, source).global;
    var sites := GetOr(payload, "sites", JArr([]));
    var siteRules: seq<Rule> := [];
    if sites.JArr? {
      siteRules := PlaceSites(sites.items, chains);
    }
    rules := Rules(source, chains, global, siteRules);
  }

  /** With every site entry an enabled dict, each entry gives one rule, named as the entry says or `site_<n>`. */
  lemma SiteRulesKeepEnabled(sites: seq<Json>, base: ChainMap)
    requires forall k :: 0 <= k < |sites| ==> NormalizeRuleEntry(sites[k], SiteName(k)).Some?
    ensures |SiteRules(sites, base)| == |sites|
    ensures forall k :: 0 <= k < |sites| ==> SiteRules(sites, base)[k].name == EntryName(sites[k], SiteName(k))
  {
    var opts := SiteOptions(sites, base);
    forall k | 0 <= k < |opts| ensures opts[k].Some? {
      assert opts[k] == SiteRuleOf(sites[k], k, base);
    }
    PresentAll(opts);
    var r := SiteRules(sites, base);
    assert r == Present(opts);
    forall k | 0 <= k < |sites| ensures r[k].name == EntryName(sites[k], SiteName(k)) {
      var entry := NormalizeRuleEntry(sites[k], SiteName(k)).value;
      assert r[k] == opts[k].value == Placed(entry, base);
    }
  }

  /** Placing keeps actions and chains within a set of types when the entry and the base are within it. */
  lemma PlacedWithin(rule: Rule, base: ChainMap, types: set<string>)
    requires TypesWithin(rule.actions, types) && ChainTypesWithin(rule.chains, types) && ChainTypesWithin(base, types)
    ensures TypesWithin(Placed(rule, base).actions, types) && ChainTypesWithin(Placed(rule, base).chains, types)
  {
    var merged := base + rule.chains;
    assert ChainTypesWithin(merged, types) by {
      forall name | name in merged ensures TypesWithin(merged[name], types) {
        if name in rule.chains { assert merged[name] == rule.chains[name]; } else { assert merged[name] == base[name]; }
      }
    }
    ExpandSpliced(rule.actions, merged, [], 0, types);
  }

  /** An entry whose actions and chains pass the rule check normalises to whitelisted types only. */
  lemma EntryWithin(source: Json, defaultName: string)
    requires NormalizeRuleEntry(source, defaultName).Some?
    requires AcceptedList(GetOr(source, "actions", JArr([])), ActionTypes)
    requires AcceptedChains(GetOr(source, "chains", JObj([])))
    ensures TypesWithin(NormalizeRuleEntry(source, defaultName).value.actions, ActionTypes)
    ensures ChainTypesWithin(NormalizeRuleEntry(source, defaultName).value.chains, ActionTypes)
  {
    AcceptedListNormalizes(GetOr(source, "actions", JArr([])), ActionTypes);
    AcceptedChainsNormalize(GetOr(source, "chains", JObj([])));
  }

  lemma SiteRulesWithin(sites: seq<Json>, base: ChainMap)
    requires forall k :: 0 <= k < |sites| ==> AcceptedSite(sites[k])
    requires ChainTypesWithin(base, ActionTypes)
    ensures forall rule :: rule in SiteRules(sites, base) ==>
      TypesWithin(rule.actions, ActionTypes) && ChainTypesWithin(rule.chains, ActionTypes)
  {
    var options := SiteOptions(sites, base);
    forall rule | rule in SiteRules(sites, base)
      ensures TypesWithin(rule.actions, ActionTypes) && ChainTypesWithin(rule.chains, ActionTypes)
    {
      var k :| 0 <= k < |options| && options[k] == Some(rule);
      var entry := NormalizeRuleEntry(sites[k], SiteName(k)).value;
      assert AcceptedSite(sites[k]);
      EntryWithin(sites[k], SiteName(k));
      PlacedWithin(entry, base, ActionTypes);
    }
  }

  /**
   * The rule check and the loader agree: once a document passes the check,
   * every action the loaded rules will run has one of the whitelisted types
   * (and, by `LoadRules`, none is a chain), and so does every chain.
   */
  lemma ValidatedRulesWhitelisted(payload: Json, source: string)
    requires ValidatePayload(payload).Pass?
    ensures TypesWithin(LoadRules(payload, source).global.actions, ActionTypes)
    ensures ChainTypesWithin(LoadRules(payload, source).chains, ActionTypes)
    ensures forall site :: site in LoadRules(payload, source).sites ==> TypesWithin(site.actions, ActionTypes)
  {
    assert AcceptedPayload(payload);
    assert HasKey(payload, "chains") && HasKey(payload, "global") && HasKey(payload, "sites");
    var root := RootChains(payload);
    AcceptedChainsNormalize(Get(payload, "chains").value);
    var global := Get(payload, "global").value;
    assert GlobalSource(payload) == global;
    var entry := NormalizeRuleEntry(global, "global");
    var chains := root;
    if entry.Some? {
      EntryWithin(global, "global");
      PlacedWithin(entry.value.(hostPatterns := [], urlContains := [], urlRegex := ""), root, ActionTypes);
      chains := GlobalRuleOf(payload, root).value.chains;
    }
    assert chains == LoadRules(payload, source).chains;
    SiteRulesWithin(Get(payload, "sites").value.items, chains);
  }
}
