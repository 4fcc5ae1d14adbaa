// Which loaded rules apply to a page, and the active interaction rule built
// from them (MonitorM3U8.py, lines 904-965).

module RuleMatch {
  import opened Wrappers
  import opened Text
  import opened JsonValue
  import opened Url
  import opened RuleActions
  import opened RuleCheck
  import opened RuleSet

  /** `self._normalize_url(url) or str(url or "")`: the text the criteria are checked against. */
  function MatchUrl(lib: Lib, url: string): string {
    var normalized := NormalizeUrl(lib, url, "");
    if normalized != "" then normalized else url
  }

  /** `any(fnmatch.fnmatch(host, pattern) for pattern in patterns)`. */
  function AnyFnmatch(lib: Lib, host: string, patterns: seq<string>): (r: bool)
    ensures r <==> exists i :: 0 <= i < |patterns| && lib.fnmatch(host, patterns[i])
  {
    if patterns == [] then false
    else lib.fnmatch(host, patterns[0]) || AnyFnmatch(lib, host, patterns[1..])
  }

  /** `any(keyword in text for keyword in keywords)`. */
  function AnyContains(text: string, keywords: seq<string>): (r: bool)
    ensures r <==> exists i :: 0 <= i < |keywords| && Contains(text, keywords[i])
  {
    if keywords == [] then false
    else Contains(text, keywords[0]) || AnyContains(text, keywords[1..])
  }

  /** The rule has at least one criterion: a host pattern, a substring or a non-blank regex. */
  predicate HasCriteria(rule: Rule) {
    rule.hostPatterns != [] || rule.urlContains != [] || Strip(rule.urlRegex) != ""
  }

  /** Some host pattern matches the URL's lower-cased host name. */
  predicate HostHit(lib: Lib, rule: Rule, url: string) {
    exists i :: 0 <= i < |rule.hostPatterns| && lib.fnmatch(Hostname(lib, MatchUrl(lib, url)), rule.hostPatterns[i])
  }

  /** Some substring occurs in the lower-cased URL. */
  predicate ContainsHit(lib: Lib, rule: Rule, url: string) {
    exists i :: 0 <= i < |rule.urlContains| && Contains(Lower(MatchUrl(lib, url)), rule.urlContains[i])
  }

  /** The trimmed regex is not blank and is found in the URL; a regex that does not compile finds nothing. */
  predicate RegexHit(lib: Lib, rule: Rule, url: string) {
    Strip(rule.urlRegex) != "" && lib.reSearch(Strip(rule.urlRegex), MatchUrl(lib, url)) == Some(true)
  }

  /**
   * `_rule_matches_url`: the checks the rule configures are collected, a rule
   * without any matches every URL, and otherwise one passing check suffices.
   */
  function RuleMatchesUrl(lib: Lib, rule: Rule, url: string): bool {
    var normalized := MatchUrl(lib, url);
    var lowered := Lower(normalized);
    var host := Hostname(lib, normalized);
    var hostMatch := if rule.hostPatterns == [] then None else Some(AnyFnmatch(lib, host, rule.hostPatterns));
    var containsMatch := if rule.urlContains == [] then None else Some(AnyContains(lowered, rule.urlContains));
    var regex := Strip(rule.urlRegex);
    var regexMatch :=
      if regex == "" then None
      else Some(match lib.reSearch(regex, normalized) case Some(found) => found case None => false);
    Decide([hostMatch, containsMatch, regexMatch])
  }

  /** A rule matches exactly when it has no criterion or one of its criteria hits. */
  lemma RuleMatchesUrlIff(lib: Lib, rule: Rule, url: string)
    ensures RuleMatchesUrl(lib, rule, url) <==>
      !HasCriteria(rule) || HostHit(lib, rule, url) || ContainsHit(lib, rule, url) || RegexHit(lib, rule, url)
  {
    var normalized := MatchUrl(lib, url);
    var hostMatch := if rule.hostPatterns == [] then None else Some(AnyFnmatch(lib, Hostname(lib, normalized), rule.hostPatterns));
    var containsMatch := if rule.urlContains == [] then None else Some(AnyContains(Lower(normalized), rule.urlContains));
    var regex := Strip(rule.urlRegex);
    var regexMatch :=
      if regex == "" then None
      else Some(match lib.reSearch(regex, normalized) case Some(found) => found case None => false);
    DecideThree(hostMatch, containsMatch, regexMatch);
  }

  /** With three checks: none configured, or one of them passed. */
  lemma DecideThree(a: Option<bool>, b: Option<bool>, c: Option<bool>)
    ensures Decide([a, b, c]) <==> (a.None? && b.None? && c.None?) || a == Some(true) || b == Some(true) || c == Some(true)
  {
    var xs := [a, b, c];
    assert xs[0] == a && xs[1] == b && xs[2] == c;
  }

  /** `checks = [v for v in options if v is not None]; len(checks) == 0 or any(checks)`. */
  function Decide(options: seq<Option<bool>>): (r: bool)
    ensures r <==> (forall k :: 0 <= k < |options| ==> options[k].None?) || Some(true) in options
  {
    var checks := Present(options);
    PresentEmpty(options);
    |checks| == 0 || true in checks
  }

  /** Nothing is present exactly when every option is missing. */
  lemma PresentEmpty<T>(xs: seq<Option<T>>)
    ensures |Present(xs)| == 0 <==> forall k :: 0 <= k < |xs| ==> xs[k].None?
  {
    if |Present(xs)| > 0 {
      assert Some(Present(xs)[0]) in xs;
    }
    if exists k :: 0 <= k < |xs| && xs[k].Some? {
      var k :| 0 <= k < |xs| && xs[k].Some?;
      assert xs[k].value in Present(xs);
    }
  }

  /** A rule that matches through one of its criteria still matches with one more host pattern. */
  lemma MoreHostPatternsKeepMatch(lib: Lib, rule: Rule, url: string, pattern: string)
    requires HasCriteria(rule) && RuleMatchesUrl(lib, rule, url)
    ensures RuleMatchesUrl(lib, rule.(hostPatterns := rule.hostPatterns + [pattern]), url)
  {
    var more := rule.(hostPatterns := rule.hostPatterns + [pattern]);
    RuleMatchesUrlIff(lib, rule, url);
    RuleMatchesUrlIff(lib, more, url);
    assert more.urlContains == rule.urlContains && more.urlRegex == rule.urlRegex;
    if HostHit(lib, rule, url) {
      HostHitMore(lib, rule, url, pattern);
    } else if ContainsHit(lib, rule, url) {
      assert ContainsHit(lib, more, url);
    } else {
      assert RegexHit(lib, more, url);
    }
  }

  lemma HostHitMore(lib: Lib, rule: Rule, url: string, pattern: string)
    requires HostHit(lib, rule, url)
    ensures HostHit(lib, rule.(hostPatterns := rule.hostPatterns + [pattern]), url)
  {
    var host := Hostname(lib, MatchUrl(lib, url));
    var patterns := rule.hostPatterns + [pattern];
    var i :| 0 <= i < |rule.hostPatterns| && lib.fnmatch(host, rule.hostPatterns[i]);
    assert patterns[i] == rule.hostPatterns[i];
    assert lib.fnmatch(host, patterns[i]);
  }

  /** What `matched_site_details` records about a matched site. */
  datatype SiteDetail = SiteDetail(
    name: string,
    hostPatterns: seq<string>,
    urlContains: seq<string>,
    urlRegex: string,
    actionsCount: nat)

  /** `_resolve_active_interaction_rule`'s result. */
  datatype ActiveRule = ActiveRule(
    name: string,
    source: string,
    matchedSites: seq<string>,
    details: seq<SiteDetail>,
    actions: seq<Json>)

  /** The site rules matching the URL, in their order. */
  function MatchedSites(lib: Lib, sites: seq<Rule>, url: string): seq<Rule> {
    if sites == [] then []
    else
      var rest := MatchedSites(lib, sites[..|sites| - 1], url);
      var site := sites[|sites| - 1];
      if RuleMatchesUrl(lib, site, url) then rest + [site] else rest
  }

  /** A site is matched exactly when it is one of the sites and matches the URL. */
  lemma {:induction false} MatchedSitesMembers(lib: Lib, sites: seq<Rule>, url: string)
    ensures forall site :: site in MatchedSites(lib, sites, url) <==> site in sites && RuleMatchesUrl(lib, site, url)
  {
    if sites != [] {
      var init := sites[..|sites| - 1];
      var last := sites[|sites| - 1];
      MatchedSitesMembers(lib, init, url);
      assert sites == init + [last];
      forall site ensures site in MatchedSites(lib, sites, url) <==> site in sites && RuleMatchesUrl(lib, site, url) {
        assert site in sites <==> site in init || site == last;
      }
    }
  }

  function Names(rules: seq<Rule>): (r: seq<string>)
    ensures |r| == |rules| && forall k :: 0 <= k < |r| ==> r[k] == rules[k].name
  {
    if rules == [] then [] else Names(rules[..|rules| - 1]) + [rules[|rules| - 1].name]
  }

  function DetailOf(rule: Rule): SiteDetail {
    SiteDetail(rule.name, rule.hostPatterns, rule.urlContains, rule.urlRegex, |rule.actions|)
  }

  function Details(rules: seq<Rule>): (r: seq<SiteDetail>)
    ensures |r| == |rules| && forall k :: 0 <= k < |r| ==> r[k] == DetailOf(rules[k])
  {
    if rules == [] then [] else Details(rules[..|rules| - 1]) + [DetailOf(rules[|rules| - 1])]
  }

  /** The actions of the rules one after another. */
  function ActionsOf(rules: seq<Rule>): seq<Json> {
    if rules == [] then [] else ActionsOf(rules[..|rules| - 1]) + rules[|rules| - 1].actions
  }

  /** `str(global_rule.get("name", "global")).strip() or "global"`. */
  function GlobalName(global: Rule): (n: string)
    ensures n != "" && Stripped(n)
  {
    var name := Strip(global.name);
    if name != "" then name else "global"
  }

  /**
   * The active rule for a URL: the global actions first, then the actions of
   * every matching site in order; named after the matched sites, or after the
   * global rule when none matched.
   */
  function ActiveRuleOf(lib: Lib, rules: Rules, url: string): ActiveRule {
    var matched := MatchedSites(lib, rules.sites, url);
    ActiveRule(
      if matched == [] then GlobalName(rules.global) else Join(",", Names(matched)),
      rules.source,
      Names(matched),
      Details(matched),
      rules.global.actions + ActionsOf(matched))
  }

  /** Appending a rule appends its name, its details and its actions. */
  lemma AppendRule(rules: seq<Rule>, rule: Rule)
    ensures Names(rules + [rule]) == Names(rules) + [rule.name]
    ensures Details(rules + [rule]) == Details(rules) + [DetailOf(rule)]
    ensures ActionsOf(rules + [rule]) == ActionsOf(rules) + rule.actions
  {
    assert (rules + [rule])[..|rules|] == rules;
  }

  lemma MatchedStep(lib: Lib, sites: seq<Rule>, i: nat, url: string)
    requires i < |sites|
    ensures MatchedSites(lib, sites[..i + 1], url) ==
      MatchedSites(lib, sites[..i], url) + (if RuleMatchesUrl(lib, sites[i], url) then [sites[i]] else [])
  {
    assert sites[..i + 1][..i] == sites[..i];
  }

  /** The active rule as the loop has built it after the sites in `matched`, before it is renamed. */
  function Accumulated(rules: Rules, matched: seq<Rule>): ActiveRule {
    ActiveRule(GlobalName(rules.global), rules.source, Names(matched), Details(matched), rules.global.actions + ActionsOf(matched))
  }

  /** Recording one more matched site. */
  lemma AccumulatedStep(rules: Rules, matched: seq<Rule>, site: Rule)
    ensures Accumulated(rules, matched + [site]) == Accumulated(rules, matched).(
      matchedSites := Accumulated(rules, matched).matchedSites + [site.name],
      details := Accumulated(rules, matched).details + [DetailOf(site)],
      actions := Accumulated(rules, matched).actions + site.actions)
  {
    AppendRule(matched, site);
  }

  /** `_resolve_active_interaction_rule`. */
  method ResolveActiveInteractionRule(lib: Lib, rules: Rules, url: string) returns (active: ActiveRule)
    ensures active == ActiveRuleOf(lib, rules, url)
  {
    var sites := rules.sites;
    ghost var matched: seq<Rule> := [];
    active := ActiveRule(GlobalName(rules.global), rules.source, [], [], rules.global.actions);
    for i := 0 to |sites|
      invariant matched == MatchedSites(lib, sites[..i], url)
      invariant active == Accumulated(rules, matched)
    {
      MatchedStep(lib, sites, i, url);
      var site := sites[i];
      if !RuleMatchesUrl(lib, site, url) {
        continue;
      }
      AccumulatedStep(rules, matched, site);
      matched := matched + [site];
      active := active.(
        matchedSites := active.matchedSites + [site.name],
        details := active.details + [SiteDetail(site.name, site.hostPatterns, site.urlContains, site.urlRegex, |site.actions|)],
        actions := active.actions + site.actions);
    }
    assert sites[..|sites|] == sites;
    if active.matchedSites != [] {
      active := active.(name := Join(",", active.matchedSites));
    }
  }

  /** The total of the recorded action counts. */
  function CountSum(details: seq<SiteDetail>): nat {
    if details == [] then 0 else CountSum(details[..|details| - 1]) + details[|details| - 1].actionsCount
  }

  /** Each matched site's details record its action count, and the counts add up to the site actions. */
  lemma {:induction false} ActionsCounted(rules: seq<Rule>)
    ensures |ActionsOf(rules)| == CountSum(Details(rules))
  {
    if rules != [] {
      var p := rules[..|rules| - 1];
      ActionsCounted(p);
      assert Details(rules) == Details(p) + [DetailOf(rules[|rules| - 1])];
      assert Details(rules)[..|Details(rules)| - 1] == Details(p);
    }
  }

  /**
   * The active rule runs the global actions first and then exactly as many
   * actions as its site details count; one record per matched site.
   */
  lemma ActiveRuleCounts(lib: Lib, rules: Rules, url: string)
    ensures ActiveRuleOf(lib, rules, url).actions[..|rules.global.actions|] == rules.global.actions
    ensures |ActiveRuleOf(lib, rules, url).actions| == |rules.global.actions| + CountSum(ActiveRuleOf(lib, rules, url).details)
    ensures |ActiveRuleOf(lib, rules, url).details| == |ActiveRuleOf(lib, rules, url).matchedSites|
  {
    ActionsCounted(MatchedSites(lib, rules.sites, url));
  }

  /** With no site matching, the rule is the global one under its own name. */
  lemma NoSiteMatched(lib: Lib, rules: Rules, url: string)
    requires forall site :: site in rules.sites ==> !RuleMatchesUrl(lib, site, url)
    ensures ActiveRuleOf(lib, rules, url).actions == rules.global.actions
    ensures ActiveRuleOf(lib, rules, url).name == GlobalName(rules.global)
    ensures ActiveRuleOf(lib, rules, url).matchedSites == []
  {
    NoneMatched(lib, rules.sites, url);
  }

  lemma {:induction false} NoneMatched(lib: Lib, sites: seq<Rule>, url: string)
    requires forall site :: site in sites ==> !RuleMatchesUrl(lib, site, url)
    ensures MatchedSites(lib, sites, url) == []
  {
    if sites != [] {
      var p := sites[..|sites| - 1];
      assert forall site :: site in p ==> site in sites;
      NoneMatched(lib, p, url);
      assert sites[|sites| - 1] in sites;
    }
  }

  /** Every action of a list of rules comes from one of the rules. */
  lemma {:induction false} ActionsOfFrom(rules: seq<Rule>)
    ensures forall a :: a in ActionsOf(rules) ==> exists rule :: rule in rules && a in rule.actions
  {
    if rules != [] {
      var p := rules[..|rules| - 1];
      ActionsOfFrom(p);
      assert forall rule :: rule in p ==> rule in rules;
    }
  }

  /** The rule and the position within it that an action after the global ones comes from. */
  lemma ActionSource(global: seq<Json>, matched: seq<Rule>, i: nat)
    requires |global| <= i < |global| + |ActionsOf(matched)|
    ensures exists rule, j :: rule in matched && 0 <= j < |rule.actions| && (global + ActionsOf(matched))[i] == rule.actions[j]
  {
    var a := ActionsOf(matched)[i - |global|];
    assert a in ActionsOf(matched);
    ActionsOfFrom(matched);
    var rule :| rule in matched && a in rule.actions;
    var j :| 0 <= j < |rule.actions| && rule.actions[j] == a;
  }

  /**
   * Whatever the document and the page, the active rule never runs a chain
   * action: every action it runs is a dict whose type is not `chain`.
   */
  lemma ActiveActionsSpliced(lib: Lib, payload: Json, source: string, url: string)
    ensures Spliced(ActiveRuleOf(lib, LoadRules(payload, source), url).actions)
  {
    var rules := LoadRules(payload, source);
    var matched := MatchedSites(lib, rules.sites, url);
    MatchedSitesMembers(lib, rules.sites, url);
    var all := rules.global.actions + ActionsOf(matched);
    forall i | 0 <= i < |all| ensures all[i].JObj? && TypeOf(all[i]) != "chain" {
      if i >= |rules.global.actions| {
        ActionSource(rules.global.actions, matched, i);
        var rule, j :| rule in matched && 0 <= j < |rule.actions| && all[i] == rule.actions[j];
      }
    }
  }

  /** Once the document passes the rule check, every action the active rule runs has a whitelisted type. */
  lemma ValidatedActiveWhitelisted(lib: Lib, payload: Json, source: string, url: string)
    requires ValidatePayload(payload).Pass?
    ensures TypesWithin(ActiveRuleOf(lib, LoadRules(payload, source), url).actions, ActionTypes)
  {
    ValidatedRulesWhitelisted(payload, source);
    ActiveWithin(lib, LoadRules(payload, source), url, ActionTypes);
  }

  /** When the global rule and every site rule keep to some types, so does the active rule. */
  lemma ActiveWithin(lib: Lib, rules: Rules, url: string, types: set<string>)
    requires TypesWithin(rules.global.actions, types)
    requires forall site :: site in rules.sites ==> TypesWithin(site.actions, types)
    ensures TypesWithin(ActiveRuleOf(lib, rules, url).actions, types)
  {
    var matched := MatchedSites(lib, rules.sites, url);
    MatchedSitesMembers(lib, rules.sites, url);
    var all := rules.global.actions + ActionsOf(matched);
    forall i | 0 <= i < |all| && all[i].JObj? ensures TypeOf(all[i]) in types {
      if i >= |rules.global.actions| {
        ActionSource(rules.global.actions, matched, i);
        var rule, j :| rule in matched && 0 <= j < |rule.actions| && all[i] == rule.actions[j];
      }
    }
  }
}
