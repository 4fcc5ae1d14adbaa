/**
 * The whitelist validator of the monitor's rule document
 * (`_validate_action_item`, `_validate_action_args`, `_validate_action_list`,
 * `_validate_chain_map`, `_validate_monitor_rules_payload`): each check either
 * passes or raises with a message naming the offending path; the first
 * failing check decides.
 */
module RuleCheck {
  import opened Wrappers
  import opened Text
  import opened JsonValue
  import opened WhenGate
  import opened RuleActions

  /** The verdict of a validator: it returns, or raises `ValueError(message)`. */
  datatype Outcome = Pass | Fail(message: string)

  /** Runs `second` only when `first` passes: the first failure wins. */
  function Both(first: Outcome, second: Outcome): (r: Outcome)
    ensures r.Pass? <==> first.Pass? && second.Pass?
  {
    if first.Fail? then first else second
  }

  /** `_action_type_whitelist`. */
  const ActionTypes: set<string> := {"chain", "wait", "wait_for_selector", "wait_group", "play_media", "click",
    "hover", "fill", "wait_for_load_state", "goto", "evaluate", "scroll", "mouse_click", "press", "log"}

  /** `_wait_group_child_type_whitelist`. */
  const WaitGroupChildTypes: set<string> := {"wait", "wait_for_selector", "wait_group"}

  /** The types an action may have where it stands. */
  function AllowedTypes(inWaitGroup: bool): set<string> {
    if inWaitGroup then WaitGroupChildTypes else ActionTypes
  }

  /** `_action_arg_whitelist().get(action_type, set())`. */
  function AllowedArgs(t: string): set<string> {
    if t == "chain" then {"name"}
    else if t == "wait" then {"ms"}
    else if t == "wait_for_selector" then {"selector", "selectors", "state", "match", "target", "timeout_ms", "poll_ms"}
    else if t == "wait_group" then {"mode", "timeout_ms", "poll_ms", "group_actions"}
    else if t == "play_media" then {"target"}
    else if t == "click" then {"selector", "selectors", "target", "repeat", "wait_ms", "max_per_selector",
      "visible_timeout_ms", "click_timeout_ms", "wait_after_click_ms"}
    else if t == "hover" then {"selector", "selectors", "target", "repeat", "max_per_selector",
      "visible_timeout_ms", "hover_timeout_ms", "wait_ms"}
    else if t == "fill" then {"selector", "selectors", "target", "value", "index", "fill_timeout_ms",
      "visible_timeout_ms", "require_visible", "submit_key"}
    else if t == "wait_for_load_state" then {"state", "timeout_ms"}
    else if t == "goto" then {"url", "wait_until", "timeout_ms"}
    else if t == "evaluate" then {"script", "selector", "target", "arg"}
    else if t == "scroll" then {"deltas", "y", "x", "wait_after_scroll_ms"}
    else if t == "mouse_click" then {"position", "x", "y", "button", "click_count", "delay_ms"}
    else if t == "press" then {"key"}
    else if t == "log" then {"message"}
    else {}
  }

  /** No action type takes a `when` among its args. */
  lemma WhenNeverAnArg(t: string)
    ensures "when" !in AllowedArgs(t)
  {
  }

  /** The keys an action may carry. */
  const ActionKeys: set<string> := {"type", "when", "args"}

  const SelectorTypes: set<string> := {"click", "hover", "fill", "wait_for_selector"}
  const TargetModes: set<string> := {"page", "frame", "frames", "all", "page_and_frames"}
  const SelectorStates: set<string> := {"attached", "detached", "visible", "hidden"}
  const MatchModes: set<string> := {"any", "all"}
  const LoadStates: set<string> := {"domcontentloaded", "load", "networkidle", "commit"}
  const MouseButtons: set<string> := {"left", "right", "middle"}
  const CoordinateWords: set<string> := {"center", "middle"}

  /** `_is_number`: an int or float that is not a bool (only ints are modelled). */
  predicate IsNumber(v: Json) {
    v.JInt?
  }

  /** `_is_non_empty_text`. */
  predicate IsNonEmptyText(v: Json) {
    v.JStr? && Strip(v.s) != ""
  }

  predicate IsText(v: Json) { v.JStr? }
  predicate IsFlag(v: Json) { v.JBool? }
  predicate IsList(v: Json) { v.JArr? }
  predicate IsDict(v: Json) { v.JObj? }

  /** `isinstance(v, (str, int, float))`, which a bool also passes. */
  predicate IsScalar(v: Json) {
    v.JStr? || v.JInt? || v.JBool?
  }

  /** The keys among `keys` that `args` holds all carry numbers, checked in order. */
  function NumbersAt(args: Json, keys: seq<string>, path: string): (r: Outcome)
    ensures r.Pass? <==> forall i :: 0 <= i < |keys| && HasKey(args, keys[i]) ==> IsNumber(Get(args, keys[i]).value)
  {
    if keys == [] then Pass
    else if HasKey(args, keys[0]) && !IsNumber(Get(args, keys[0]).value) then
      Fail(path + ".args." + keys[0] + " must be number")
    else
      var r := NumbersAt(args, keys[1..], path);
      assert forall i :: 1 <= i < |keys| ==> keys[i] == keys[1..][i - 1];
      r
  }

  /** A present `key` must hold a value of the kind `ok` accepts. */
  function Shaped(args: Json, key: string, ok: Json -> bool, kind: string, path: string): (r: Outcome)
    ensures r.Pass? <==> (HasKey(args, key) ==> ok(Get(args, key).value))
  {
    if HasKey(args, key) && !ok(Get(args, key).value) then Fail(path + ".args." + key + " must be " + kind) else Pass
  }

  /** A present `key`, trimmed and lower-cased, must be one of `choices`. */
  function Choice(args: Json, key: string, choices: set<string>, path: string): (r: Outcome)
    ensures r.Pass? <==> (HasKey(args, key) ==> FieldWord(args, key) in choices)
  {
    if HasKey(args, key) && FieldWord(args, key) !in choices then
      Fail(path + ".args." + key + " invalid: " + Str(Get(args, key).value))
    else Pass
  }

  /** `key` must hold non-blank text. */
  function Required(args: Json, key: string, path: string): (r: Outcome)
    ensures r.Pass? <==> IsNonEmptyText(GetOr(args, key, JStr("")))
  {
    if !IsNonEmptyText(GetOr(args, key, JStr(""))) then Fail(path + ".args." + key + " is required") else Pass
  }

  /** A coordinate of `mouse_click`: a number, or the word `center` or `middle`. */
  predicate IsCoordinate(v: Json) {
    (v.JStr? && Lower(Strip(v.s)) in CoordinateWords) || IsNumber(v)
  }

  /** The keys among `keys` that `record` holds are all coordinates, checked in order. */
  function CoordinatesAt(record: Json, keys: seq<string>, prefix: string): (r: Outcome)
    ensures r.Pass? <==> forall i :: 0 <= i < |keys| && HasKey(record, keys[i]) ==> IsCoordinate(Get(record, keys[i]).value)
  {
    if keys == [] then Pass
    else if HasKey(record, keys[0]) && !IsCoordinate(Get(record, keys[0]).value) then
      Fail(prefix + keys[0] + " must be number")
    else
      var r := CoordinatesAt(record, keys[1..], prefix);
      assert forall i :: 1 <= i < |keys| ==> keys[i] == keys[1..][i - 1];
      r
  }

  /** A selector is given: non-blank `selector` text, or `selectors` as non-blank text or a list holding some. */
  predicate HasSelector(args: Json) {
    var selectors := GetOr(args, "selectors", JNull);
    IsNonEmptyText(GetOr(args, "selector", JNull))
    || (selectors.JArr? && exists i :: 0 <= i < |selectors.items| && IsNonEmptyText(selectors.items[i]))
    || (!selectors.JArr? && IsNonEmptyText(selectors))
  }

  /**
   * `_validate_action_item`: a dict with known keys and a whitelisted type,
   * dict args that pass `_validate_action_args`, and a `when` of text or
   * numbers that does not parse to `never`.
   */
  function ValidateActionItem(action: Json, path: string, inWaitGroup: bool): (r: Outcome)
    ensures r.Pass? ==> Accepted(action, AllowedTypes(inWaitGroup)) && KeySet(action) <= ActionKeys
    decreases action, 3, 0
  {
    if !action.JObj? then Fail(path + " action must be object")
    else if !(KeySet(action) <= ActionKeys) then Fail(path + " action has unsupported fields")
    else
      var t := TypeOf(action);
      if t == "" then Fail(path + " action.type is required")
      else if t !in AllowedTypes(inWaitGroup) then Fail(path + " action.type unsupported: " + t)
      else if HasKey(action, "args") && !Get(action, "args").value.JObj? then Fail(path + " action.args must be object")
      else
        var given := GetOr(action, "args", JObj([]));
        var args := if given.JObj? then given else JObj([]);
        WhenNeverAnArg(t);
        BlankWhenAlways();
        Both(ValidateActionArgs(t, args, path, action), ValidateWhen(action, path))
  }

  /** The `when` part of `_validate_action_item`. */
  function ValidateWhen(action: Json, path: string): (r: Outcome)
    ensures r.Pass? && HasKey(action, "when") ==> WhenTokensOf(Get(action, "when").value) != Never
  {
    if !HasKey(action, "when") then Pass
    else
      var w := Get(action, "when").value;
      var shape :=
        if w.JArr? then ScalarItems(w.items, 0, path)
        else if !IsScalar(w) then Fail(path + " action.when must be string/number")
        else Pass;
      Both(shape, if WhenTokensOf(w) == Never then Fail(path + " action.when invalid: " + Str(w)) else Pass)
  }

  /** The items of a `when` list from index `i` on are all text or numbers. */
  function ScalarItems(items: seq<Json>, i: nat, path: string): (r: Outcome)
    requires i <= |items|
    ensures r.Pass? <==> forall k :: i <= k < |items| ==> IsScalar(items[k])
    decreases |items| - i
  {
    if i == |items| then Pass
    else if !IsScalar(items[i]) then Fail(path + " action.when[" + IntToString(i) + "] must be string/number")
    else ScalarItems(items, i + 1, path)
  }

  /**
   * `_validate_action_args`: no argument outside the type's whitelist, a name
   * for a chain, a selector where one is needed, a known target, then the
   * checks of the type itself. `owner` is the action the args belong to.
   */
  function ValidateActionArgs(t: string, args: Json, path: string, owner: Json): (r: Outcome)
    requires args == JObj([]) || args < owner
    ensures r.Pass? ==> KeySet(args) <= AllowedArgs(t)
    decreases owner, 2, 0
  {
    if !(KeySet(args) <= AllowedArgs(t)) then Fail(path + ".args has unsupported fields")
    else if t == "chain" then Required(args, "name", path)
    else if t in SelectorTypes && !HasSelector(args) then Fail(path + ".args requires selector or selectors")
    else if HasKey(args, "target") && FieldWord(args, "target") !in TargetModes then
      Fail(path + ".args.target invalid: " + Str(Get(args, "target").value))
    else TypeArgs(t, args, path, owner)
  }

  /** The checks of each action type on its args, in the source's order. */
  function TypeArgs(t: string, args: Json, path: string, owner: Json): Outcome
    requires args == JObj([]) || args < owner
    decreases owner, 1, 0
  {
    if t == "wait" then NumbersAt(args, ["ms"], path)
    else if t == "wait_for_selector" then
      Both(Choice(args, "state", SelectorStates, path),
      Both(Choice(args, "match", MatchModes, path), NumbersAt(args, ["timeout_ms", "poll_ms"], path)))
    else if t == "wait_group" then WaitGroupArgs(args, path, owner)
    else if t == "click" then
      NumbersAt(args, ["repeat", "wait_ms", "max_per_selector", "visible_timeout_ms", "click_timeout_ms",
        "wait_after_click_ms"], path)
    else if t == "hover" then
      NumbersAt(args, ["repeat", "max_per_selector", "visible_timeout_ms", "hover_timeout_ms", "wait_ms"], path)
    else if t == "fill" then
      Both(Shaped(args, "value", IsText, "string", path),
      Both(Shaped(args, "require_visible", IsFlag, "bool", path),
      Both(NumbersAt(args, ["index", "fill_timeout_ms", "visible_timeout_ms"], path),
      Shaped(args, "submit_key", IsText, "string", path))))
    else if t == "wait_for_load_state" then
      Both(Choice(args, "state", LoadStates, path), NumbersAt(args, ["timeout_ms"], path))
    else if t == "goto" then
      Both(Required(args, "url", path),
      Both(Choice(args, "wait_until", LoadStates, path), NumbersAt(args, ["timeout_ms"], path)))
    else if t == "evaluate" then
      Both(Required(args, "script", path), Shaped(args, "selector", IsText, "string", path))
    else if t == "scroll" then
      Both(Shaped(args, "deltas", IsList, "array", path), NumbersAt(args, ["y", "x", "wait_after_scroll_ms"], path))
    else if t == "mouse_click" then MouseClickArgs(args, path)
    else if t == "press" then Required(args, "key", path)
    else if t == "log" then Shaped(args, "message", IsText, "string", path)
    else Pass
  }

  /** The `mouse_click` checks: a dict position, a known button, and coordinates. */
  function MouseClickArgs(args: Json, path: string): Outcome {
    Both(Shaped(args, "position", IsDict, "object", path),
    Both(Choice(args, "button", MouseButtons, path),
    Both(CoordinatesAt(args, ["x", "y", "click_count", "delay_ms"], path + ".args."),
    if HasKey(args, "position") then CoordinatesAt(Get(args, "position").value, ["x", "y"], path + ".args.position.")
    else Pass)))
  }

  /** The `wait_group` checks: mode, numeric timings, and a non-empty list of valid child actions. */
  function WaitGroupArgs(args: Json, path: string, owner: Json): Outcome
    requires args == JObj([]) || args < owner
    decreases owner, 0, 0
  {
    var group := GetOr(args, "group_actions", JNull);
    Both(Choice(args, "mode", MatchModes, path),
    Both(NumbersAt(args, ["timeout_ms", "poll_ms"], path),
    if !group.JArr? || group.items == [] then Fail(path + ".args.group_actions must be non-empty array")
    else ValidateItems(group.items, 0, path + ".args.group_actions", true, group)))
  }

  /** The items from index `i` on, each validated at `path[index]`. */
  function ValidateItems(items: seq<Json>, i: nat, path: string, inWaitGroup: bool, parent: Json): (r: Outcome)
    requires i <= |items|
    requires forall k :: 0 <= k < |items| ==> items[k] < parent
    ensures r.Pass? ==> forall k :: i <= k < |items| ==> Accepted(items[k], AllowedTypes(inWaitGroup))
    decreases parent, 0, |items| - i
  {
    if i == |items| then Pass
    else Both(ValidateActionItem(items[i], path + "[" + IntToString(i) + "]", inWaitGroup),
      ValidateItems(items, i + 1, path, inWaitGroup, parent))
  }

  /** `_validate_action_list`. */
  function ValidateActionList(actions: Json, path: string, inWaitGroup: bool): (r: Outcome)
    ensures r.Pass? ==> AcceptedList(actions, AllowedTypes(inWaitGroup))
  {
    if !actions.JArr? then Fail(path + " must be array")
    else ValidateItems(actions.items, 0, path, inWaitGroup, actions)
  }

  /** `_validate_chain_map`: a dict whose trimmed names are not blank and whose values are valid action lists. */
  function ValidateChainMap(chains: Json, path: string): (r: Outcome)
    ensures r.Pass? ==> AcceptedChains(chains)
  {
    if !chains.JObj? then Fail(path + " must be object")
    else ValidateChains(chains.fields, 0, path)
  }

  function ValidateChains(bindings: seq<(string, Json)>, i: nat, path: string): (r: Outcome)
    requires i <= |bindings|
    ensures r.Pass? ==> forall k :: i <= k < |bindings| ==> AcceptedBinding(bindings[k])
    decreases |bindings| - i
  {
    if i == |bindings| then Pass
    else
      var name := Strip(bindings[i].0);
      if name == "" then Fail(path + " chain name cannot be empty")
      else Both(ValidateActionList(bindings[i].1, path + "." + name, false), ValidateChains(bindings, i + 1, path))
  }

  /** The root keys of the rule document, all required. */
  const RootKeys: set<string> := {"chains", "global", "sites"}
  const GlobalKeys: set<string> := {"actions", "chains"}
  const SiteKeys: set<string> := {"name", "enabled", "match", "actions", "chains"}
  const MatchKeys: set<string> := {"host", "url_contains", "url_regex"}

  /** `_validate_monitor_rules_payload`. */
  function ValidatePayload(payload: Json): (r: Outcome)
    ensures r.Pass? ==> AcceptedPayload(payload)
  {
    if !payload.JObj? then Fail("monitor rules root must be object")
    else if KeySet(payload) != RootKeys then Fail("monitor rules schema mismatch")
    else
      Both(ValidateChainMap(Get(payload, "chains").value, "chains"),
      Both(ValidateGlobal(Get(payload, "global").value),
      ValidateSites(Get(payload, "sites").value)))
  }

  /** The `global` part of the payload check. */
  function ValidateGlobal(global: Json): (r: Outcome)
    ensures r.Pass? ==> AcceptedGlobal(global)
  {
    if !global.JObj? then Fail("global must be object")
    else if !(KeySet(global) <= GlobalKeys) then Fail("global has unsupported fields")
    else
      Both(ValidateActionList(GetOr(global, "actions", JArr([])), "global.actions", false),
      ValidateChainMap(GetOr(global, "chains", JObj([])), "global.chains"))
  }

  /** The `sites` part of the payload check. */
  function ValidateSites(sites: Json): (r: Outcome)
    ensures r.Pass? ==> sites.JArr? && forall k :: 0 <= k < |sites.items| ==> AcceptedSite(sites.items[k])
  {
    if !sites.JArr? then Fail("sites must be array")
    else ValidateSiteList(sites.items, 0)
  }

  function ValidateSiteList(sites: seq<Json>, i: nat): (r: Outcome)
    requires i <= |sites|
    ensures r.Pass? ==> forall k :: i <= k < |sites| ==> AcceptedSite(sites[k])
    decreases |sites| - i
  {
    if i == |sites| then Pass
    else Both(ValidateSite(sites[i], "sites[" + IntToString(i) + "]"), ValidateSiteList(sites, i + 1))
  }

  /** One site entry: known keys, typed `name` and `enabled`, a valid `match`, actions and chains. */
  function ValidateSite(site: Json, path: string): (r: Outcome)
    ensures r.Pass? ==> AcceptedSite(site)
  {
    if !site.JObj? then Fail(path + " must be object")
    else if !(KeySet(site) <= SiteKeys) then Fail(path + " has unsupported fields")
    else if HasKey(site, "name") && !Get(site, "name").value.JStr? then Fail(path + ".name must be string")
    else if HasKey(site, "enabled") && !Get(site, "enabled").value.JBool? then Fail(path + ".enabled must be bool")
    else
      Both(ValidateMatch(GetOr(site, "match", JObj([])), path),
      Both(ValidateActionList(GetOr(site, "actions", JArr([])), path + ".actions", false),
      ValidateChainMap(GetOr(site, "chains", JObj([])), path + ".chains")))
  }

  /** The `match` of a site: known keys, host and substrings as text or lists, the regex as text. */
  function ValidateMatch(criteria: Json, path: string): (r: Outcome)
    ensures r.Pass? <==> AcceptedMatch(criteria)
  {
    var host := GetOr(criteria, "host", JArr([]));
    var contains := GetOr(criteria, "url_contains", JArr([]));
    if !criteria.JObj? then Fail(path + ".match must be object")
    else if !(KeySet(criteria) <= MatchKeys) then Fail(path + ".match has unsupported fields")
    else if !(host.JStr? || host.JArr?) then Fail(path + ".match.host must be string/array")
    else if !(contains.JStr? || contains.JArr?) then Fail(path + ".match.url_contains must be string/array")
    else if HasKey(criteria, "url_regex") && !Get(criteria, "url_regex").value.JStr? then Fail(path + ".match.url_regex must be string")
    else Pass
  }

  /** Args that pass hold only whitelisted keys, a chain's name, a selector where needed, and a known target. */
  lemma ArgsPassForm(t: string, args: Json, path: string, owner: Json)
    requires args == JObj([]) || args < owner
    requires ValidateActionArgs(t, args, path, owner).Pass?
    ensures KeySet(args) <= AllowedArgs(t)
    ensures t == "chain" ==> IsNonEmptyText(GetOr(args, "name", JStr("")))
    ensures t in SelectorTypes ==> HasSelector(args)
    ensures HasKey(args, "target") ==> FieldWord(args, "target") in TargetModes
  {
  }

  /** A blank `when` lets the action run on every attempt. */
  lemma BlankWhenAlways()
    ensures WhenTokensOf(JStr("")) == Always
  {
    var blank := JStr("");
    assert Str(blank) == "" && Cleaned(blank) == "";
    AlwaysIffSilent(blank);
  }

  /** What a passing action is known to be: a dict of a whitelisted type whose `when` is not `never`. */
  predicate Accepted(action: Json, types: set<string>) {
    action.JObj? && TypeOf(action) != "" && TypeOf(action) in types && WhenTokensOf(RawWhen(action)) != Never
  }

  /** A list of accepted actions. */
  predicate AcceptedList(actions: Json, types: set<string>) {
    actions.JArr? && forall k :: 0 <= k < |actions.items| ==> Accepted(actions.items[k], types)
  }

  /** A chain binding whose trimmed name is not blank and whose value is a list of accepted actions. */
  predicate AcceptedBinding(binding: (string, Json)) {
    Strip(binding.0) != "" && AcceptedList(binding.1, ActionTypes)
  }

  predicate AcceptedChains(chains: Json) {
    chains.JObj? && forall k :: 0 <= k < |chains.fields| ==> AcceptedBinding(chains.fields[k])
  }

  predicate AcceptedGlobal(global: Json) {
    global.JObj? && KeySet(global) <= GlobalKeys
    && AcceptedList(GetOr(global, "actions", JArr([])), ActionTypes)
    && AcceptedChains(GetOr(global, "chains", JObj([])))
  }

  predicate AcceptedMatch(criteria: Json) {
    var host := GetOr(criteria, "host", JArr([]));
    var contains := GetOr(criteria, "url_contains", JArr([]));
    criteria.JObj? && KeySet(criteria) <= MatchKeys
    && (host.JStr? || host.JArr?) && (contains.JStr? || contains.JArr?)
    && (HasKey(criteria, "url_regex") ==> Get(criteria, "url_regex").value.JStr?)
  }

  predicate AcceptedSite(site: Json) {
    site.JObj? && KeySet(site) <= SiteKeys
    && (HasKey(site, "name") ==> Get(site, "name").value.JStr?)
    && (HasKey(site, "enabled") ==> Get(site, "enabled").value.JBool?)
    && AcceptedMatch(GetOr(site, "match", JObj([])))
    && AcceptedList(GetOr(site, "actions", JArr([])), ActionTypes)
    && AcceptedChains(GetOr(site, "chains", JObj([])))
  }

  /** A payload that passes: exactly the three root keys, each part accepted. */
  predicate AcceptedPayload(payload: Json) {
    payload.JObj? && KeySet(payload) == RootKeys
    && AcceptedChains(Get(payload, "chains").value)
    && AcceptedGlobal(Get(payload, "global").value)
    && Get(payload, "sites").value.JArr?
    && forall k :: 0 <= k < |Get(payload, "sites").value.items| ==> AcceptedSite(Get(payload, "sites").value.items[k])
  }

  /**
   * Normalising an accepted list keeps every item, and every normalised type
   * is still one of the accepted types.
   */
  lemma AcceptedListNormalizes(actions: Json, types: set<string>)
    requires AcceptedList(actions, types)
    ensures |ActionListOf(actions)| == |actions.items|
    ensures TypesWithin(ActionListOf(actions), types)
  {
    var items := actions.items;
    assert forall k :: 0 <= k < |items| ==> Accepted(items[k], types);
    NormalizedActionsKeepAll(items);
    NormalizedActionsWithin(items, types);
  }

  /**
   * Normalising an accepted chain map drops no binding (no name is blank),
   * and every chain it builds holds whitelisted types only.
   */
  lemma AcceptedChainsNormalize(chains: Json)
    requires AcceptedChains(chains)
    ensures forall k :: 0 <= k < |chains.fields| ==> Strip(chains.fields[k].0) in ChainsOf(chains)
    ensures ChainTypesWithin(ChainsOf(chains), ActionTypes)
  {
    var bindings := chains.fields;
    forall k | 0 <= k < |bindings|
      ensures bindings[k].1.JArr? && TypesWithin(bindings[k].1.items, ActionTypes)
    {
      assert AcceptedBinding(bindings[k]);
    }
    ChainMapOfNames(bindings);
    ChainMapOfWithin(bindings, ActionTypes);
  }
}
