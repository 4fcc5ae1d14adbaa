/**
 * Interaction actions as the monitor reads them from its rule document:
 * the normal form `_normalize_action_list` gives each action, the chain map
 * of `_normalize_chain_map`, and the splicing of named chains into an
 * action list that `_expand_action_chains` performs.
 */
module RuleActions {
  import opened Wrappers
  import opened Text
  import opened JsonValue

  lemma SplitLast<T>(s: seq<T>)
    requires s != []
    ensures s[..|s| - 1] + [s[|s| - 1]] == s
  {
  }

  /** `str(action.get(key, "")).strip().lower()`. */
  function FieldWord(action: Json, key: string): string {
    Lower(Strip(Str(GetOr(action, key, JStr("")))))
  }

  /** The action type the monitor dispatches on. */
  function TypeOf(action: Json): string {
    FieldWord(action, "type")
  }

  /** A field stored in the action is read by `FieldWord` as its text, trimmed and lower-cased. */
  lemma TypeOfStored(action: Json, t: string)
    requires Get(action, "type") == Some(JStr(t))
    ensures TypeOf(action) == Lower(Strip(t))
  {
  }

  /** An action in the form `_normalize_action_list` leaves it. */
  predicate IsNormalAction(a: Json) {
    a.JObj? && TypeOf(a) != "" && Get(a, "type") == Some(JStr(TypeOf(a)))
    && (match Get(a, "args") case Some(v) => v.JObj? case None => false)
    && !HasKey(a, "name")
  }

  /** Every action is a dict whose type is not `chain`. */
  predicate Spliced(actions: seq<Json>) {
    forall i :: 0 <= i < |actions| ==> actions[i].JObj? && TypeOf(actions[i]) != "chain"
  }

  /** Every dict among the actions has a type from `types`. */
  predicate TypesWithin(actions: seq<Json>, types: set<string>) {
    forall i :: 0 <= i < |actions| && actions[i].JObj? ==> TypeOf(actions[i]) in types
  }

  predicate ChainTypesWithin(chains: ChainMap, types: set<string>) {
    forall name :: name in chains ==> TypesWithin(chains[name], types)
  }

  /**
   * One item of `_normalize_action_list`: a dict with a non-blank type gets
   * its type trimmed and lower-cased, its `args` replaced by `{}` when they are
   * not a dict, and its `name` removed; anything else is dropped.
   */
  function NormalizedAction(item: Json): Option<Json> {
    if !item.JObj? then None
    else
      var t := TypeOf(item);
      if t == "" then None
      else
        var args := GetOr(item, "args", JNull);
        var argsDict := if args.JObj? then args else JObj([]);
        Some(JObj(RemoveField(PutField(PutField(item.fields, "type", JStr(t)), "args", argsDict), "name")))
  }

  /** An item is kept exactly when it is a dict with a type, and it keeps that type in normal form. */
  lemma NormalizedActionForm(item: Json)
    ensures NormalizedAction(item).Some? <==> item.JObj? && TypeOf(item) != ""
    ensures NormalizedAction(item).Some? ==>
      IsNormalAction(NormalizedAction(item).value) && TypeOf(NormalizedAction(item).value) == TypeOf(item)
  {
    if item.JObj? && TypeOf(item) != "" {
      var t := TypeOf(item);
      var args := GetOr(item, "args", JNull);
      var argsDict := if args.JObj? then args else JObj([]);
      var typed := PutField(item.fields, "type", JStr(t));
      var withArgs := PutField(typed, "args", argsDict);
      var r := JObj(RemoveField(withArgs, "name"));
      assert NormalizedAction(item) == Some(r);
      assert Lookup(r.fields, "type") == Lookup(withArgs, "type") == Lookup(typed, "type") == Some(JStr(t));
      assert Lookup(r.fields, "args") == Some(argsDict);
      assert Lookup(r.fields, "name").None?;
      LowerStripFixed(Str(GetOr(item, "type", JStr(""))));
      TypeOfStored(r, t);
      assert TypeOf(r) == t;
    }
  }

  /** Normalising an action that is already in normal form gives it back. */
  lemma NormalizedActionFixed(a: Json)
    requires IsNormalAction(a)
    ensures NormalizedAction(a) == Some(a)
  {
    var t := TypeOf(a);
    PutFieldSame(a.fields, "type", JStr(t));
    var args := Get(a, "args").value;
    PutFieldSame(a.fields, "args", args);
    RemoveFieldAbsent(a.fields, "name");
  }

  /** The list `_normalize_action_list` builds from the items of a list. */
  function NormalizedActions(items: seq<Json>): (r: seq<Json>)
    ensures |r| <= |items|
  {
    if items == [] then []
    else
      var rest := NormalizedActions(items[..|items| - 1]);
      match NormalizedAction(items[|items| - 1])
      case None => rest
      case Some(a) => rest + [a]
  }

  /** Every action of a normalised list is in normal form. */
  lemma {:induction false} NormalizedActionsNormal(items: seq<Json>)
    ensures forall i :: 0 <= i < |NormalizedActions(items)| ==> IsNormalAction(NormalizedActions(items)[i])
  {
    if items != [] {
      var rest := NormalizedActions(items[..|items| - 1]);
      var last := NormalizedAction(items[|items| - 1]);
      NormalizedActionsNormal(items[..|items| - 1]);
      NormalizedActionForm(items[|items| - 1]);
      if last.Some? {
        assert NormalizedActions(items) == rest + [last.value];
        NormalAppend(rest, last.value);
      } else {
        assert NormalizedActions(items) == rest;
      }
    }
  }

  lemma NormalAppend(rest: seq<Json>, a: Json)
    requires forall i :: 0 <= i < |rest| ==> IsNormalAction(rest[i])
    requires IsNormalAction(a)
    ensures forall i :: 0 <= i < |rest + [a]| ==> IsNormalAction((rest + [a])[i])
  {
    var r := rest + [a];
    forall i | 0 <= i < |r| ensures IsNormalAction(r[i]) {
      if i < |rest| {
        assert r[i] == rest[i];
      } else {
        assert r[i] == a;
      }
    }
  }

  /** The list a JSON value normalises to: nothing unless it is a list. */
  function ActionListOf(actions: Json): seq<Json> {
    if actions.JArr? then NormalizedActions(actions.items) else []
  }

  /** `_normalize_action_list`. */
  method NormalizeActionList(actions: Json) returns (normalized: seq<Json>)
    ensures normalized == ActionListOf(actions)
  {
    normalized := [];
    if !actions.JArr? {
      return;
    }
    var items := actions.items;
    for i := 0 to |items|
      invariant normalized == NormalizedActions(items[..i])
    {
      assert items[..i + 1][..i] == items[..i];
      var action := NormalizeItem(items[i]);
      if action.Some? {
        normalized := normalized + [action.value];
      }
    }
    assert items[..|items|] == items;
  }

  /** The body of `_normalize_action_list`'s loop: one item, dropped or in normal form. */
  method NormalizeItem(item: Json) returns (action: Option<Json>)
    ensures action == NormalizedAction(item)
  {
    if !item.JObj? {
      return None;
    }
    var actionType := TypeOf(item);
    if actionType == "" {
      return None;
    }
    var args := GetOr(item, "args", JNull);
    if !args.JObj? {
      args := JObj([]);
    }
    var fields := PutField(item.fields, "type", JStr(actionType));
    fields := PutField(fields, "args", args);
    fields := RemoveField(fields, "name");
    return Some(JObj(fields));
  }

  /**
   * Normalisation is idempotent: an action list read back from a normalised
   * rule document normalises to itself.
   */
  lemma {:induction false} NormalizedActionsIdempotent(items: seq<Json>)
    ensures NormalizedActions(NormalizedActions(items)) == NormalizedActions(items)
  {
    NormalizedActionsNormal(items);
    NormalFixed(NormalizedActions(items));
  }

  lemma {:induction false} NormalFixed(xs: seq<Json>)
    requires forall i :: 0 <= i < |xs| ==> IsNormalAction(xs[i])
    ensures NormalizedActions(xs) == xs
  {
    if xs != [] {
      var p := xs[..|xs| - 1];
      assert forall i :: 0 <= i < |p| ==> p[i] == xs[i];
      NormalFixed(p);
      NormalizedActionFixed(xs[|xs| - 1]);
      SplitLast(xs);
    }
  }

  /** Normalisation introduces no action type that the input's dicts do not have. */
  lemma {:induction false} NormalizedActionsWithin(items: seq<Json>, types: set<string>)
    requires TypesWithin(items, types)
    ensures TypesWithin(NormalizedActions(items), types)
  {
    if items != [] {
      var p := items[..|items| - 1];
      assert forall j :: 0 <= j < |p| ==> p[j] == items[j];
      NormalizedActionsWithin(p, types);
      NormalizedActionForm(items[|items| - 1]);
    }
  }

  /** A list of dicts that all have a type loses nothing to normalisation. */
  lemma {:induction false} NormalizedActionsKeepAll(items: seq<Json>)
    requires forall k :: 0 <= k < |items| ==> items[k].JObj? && TypeOf(items[k]) != ""
    ensures |NormalizedActions(items)| == |items|
  {
    if items != [] {
      var p := items[..|items| - 1];
      assert forall k :: 0 <= k < |p| ==> p[k] == items[k];
      NormalizedActionsKeepAll(p);
      NormalizedActionForm(items[|items| - 1]);
    }
  }

  /** The chain names and their normalised action lists. */
  type ChainMap = map<string, seq<Json>>

  /**
   * The map `_normalize_chain_map` builds from a dict's bindings: names are
   * trimmed, blank names are dropped, and a later binding of the same trimmed
   * name replaces an earlier one.
   */
  function ChainMapOf(bindings: seq<(string, Json)>): ChainMap {
    if bindings == [] then map[]
    else
      var m := ChainMapOf(bindings[..|bindings| - 1]);
      var (raw, actions) := bindings[|bindings| - 1];
      var name := Strip(raw);
      if name == "" then m else m[name := ActionListOf(actions)]
  }

  /** The chain map read from any JSON value: empty unless it is a dict. */
  function ChainsOf(chains: Json): ChainMap {
    if chains.JObj? then ChainMapOf(chains.fields) else map[]
  }

  /** Every chain of the map holds normalised actions only. */
  predicate NormalChains(chains: ChainMap) {
    forall name :: name in chains ==> forall i :: 0 <= i < |chains[name]| ==> IsNormalAction(chains[name][i])
  }

  /** The names of the chain map are exactly the non-blank trimmed names of the dict. */
  lemma {:induction false} ChainMapOfNames(bindings: seq<(string, Json)>)
    ensures forall name :: name in ChainMapOf(bindings) <==>
      name != "" && exists i :: 0 <= i < |bindings| && Strip(bindings[i].0) == name
  {
    if bindings != [] {
      var p := bindings[..|bindings| - 1];
      ChainMapOfNames(p);
      assert forall i :: 0 <= i < |p| ==> p[i] == bindings[i];
      var last := |bindings| - 1;
      forall name | name != "" && exists i :: 0 <= i < |bindings| && Strip(bindings[i].0) == name
        ensures name in ChainMapOf(bindings)
      {
        var i :| 0 <= i < |bindings| && Strip(bindings[i].0) == name;
        if i < last {
          assert Strip(p[i].0) == name;
        }
      }
    }
  }

  /** Each name is bound to the normalised actions of its last binding in the dict. */
  lemma {:induction false} ChainMapOfLast(bindings: seq<(string, Json)>, i: nat)
    requires i < |bindings| && Strip(bindings[i].0) != ""
    requires forall j :: i < j < |bindings| ==> Strip(bindings[j].0) != Strip(bindings[i].0)
    ensures Strip(bindings[i].0) in ChainMapOf(bindings)
    ensures ChainMapOf(bindings)[Strip(bindings[i].0)] == ActionListOf(bindings[i].1)
  {
    var p := bindings[..|bindings| - 1];
    if i < |bindings| - 1 {
      assert p[i] == bindings[i];
      assert forall j :: i < j < |p| ==> p[j] == bindings[j];
      ChainMapOfLast(p, i);
    }
  }

  /** Every chain of the normalised map holds normalised actions only. */
  lemma {:induction false} ChainMapOfNormal(bindings: seq<(string, Json)>)
    ensures NormalChains(ChainMapOf(bindings))
  {
    if bindings != [] {
      ChainMapOfNormal(bindings[..|bindings| - 1]);
      var actions := bindings[|bindings| - 1].1;
      if actions.JArr? {
        NormalizedActionsNormal(actions.items);
      }
    }
  }

  /** The chains introduce no action type that the dict's action lists do not have. */
  lemma {:induction false} ChainMapOfWithin(bindings: seq<(string, Json)>, types: set<string>)
    requires forall i :: 0 <= i < |bindings| && bindings[i].1.JArr? ==> TypesWithin(bindings[i].1.items, types)
    ensures ChainTypesWithin(ChainMapOf(bindings), types)
  {
    if bindings != [] {
      var p := bindings[..|bindings| - 1];
      assert forall i :: 0 <= i < |p| ==> p[i] == bindings[i];
      ChainMapOfWithin(p, types);
      var m := ChainMapOf(p);
      var (raw, actions) := bindings[|bindings| - 1];
      if Strip(raw) != "" {
        if actions.JArr? {
          NormalizedActionsWithin(actions.items, types);
        }
        assert TypesWithin(ActionListOf(actions), types);
        ChainTypesWithinSet(m, Strip(raw), ActionListOf(actions), types);
        assert ChainMapOf(bindings) == m[Strip(raw) := ActionListOf(actions)];
      } else {
        assert ChainMapOf(bindings) == m;
      }
    }
  }

  /** Binding a chain whose types are within keeps every chain's types within. */
  lemma ChainTypesWithinSet(m: ChainMap, name: string, actions: seq<Json>, types: set<string>)
    requires ChainTypesWithin(m, types) && TypesWithin(actions, types)
    ensures ChainTypesWithin(m[name := actions], types)
  {
    var boundChains := m[name := actions];
    forall n | n in boundChains ensures TypesWithin(boundChains[n], types) {
      if n != name {
        assert boundChains[n] == m[n];
      }
    }
  }

  /** `_normalize_chain_map`. */
  method NormalizeChainMap(chains: Json) returns (normalized: ChainMap)
    ensures normalized == ChainsOf(chains)
  {
    normalized := map[];
    if !chains.JObj? {
      return;
    }
    var bindings := chains.fields;
    for i := 0 to |bindings|
      invariant normalized == ChainMapOf(bindings[..i])
    {
      assert bindings[..i + 1][..i] == bindings[..i];
      var (rawName, rawActions) := bindings[i];
      var name := Strip(rawName);
      if name == "" {
        continue;
      }
      var actions := NormalizeActionList(rawActions);
      normalized := normalized[name := actions];
    }
    assert bindings[..|bindings|] == bindings;
  }

  /** The chain a `chain` action names: `str(args.get("name", "")).strip()`, "" without dict args. */
  function ChainName(action: Json): string {
    var args := GetOr(action, "args", JObj([]));
    if args.JObj? then Strip(Str(GetOr(args, "name", JStr("")))) else ""
  }

  /** Gives the `when` value `w` to one spliced action that has none of its own. */
  function StampOne(a: Json, w: string): Json {
    if a.JObj? && !HasKey(a, "when") then JObj(PutField(a.fields, "when", JStr(w))) else a
  }

  /**
   * Stamping keeps an action that has a `when` (or is no dict) as it is, and
   * otherwise sets `when` to `w` and leaves every other field alone.
   */
  lemma StampOneEffect(a: Json, w: string)
    ensures StampOne(a, w).JObj? == a.JObj?
    ensures HasKey(a, "when") || !a.JObj? ==> StampOne(a, w) == a
    ensures a.JObj? && !HasKey(a, "when") ==> Get(StampOne(a, w), "when") == Some(JStr(w))
    ensures a.JObj? ==> forall k :: k != "when" ==> Get(StampOne(a, w), k) == Get(a, k)
  {
  }

  /** The spliced actions of a chain called with a non-blank `when`. */
  function Stamp(nested: seq<Json>, w: string): (r: seq<Json>)
    ensures |r| == |nested|
    ensures forall i :: 0 <= i < |r| ==> r[i] == StampOne(nested[i], w)
  {
    if nested == [] then [] else Stamp(nested[..|nested| - 1], w) + [StampOne(nested[|nested| - 1], w)]
  }

  /** The depth beyond which `_expand_action_chains` gives up. */
  const MaxChainDepth: nat := 10

  /**
   * `_expand_action_chains(actions, chains, trace, depth)`, defined on the last
   * action of the list: non-dicts are dropped, non-chain actions are kept, and
   * a chain action is replaced by the expansion of the chain it names.
   */
  function Expand(actions: seq<Json>, chains: ChainMap, trace: seq<string>, depth: nat): seq<Json>
    decreases MaxChainDepth + 1 - depth, |actions|, 1
  {
    if depth > MaxChainDepth || actions == [] then []
    else Expand(actions[..|actions| - 1], chains, trace, depth) + Splice(actions[|actions| - 1], chains, trace, depth)
  }

  /**
   * What one action contributes: a chain action whose name is blank, already
   * on the trace or unknown contributes nothing; otherwise its chain expanded
   * one level deeper with the name on the trace, with the action's own
   * non-blank `when` given to the spliced actions that have none.
   */
  function Splice(action: Json, chains: ChainMap, trace: seq<string>, depth: nat): seq<Json>
    requires depth <= MaxChainDepth
    decreases MaxChainDepth + 1 - depth, 0, 0
  {
    if !action.JObj? then []
    else if TypeOf(action) != "chain" then [action]
    else
      var name := ChainName(action);
      if name == "" || name in trace || name !in chains then []
      else
        var nested := Expand(chains[name], chains, trace + [name], depth + 1);
        var w := FieldWord(action, "when");
        if w == "" then nested else Stamp(nested, w)
  }

  /** The inner loop of `_expand_action_chains` that appends a chain's stamped actions. */
  method AppendStamped(expanded: seq<Json>, nested: seq<Json>, w: string) returns (result: seq<Json>)
    ensures result == expanded + Stamp(nested, w)
  {
    result := expanded;
    for j := 0 to |nested|
      invariant result == expanded + Stamp(nested[..j], w)
    {
      StampStep(nested, j, w);
      var updated := StampAction(nested[j], w);
      result := result + [updated];
    }
    assert nested[..|nested|] == nested;
  }

  /** One action of that loop: a dict without `when` gets `when` set to `w`. */
  method StampAction(action: Json, w: string) returns (updated: Json)
    ensures updated == StampOne(action, w)
  {
    updated := action;
    if updated.JObj? && !HasKey(updated, "when") {
      updated := JObj(PutField(updated.fields, "when", JStr(w)));
    }
  }

  lemma StampStep(nested: seq<Json>, j: nat, w: string)
    requires j < |nested|
    ensures Stamp(nested[..j + 1], w) == Stamp(nested[..j], w) + [StampOne(nested[j], w)]
  {
    assert nested[..j + 1][..j] == nested[..j];
  }

  /** `_expand_action_chains`. */
  method ExpandActionChains(actions: seq<Json>, chains: ChainMap, trace: seq<string>, depth: nat)
    returns (expanded: seq<Json>)
    ensures expanded == Expand(actions, chains, trace, depth)
    ensures depth > MaxChainDepth ==> expanded == []
    decreases MaxChainDepth + 1 - depth
  {
    if depth > MaxChainDepth {
      return [];
    }
    expanded := [];
    for i := 0 to |actions|
      invariant expanded == Expand(actions[..i], chains, trace, depth)
    {
      assert actions[..i + 1][..i] == actions[..i];
      var action := actions[i];
      if !action.JObj? {
        continue;
      }
      if TypeOf(action) != "chain" {
        expanded := expanded + [action];
        continue;
      }
      var name := ChainName(action);
      if name == "" || name in trace || name !in chains {
        continue;
      }
      var nested := ExpandActionChains(chains[name], chains, trace + [name], depth + 1);
      var overrideWhen := FieldWord(action, "when");
      if overrideWhen == "" {
        expanded := expanded + nested;
        continue;
      }
      expanded := AppendStamped(expanded, nested, overrideWhen);
    }
    assert actions[..|actions|] == actions;
  }

  lemma StampOneKeepsType(a: Json, w: string)
    requires a.JObj?
    ensures StampOne(a, w).JObj? && TypeOf(StampOne(a, w)) == TypeOf(a)
  {
    if !HasKey(a, "when") {
      assert Get(StampOne(a, w), "type") == Get(a, "type");
    }
  }

  lemma StampKeepsTypes(nested: seq<Json>, w: string, types: set<string>)
    requires Spliced(nested) && TypesWithin(nested, types)
    ensures Spliced(Stamp(nested, w)) && TypesWithin(Stamp(nested, w), types)
  {
    var r := Stamp(nested, w);
    forall i | 0 <= i < |r| ensures r[i].JObj? && TypeOf(r[i]) == TypeOf(nested[i]) {
      StampOneKeepsType(nested[i], w);
    }
  }

  /**
   * The expansion never contains a chain action, and it introduces no action
   * type that neither the list nor any chain holds.
   */
  lemma {:induction false} ExpandSpliced(actions: seq<Json>, chains: ChainMap, trace: seq<string>, depth: nat, types: set<string>)
    requires TypesWithin(actions, types) && ChainTypesWithin(chains, types)
    ensures Spliced(Expand(actions, chains, trace, depth))
    ensures TypesWithin(Expand(actions, chains, trace, depth), types)
    decreases MaxChainDepth + 1 - depth, |actions|, 1
  {
    if !(depth > MaxChainDepth || actions == []) {
      var p := actions[..|actions| - 1];
      assert forall i :: 0 <= i < |p| ==> p[i] == actions[i];
      ExpandSpliced(p, chains, trace, depth, types);
      SpliceSpliced(actions[|actions| - 1], chains, trace, depth, types);
    }
  }

  lemma {:induction false} SpliceSpliced(action: Json, chains: ChainMap, trace: seq<string>, depth: nat, types: set<string>)
    requires depth <= MaxChainDepth
    requires (action.JObj? ==> TypeOf(action) in types) && ChainTypesWithin(chains, types)
    ensures Spliced(Splice(action, chains, trace, depth))
    ensures TypesWithin(Splice(action, chains, trace, depth), types)
    decreases MaxChainDepth + 1 - depth, 0, 0
  {
    if action.JObj? && TypeOf(action) == "chain" {
      var name := ChainName(action);
      if !(name == "" || name in trace || name !in chains) {
        ExpandSpliced(chains[name], chains, trace + [name], depth + 1, types);
        var nested := Expand(chains[name], chains, trace + [name], depth + 1);
        StampKeepsTypes(nested, FieldWord(action, "when"), types);
      }
    }
  }

  /** With every type allowed, the plain statement: no chain action survives expansion. */
  lemma ExpandNeverEmitsChain(actions: seq<Json>, chains: ChainMap, trace: seq<string>, depth: nat)
    ensures forall i :: 0 <= i < |Expand(actions, chains, trace, depth)| ==>
      Expand(actions, chains, trace, depth)[i].JObj? && TypeOf(Expand(actions, chains, trace, depth)[i]) != "chain"
  {
    var types := set i | 0 <= i < |actions| && actions[i].JObj? :: TypeOf(actions[i]);
    var chainTypes := set name, i | name in chains && 0 <= i < |chains[name]| && chains[name][i].JObj? :: TypeOf(chains[name][i]);
    var all := types + chainTypes;
    assert ChainTypesWithin(chains, all) by {
      forall name | name in chains ensures TypesWithin(chains[name], all) {
        forall i | 0 <= i < |chains[name]| && chains[name][i].JObj? ensures TypeOf(chains[name][i]) in all {
          assert TypeOf(chains[name][i]) in chainTypes;
        }
      }
    }
    ExpandSpliced(actions, chains, trace, depth, all);
  }

  /** Expansion distributes over concatenation of action lists. */
  lemma {:induction false} ExpandAppend(a: seq<Json>, b: seq<Json>, chains: ChainMap, trace: seq<string>, depth: nat)
    ensures Expand(a + b, chains, trace, depth) == Expand(a, chains, trace, depth) + Expand(b, chains, trace, depth)
    decreases |b|
  {
    if depth <= MaxChainDepth && b != [] {
      var bInit := b[..|b| - 1];
      assert (a + b)[..|a + b| - 1] == a + bInit;
      assert (a + b)[|a + b| - 1] == b[|b| - 1];
      ExpandAppend(a, bInit, chains, trace, depth);
    } else if depth <= MaxChainDepth {
      assert a + b == a;
    }
  }

  /** A list with no chain action in it expands to itself, its non-dicts aside. */
  lemma {:induction false} ExpandWithoutChains(actions: seq<Json>, chains: ChainMap, trace: seq<string>, depth: nat)
    requires depth <= MaxChainDepth
    requires Spliced(actions)
    ensures Expand(actions, chains, trace, depth) == actions
  {
    if actions != [] {
      var p := actions[..|actions| - 1];
      assert forall i :: 0 <= i < |p| ==> p[i] == actions[i];
      ExpandWithoutChains(p, chains, trace, depth);
      SplitLast(actions);
    }
  }

  /**
   * A chain that calls itself expands to nothing more than its own non-chain
   * actions: the trace stops the second entry into it.
   */
  lemma SelfCallStops(name: string, body: seq<Json>, call: Json, chains: ChainMap)
    requires name in chains && chains[name] == body + [call]
    requires Spliced(body)
    requires call.JObj? && TypeOf(call) == "chain" && ChainName(call) == name
    ensures Expand(chains[name], chains, [name], 1) == body
  {
    ExpandAppend(body, [call], chains, [name], 1);
    ExpandWithoutChains(body, chains, [name], 1);
    assert [call][..0] == [];
  }
}
