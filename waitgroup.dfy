// Wait groups: compiling a `wait_group`'s child actions into wait items,
// preparing their latch state and polling them (MonitorM3U8.py, lines
// 1933-2027).

module WaitGroup {
  import opened Wrappers
  import opened Text
  import opened JsonValue
  import opened Coerce
  import opened RuleActions
  import opened RuleCheck
  import opened Selectors

  /**
   * A compiled wait item. A group carries its latch state: one `done` flag
   * per child and the time it started, both missing until it is prepared.
   * Times are whole milliseconds.
   */
  datatype Item =
    | SelectorWait(selectors: seq<string>, state: string, matchMode: string, target: Json)
    | TimerWait(delayMs: int)
    | GroupWait(mode: string, items: seq<Item>, done: seq<bool>, start: Option<int>)

  /** The longest `wait` a group honours, in milliseconds. */
  const MaxWaitMs: int := 120000

  /** What compiling guarantees: no empty selector list or group, known words, a bounded delay, no latch yet. */
  predicate Compiled(item: Item) {
    match item
    case SelectorWait(selectors, state, matchMode, _) =>
      selectors != [] && state in SelectorStates && matchMode in MatchModes
    case TimerWait(delayMs) => 0 <= delayMs <= MaxWaitMs
    case GroupWait(mode, items, done, start) =>
      mode in MatchModes && items != [] && done == [] && start.None?
      && forall k :: 0 <= k < |items| ==> Compiled(items[k])
  }

  /**
   * `_compile_wait_group_items_from_actions`: non-lists compile to nothing;
   * non-dict children, children of other types, selector waits without
   * selectors and groups with nothing inside are dropped.
   */
  function CompileItems(groupActions: Json): (r: seq<Item>)
    ensures forall k :: 0 <= k < |r| ==> Compiled(r[k])
    ensures groupActions.JArr? ==> |r| <= |groupActions.items|
    ensures !groupActions.JArr? ==> r == []
    decreases groupActions, 1
  {
    if !groupActions.JArr? then [] else CompileList(groupActions.items, groupActions)
  }

  function CompileList(children: seq<Json>, parent: Json): (r: seq<Item>)
    requires forall k :: 0 <= k < |children| ==> children[k] < parent
    ensures forall k :: 0 <= k < |r| ==> Compiled(r[k])
    ensures |r| <= |children|
    decreases parent, 0, |children|
  {
    if children == [] then []
    else
      var p := children[..|children| - 1];
      var child := children[|children| - 1];
      CompileList(p, parent) + CompileChild(child)
  }

  /** What one child compiles to: one item, or nothing. */
  function CompileChild(child: Json): (r: seq<Item>)
    ensures |r| <= 1
    ensures forall k :: 0 <= k < |r| ==> Compiled(r[k])
    decreases child, 0, 0
  {
    if !child.JObj? then []
    else
      var childType := TypeOf(child);
      if childType == "wait_for_selector" then
        var selectors := ResolvedSelectors(child);
        if |selectors| == 0 then []
        else
          [SelectorWait(
            selectors,
            WaitSelectorState(ActionArg(child, "state", JStr("visible")), "visible"),
            MatchMode(ActionArg(child, "match", JStr("any")), "any"),
            ActionArg(child, "target", JStr("page")))]
      else if childType == "wait" then
        [TimerWait(ToInt(ActionArg(child, "ms", JInt(0)), 0, Some(0), Some(MaxWaitMs)))]
      else if childType == "wait_group" then
        var mode := MatchMode(ActionArg(child, "mode", JStr("all")), "all");
        var nested := if HasArg(child, "group_actions") then CompileItems(ActionArg(child, "group_actions", JArr([]))) else [];
        if |nested| == 0 then [] else [GroupWait(mode, nested, [], None)]
      else []
  }

  /** A missing `group_actions` compiles like an empty list: to nothing. */
  lemma MissingGroupActions(child: Json)
    requires !HasArg(child, "group_actions")
    ensures CompileItems(ActionArg(child, "group_actions", JArr([]))) == []
  {
  }

  /** `_prepare_wait_group_item_state`: every group, nested ones too, starts with no child done. */
  function Prepare(item: Item, startTime: int): (r: Item)
    decreases item, 1
  {
    match item
    case GroupWait(mode, items, _, _) => GroupWait(mode, PrepareAll(items, startTime, item), Falses(|items|), Some(startTime))
    case _ => item
  }

  function PrepareAll(items: seq<Item>, startTime: int, parent: Item): (r: seq<Item>)
    requires forall k :: 0 <= k < |items| ==> items[k] < parent
    ensures |r| == |items|
    ensures forall k :: 0 <= k < |r| ==> r[k] == Prepare(items[k], startTime)
    decreases parent, 0, |items|
  {
    if items == [] then [] else PrepareAll(items[..|items| - 1], startTime, parent) + [Prepare(items[|items| - 1], startTime)]
  }

  function Falses(n: nat): (r: seq<bool>)
    ensures |r| == n && forall k :: 0 <= k < n ==> !r[k]
  {
    if n == 0 then [] else Falses(n - 1) + [false]
  }

  /** A prepared item: every group has a start time and one flag per child, none of them set. */
  predicate Fresh(item: Item, startTime: int) {
    match item
    case GroupWait(_, items, done, start) =>
      start == Some(startTime) && |done| == |items| && (forall k :: 0 <= k < |done| ==> !done[k])
      && forall k :: 0 <= k < |items| ==> Fresh(items[k], startTime)
    case _ => true
  }

  lemma {:induction false} PrepareFresh(item: Item, startTime: int)
    ensures Fresh(Prepare(item, startTime), startTime)
    decreases item
  {
    if item.GroupWait? {
      var r := Prepare(item, startTime);
      forall k | 0 <= k < |item.items| ensures Fresh(r.items[k], startTime) {
        PrepareFresh(item.items[k], startTime);
      }
    }
  }

  /** The selector check on the page: the page state is not part of this model. */
  type SelectorOracle = (seq<string>, string, string, Json) -> bool

  /**
   * `_wait_group_item_satisfied`: a selector wait asks the page, a timer
   * compares the time since its group started, and a group polls each child
   * not yet done, latches the ones that now hold, and holds when any (mode
   * `any`) or all of its flags are set, never when it has none.
   * Returns the answer and the item with its latch state updated.
   */
  function Poll(check: SelectorOracle, item: Item, now: int, groupStart: int): (r: (bool, Item))
    ensures r.1.GroupWait? == item.GroupWait?
    ensures item.GroupWait? ==> r.1.mode == item.mode && |r.1.items| == |item.items| && |r.1.done| == |item.done| && r.1.start == item.start
    decreases item, 1
  {
    match item
    case SelectorWait(selectors, state, matchMode, target) => (check(selectors, state, matchMode, target), item)
    case TimerWait(delayMs) => (now - groupStart >= delayMs, item)
    case GroupWait(mode, items, done, start) =>
      var nestedStart := if start.Some? then start.value else groupStart;
      var polled := PollChildren(check, items, done, now, nestedStart, item);
      var newDone := LatchedFlags(done, polled);
      var newItems := PolledItems(items, done, polled);
      var holds := if |newDone| == 0 then false else if mode == "any" then true in newDone else false !in newDone;
      (holds, GroupWait(mode, newItems, newDone, start))
  }

  /** The child polled at `k`: the ones already done, or without a flag, are not asked. */
  predicate Asked(done: seq<bool>, k: int) {
    0 <= k < |done| && !done[k]
  }

  /** The poll of every child that is asked this round (other positions hold the child unchanged). */
  function PollChildren(check: SelectorOracle, items: seq<Item>, done: seq<bool>, now: int, start: int, parent: Item): (r: seq<(bool, Item)>)
    requires forall k :: 0 <= k < |items| ==> items[k] < parent
    ensures |r| == |items|
    ensures forall k :: 0 <= k < |items| && Asked(done, k) ==> r[k] == Poll(check, items[k], now, start)
    ensures forall k :: 0 <= k < |items| && !Asked(done, k) ==> r[k] == (false, items[k])
    decreases parent, 0, |items|
  {
    if items == [] then []
    else
      var k := |items| - 1;
      PollChildren(check, items[..k], done, now, start, parent)
        + [if Asked(done, k) then Poll(check, items[k], now, start) else (false, items[k])]
  }

  /** The flags after the round: a flag is set once its child holds, and stays set. */
  function LatchedFlags(done: seq<bool>, polled: seq<(bool, Item)>): (r: seq<bool>)
    ensures |r| == |done|
    ensures forall k :: 0 <= k < |done| ==> r[k] == (done[k] || (k < |polled| && polled[k].0))
  {
    seq(|done|, k requires 0 <= k < |done| => done[k] || (k < |polled| && polled[k].0))
  }

  function PolledItems(items: seq<Item>, done: seq<bool>, polled: seq<(bool, Item)>): (r: seq<Item>)
    requires |items| == |polled|
    ensures |r| == |items|
    ensures forall k :: 0 <= k < |items| ==> r[k] == (if Asked(done, k) then polled[k].1 else items[k])
  {
    seq(|items|, k requires 0 <= k < |items| => if Asked(done, k) then polled[k].1 else items[k])
  }

  /**
   * The latch: a flag once set stays set, the child behind it is not polled
   * again, and the group holds exactly when any (or all) of its flags are set.
   */
  lemma PollLatches(check: SelectorOracle, item: Item, now: int, groupStart: int)
    requires item.GroupWait?
    ensures var next := Poll(check, item, now, groupStart).1;
      forall k :: 0 <= k < |item.done| && item.done[k] ==> next.done[k] && (k < |item.items| ==> next.items[k] == item.items[k])
    ensures var (holds, next) := Poll(check, item, now, groupStart);
      holds <==> |next.done| > 0 && (if item.mode == "any" then exists k :: 0 <= k < |next.done| && next.done[k]
                                     else forall k :: 0 <= k < |next.done| ==> next.done[k])
  {
    var GroupWait(mode, items, done, start) := item;
    var nestedStart := if start.Some? then start.value else groupStart;
    var polled := PollChildren(check, items, done, now, nestedStart, item);
    var (holds, next) := Poll(check, item, now, groupStart);
    assert next.done == LatchedFlags(done, polled);
    if |next.done| > 0 {
      if mode == "any" {
        assert holds == (true in next.done);
      } else {
        assert holds == (false !in next.done);
      }
    }
  }

  /**
   * Once a group holds it keeps holding: whatever the page shows and
   * whatever the time at the next poll, every flag that made it hold is
   * still set.
   */
  lemma HoldsStay(check: SelectorOracle, later: SelectorOracle, item: Item, now: int, next: int, groupStart: int)
    requires item.GroupWait?
    requires Poll(check, item, now, groupStart).0
    ensures Poll(later, Poll(check, item, now, groupStart).1, next, groupStart).0
  {
    var after := Poll(check, item, now, groupStart).1;
    PollLatches(check, item, now, groupStart);
    PollLatches(later, after, next, groupStart);
  }

  /** An item that was never prepared holds no flags, so a group of it never holds. */
  lemma UnpreparedGroupWaits(check: SelectorOracle, item: Item, now: int, groupStart: int)
    requires Compiled(item) && item.GroupWait?
    ensures !Poll(check, item, now, groupStart).0
  {
  }

  /** `_prepare_wait_group_item_state`, walking the children in turn. */
  method PrepareItem(item: Item, startTime: int) returns (r: Item)
    ensures r == Prepare(item, startTime)
    decreases item
  {
    if !item.GroupWait? {
      return item;
    }
    var children := item.items;
    for i := 0 to |item.items|
      invariant |children| == |item.items|
      invariant forall k :: 0 <= k < |children| ==> children[k] == (if k < i then Prepare(item.items[k], startTime) else item.items[k])
    {
      var child := PrepareItem(item.items[i], startTime);
      children := children[i := child];
    }
    r := GroupWait(item.mode, children, Falses(|item.items|), Some(startTime));
  }

  /**
   * `_wait_group_item_satisfied`: a group walks its children, skips the ones
   * without a flag or already done, sets the flag of each child that now
   * holds and keeps the child's own updated latch state.
   */
  method PollItem(check: SelectorOracle, item: Item, now: int, groupStart: int) returns (holds: bool, next: Item)
    ensures (holds, next) == Poll(check, item, now, groupStart)
    decreases item, 1
  {
    match item
    case SelectorWait(selectors, state, matchMode, target) =>
      holds, next := check(selectors, state, matchMode, target), item;
    case TimerWait(delayMs) =>
      holds, next := now - groupStart >= delayMs, item;
    case GroupWait(_, _, _, _) =>
      holds, next := PollGroup(check, item, now, groupStart);
  }

  /** The group branch of `_wait_group_item_satisfied`. */
  method PollGroup(check: SelectorOracle, item: Item, now: int, groupStart: int) returns (holds: bool, next: Item)
    requires item.GroupWait?
    ensures (holds, next) == Poll(check, item, now, groupStart)
    decreases item, 0
  {
    var GroupWait(mode, items, done0, start) := item;
    var nestedStart := if start.Some? then start.value else groupStart;
    ghost var polled := PollChildren(check, items, done0, now, nestedStart, item);
    var children := items;
    var done := done0;
    for index := 0 to |items|
      invariant |children| == |items| && |done| == |done0|
      invariant forall k :: 0 <= k < |children| ==> children[k] == (if k < index && Asked(done0, k) then polled[k].1 else items[k])
      invariant forall k :: 0 <= k < |done| ==> done[k] == (done0[k] || (k < index && polled[k].0))
    {
      if index >= |done| || done[index] {
        continue;
      }
      var ok, child := PollItem(check, items[index], now, nestedStart);
      if ok {
        done := done[index := true];
      }
      children := children[index := child];
    }
    assert children == PolledItems(items, done0, polled);
    assert done == LatchedFlags(done0, polled);
    holds := if |done| == 0 then false else if mode == "any" then true in done else false !in done;
    next := GroupWait(mode, children, done, start);
  }

  /** The loop of `_compile_wait_group_items_from_actions`, child by child. */
  method CompileGroupActions(groupActions: Json) returns (compiled: seq<Item>)
    ensures compiled == CompileItems(groupActions)
  {
    compiled := [];
    if !groupActions.JArr? {
      return;
    }
    var children := groupActions.items;
    for i := 0 to |children|
      invariant compiled == CompileList(children[..i], groupActions)
    {
      assert children[..i + 1][..i] == children[..i];
      compiled := compiled + CompileChild(children[i]);
    }
    assert children[..|children|] == children;
  }

  /**
   * In mode `any`, a timer fires its group: when a child timer not yet done
   * has waited its delay since the group started, the group holds.
   */
  lemma AnyTimerFires(check: SelectorOracle, group: Item, now: int, groupStart: int, i: nat)
    requires group.GroupWait? && group.mode == "any"
    requires i < |group.items| && i < |group.done| && group.items[i].TimerWait?
    requires now - (if group.start.Some? then group.start.value else groupStart) >= group.items[i].delayMs
    ensures Poll(check, group, now, groupStart).0
  {
    var nestedStart := if group.start.Some? then group.start.value else groupStart;
    var polled := PollChildren(check, group.items, group.done, now, nestedStart, group);
    PollLatches(check, group, now, groupStart);
    var next := Poll(check, group, now, groupStart).1;
    assert next.done == LatchedFlags(group.done, polled);
    assert next.done[i];
  }
}
