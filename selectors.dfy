// Reading an action's arguments, the selectors it names (with `$player`
// expanded) and the frames it targets (MonitorM3U8.py, lines 15-29, 627-639,
// 1646-1692).

module Selectors {
  import opened Wrappers
  import opened Text
  import opened JsonValue
  import opened Coerce
  import opened RuleCheck

  /** `PLAYER_SELECTORS`: what `$player` stands for. */
  const PlayerSelectors: seq<string> := [
    "video",
    "audio",
    "button[aria-label*='play' i]",
    "button[title*='play' i]",
    ".play-button",
    ".vjs-play-control",
    ".jw-icon-playback",
    ".dplayer-play-icon",
    ".art-control-play",
    ".xgplayer-play",
    ".ckplayer .ck-play",
    ".player .play",
    "[data-testid*='play' i]"
  ]

  /** The `args` of an action, `{}` when missing. */
  function ArgsOf(action: Json): Json {
    GetOr(action, "args", JObj([]))
  }

  /** `_action_has_arg`: the action is a dict whose `args` is a dict holding `key`. */
  predicate HasArg(action: Json, key: string) {
    action.JObj? && ArgsOf(action).JObj? && HasKey(ArgsOf(action), key)
  }

  /** `_action_arg`: the argument when `_action_has_arg` holds, the default otherwise. */
  function ActionArg(action: Json, key: string, default: Json): (r: Json)
    ensures HasArg(action, key) ==> Get(ArgsOf(action), key) == Some(r) && r < action
    ensures !HasArg(action, key) ==> r == default
  {
    if HasArg(action, key) then Get(ArgsOf(action), key).value else default
  }

  /** `str(raw or fallback).strip().lower()`. */
  function WordOr(raw: Json, fallback: string): string {
    Lower(Strip(if Truthy(raw) then Str(raw) else fallback))
  }

  /** `_wait_selector_state`: a known state word, or the default. */
  function WaitSelectorState(raw: Json, default: string): (r: string)
    ensures WordOr(raw, "") in SelectorStates ==> r == WordOr(raw, "")
    ensures WordOr(raw, "") !in SelectorStates ==> r == default
  {
    var value := WordOr(raw, "");
    if value in SelectorStates then value else default
  }

  /** `_match_mode`: `any` or `all`, or the default. */
  function MatchMode(raw: Json, default: string): (r: string)
    ensures WordOr(raw, "") in MatchModes ==> r == WordOr(raw, "")
    ensures WordOr(raw, "") !in MatchModes ==> r == default
  {
    var value := WordOr(raw, "");
    if value in MatchModes then value else default
  }

  /** A frame of the page, known by its identity. */
  datatype Frame = Frame(id: nat)

  /** Where an action runs: the page itself or one of its frames. */
  datatype Target = PageTarget | FrameTarget(frame: Frame)

  /** The frames of the page other than its main frame, in order. */
  function ChildFrames(frames: seq<Frame>, main: Frame): (r: seq<Target>)
    ensures forall t :: t in r <==> t.FrameTarget? && t.frame in frames && t.frame != main
  {
    if frames == [] then []
    else
      var rest := ChildFrames(frames[..|frames| - 1], main);
      var f := frames[|frames| - 1];
      assert frames == frames[..|frames| - 1] + [f];
      if f != main then rest + [FrameTarget(f)] else rest
  }

  /**
   * `_iter_action_targets`: the frames for `frame`/`frames`, the page and
   * then its frames for `all`/`page_and_frames`, and the page alone for any
   * other mode (a missing mode reads as `page`).
   */
  function IterActionTargets(mode: Json, frames: seq<Frame>, main: Frame): (r: seq<Target>)
    ensures PageTarget in r <==> WordOr(mode, "page") !in {"frame", "frames"}
    ensures forall f :: FrameTarget(f) in r <==>
      WordOr(mode, "page") in {"frame", "frames", "all", "page_and_frames"} && f in frames && f != main
  {
    var word := WordOr(mode, "page");
    var others := ChildFrames(frames, main);
    if word in {"frame", "frames"} then others
    else if word in {"all", "page_and_frames"} then [PageTarget] + others
    else [PageTarget]
  }

  /** The selectors an action names, `selectors` first, then `selector`. */
  function RawSelectors(action: Json): seq<string> {
    var many := ActionArg(action, "selectors", JArr([]));
    var one := ActionArg(action, "selector", JStr(""));
    (if Truthy(many) then ToTextList(many) else []) + (if Truthy(one) then ToTextList(one) else [])
  }

  /** The selector is the `$player` keyword, whatever its case and surrounding spaces. */
  predicate IsPlayerKeyword(selector: string) {
    Lower(Strip(selector)) == "$player"
  }

  /** The selectors with every `$player` replaced by the player selectors, in order. */
  function ExpandPlayer(selectors: seq<string>): (r: seq<string>)
    ensures forall s :: s in r <==>
      (s in selectors && !IsPlayerKeyword(s)) || (s in PlayerSelectors && exists k :: 0 <= k < |selectors| && IsPlayerKeyword(selectors[k]))
  {
    if selectors == [] then []
    else
      var p := selectors[..|selectors| - 1];
      var last := selectors[|selectors| - 1];
      assert selectors == p + [last];
      assert forall k :: 0 <= k < |p| ==> p[k] == selectors[k];
      ExpandPlayer(p) + (if IsPlayerKeyword(last) then PlayerSelectors else [last])
  }

  predicate NoDuplicates(xs: seq<string>) {
    forall i, j :: 0 <= i < j < |xs| ==> xs[i] != xs[j]
  }

  /** The position of the first occurrence of `x`. */
  function FirstIndex(xs: seq<string>, x: string): (k: nat)
    requires x in xs
    ensures k < |xs| && xs[k] == x
    ensures forall j :: 0 <= j < k ==> xs[j] != x
  {
    if xs[0] == x then 0 else 1 + FirstIndex(xs[1..], x)
  }

  /** Appending an item moves no first occurrence, and a new item first occurs at the end. */
  lemma FirstIndexAppend(p: seq<string>, e: string, x: string)
    requires x in p + [e]
    ensures x in p ==> FirstIndex(p + [e], x) == FirstIndex(p, x)
    ensures x !in p ==> FirstIndex(p + [e], x) == |p|
  {
    if x in p {
      assert (p + [e])[FirstIndex(p, x)] == x;
    }
  }

  /**
   * `list(dict.fromkeys(xs))`: the first occurrence of every item, in the
   * order of those first occurrences.
   */
  function Dedupe(xs: seq<string>): (r: seq<string>)
    ensures forall x :: x in r <==> x in xs
    ensures NoDuplicates(r)
    ensures forall i, j :: 0 <= i < j < |r| ==> FirstIndex(xs, r[i]) < FirstIndex(xs, r[j])
  {
    if xs == [] then []
    else
      var p := xs[..|xs| - 1];
      var rest := Dedupe(p);
      var last := xs[|xs| - 1];
      assert xs == p + [last];
      forall x | x in p
        ensures FirstIndex(xs, x) == FirstIndex(p, x)
      {
        FirstIndexAppend(p, last, x);
      }
      if last in rest then rest
      else
        FirstIndexAppend(p, last, last);
        rest + [last]
  }

  /** The selectors `_resolve_action_selectors` returns. */
  function ResolvedSelectors(action: Json): seq<string> {
    Dedupe(ExpandPlayer(RawSelectors(action)))
  }

  lemma ExpandPlayerStep(selectors: seq<string>, i: nat)
    requires i < |selectors|
    ensures ExpandPlayer(selectors[..i + 1]) ==
      ExpandPlayer(selectors[..i]) + (if IsPlayerKeyword(selectors[i]) then PlayerSelectors else [selectors[i]])
  {
    assert selectors[..i + 1][..i] == selectors[..i];
  }

  /** The loop of `_resolve_action_selectors` that replaces `$player`. */
  method ExpandPlayerSelectors(selectors: seq<string>) returns (expanded: seq<string>)
    ensures expanded == ExpandPlayer(selectors)
  {
    expanded := [];
    for i := 0 to |selectors|
      invariant expanded == ExpandPlayer(selectors[..i])
    {
      ExpandPlayerStep(selectors, i);
      if IsPlayerKeyword(selectors[i]) {
        expanded := expanded + PlayerSelectors;
      } else {
        expanded := expanded + [selectors[i]];
      }
    }
    assert selectors[..|selectors|] == selectors;
  }

  /** `_resolve_action_selectors`. */
  method ResolveActionSelectors(action: Json) returns (resolved: seq<string>)
    ensures resolved == ResolvedSelectors(action)
  {
    var selectors := RawSelectors(action);
    var expanded := ExpandPlayerSelectors(selectors);
    resolved := Dedupe(expanded);
  }

  /** Stripping text whose first character is no space keeps that character first. */
  lemma {:induction false} StripKeepsHead(s: string)
    requires |s| > 0 && !IsSpace(s[0])
    ensures |Strip(s)| > 0 && Strip(s)[0] == s[0]
    decreases |s|
  {
    if |s| > 1 && IsSpace(s[|s| - 1]) {
      StripKeepsHead(s[..|s| - 1]);
    }
  }

  /** No player selector is itself the `$player` keyword. */
  lemma PlayerSelectorsPlain()
    ensures forall s :: s in PlayerSelectors ==> !IsPlayerKeyword(s)
  {
    forall s | s in PlayerSelectors ensures !IsPlayerKeyword(s) {
      var k :| 0 <= k < |PlayerSelectors| && PlayerSelectors[k] == s;
      PlainHead(s);
    }
  }

  /** A selector starting with a tag letter, `.` or `[` is not the keyword. */
  lemma PlainHead(s: string)
    requires |s| > 0 && s[0] in {'v', 'a', 'b', '.', '['}
    ensures !IsPlayerKeyword(s)
  {
    StripKeepsHead(s);
    assert Lower(Strip(s))[0] == LowerChar(s[0]);
  }

  /**
   * The resolved selectors hold no duplicate and no `$player` keyword; they
   * are the action's other selectors plus, when it names `$player`, every
   * player selector, tried in the order they first occur once `$player` is
   * expanded.
   */
  lemma ResolvedSelectorsForm(action: Json)
    ensures NoDuplicates(ResolvedSelectors(action))
    ensures var expanded := ExpandPlayer(RawSelectors(action));
      var r := ResolvedSelectors(action);
      forall i, j :: 0 <= i < j < |r| ==> FirstIndex(expanded, r[i]) < FirstIndex(expanded, r[j])
    ensures forall s :: s in ResolvedSelectors(action) ==> !IsPlayerKeyword(s)
    ensures forall s :: s in RawSelectors(action) && !IsPlayerKeyword(s) ==> s in ResolvedSelectors(action)
    ensures (exists s :: s in RawSelectors(action) && IsPlayerKeyword(s)) ==>
      forall p :: p in PlayerSelectors ==> p in ResolvedSelectors(action)
  {
    ExpandedForm(RawSelectors(action));
  }

  /** `ResolvedSelectorsForm` for any list of selectors. */
  lemma ExpandedForm(selectors: seq<string>)
    ensures NoDuplicates(Dedupe(ExpandPlayer(selectors)))
    ensures forall s :: s in Dedupe(ExpandPlayer(selectors)) ==> !IsPlayerKeyword(s)
    ensures forall s :: s in selectors && !IsPlayerKeyword(s) ==> s in Dedupe(ExpandPlayer(selectors))
    ensures (exists s :: s in selectors && IsPlayerKeyword(s)) ==>
      forall p :: p in PlayerSelectors ==> p in Dedupe(ExpandPlayer(selectors))
  {
    PlayerSelectorsPlain();
    if exists s :: s in selectors && IsPlayerKeyword(s) {
      var s :| s in selectors && IsPlayerKeyword(s);
      var k :| 0 <= k < |selectors| && selectors[k] == s;
    }
  }

}
