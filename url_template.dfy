/**
 * The URL template expander (SimpleUrlParser.py): an input such as
 * `https://example.com/p_{{idx}}.jpg {{idx:1-5}}` splits into a template and
 * its rules; every combination of the rules' values, in `itertools.product`
 * order, fills the template's `{{key}}` placeholders and names the result
 * with a match string such as `idx_1`.
 */
module UrlTemplate {
  import opened Wrappers
  import opened Text

  /** Python's `\w`, on ASCII. */
  predicate IsWordChar(c: char) {
    ('a' <= c <= 'z') || ('A' <= c <= 'Z') || ('0' <= c <= '9') || c == '_'
  }

  predicate IsWord(s: string) {
    |s| > 0 && forall k :: 0 <= k < |s| ==> IsWordChar(s[k])
  }

  /** The length of the run of word characters at `i`. */
  function WordRun(s: string, i: nat): (n: nat)
    requires i <= |s|
    ensures i + n <= |s|
    ensures forall k :: i <= k < i + n ==> IsWordChar(s[k])
    ensures i + n == |s| || !IsWordChar(s[i + n])
    decreases |s| - i
  {
    if i < |s| && IsWordChar(s[i]) then 1 + WordRun(s, i + 1) else 0
  }

  /** The length of the run of whitespace at `i`. */
  function SpaceRun(s: string, i: nat): (n: nat)
    requires i <= |s|
    ensures i + n <= |s|
    ensures forall k :: i <= k < i + n ==> IsSpace(s[k])
    ensures i + n == |s| || !IsSpace(s[i + n])
    decreases |s| - i
  {
    if i < |s| && IsSpace(s[i]) then 1 + SpaceRun(s, i + 1) else 0
  }

  predicate ClosesAt(s: string, k: nat) {
    k + 2 <= |s| && s[k] == RightBrace && s[k + 1] == RightBrace
  }

  /** Where the lazy `.+?` before the closing double brace stops, scanning from `p`: the first closing pair, unless a line break comes first. */
  function CloseFrom(s: string, p: nat): (r: Option<nat>)
    requires p <= |s|
    ensures r.Some? ==> p <= r.value && ClosesAt(s, r.value)
    ensures r.Some? ==> forall k :: p <= k < r.value ==> s[k] != '\n' && !ClosesAt(s, k)
    decreases |s| - p
  {
    if p + 2 > |s| then None
    else if ClosesAt(s, p) then Some(p)
    else if s[p] == '\n' then None
    else CloseFrom(s, p + 1)
  }

  /** One `{{key:spec}}` rule found in the text, and the index just past it. */
  datatype RangeRule = RangeRule(key: string, spec: string, end: nat)

  /** A rule's text is its braces, key, colon and value put together. */
  lemma RuleSlices(s: string, j: nat, c: nat, e: nat)
    requires j + 2 < c < e && e + 2 <= |s|
    requires s[j] == LeftBrace && s[j + 1] == LeftBrace && s[c] == ':' && s[e] == RightBrace && s[e + 1] == RightBrace
    ensures s[j..e + 2] == "{{" + s[j + 2..c] + ":" + s[c + 1..e] + "}}"
  {
    assert s[j..e + 2] == s[j..j + 2] + s[j + 2..c] + s[c..c + 1] + s[c + 1..e] + s[e..e + 2];
    assert s[j..j + 2] == "{{" && s[c..c + 1] == ":" && s[e..e + 2] == "}}";
  }

  /** `\{\{(\w+?):(.+?)\}\}` matched at `j`. */
  function RuleAt(s: string, j: nat): (r: Option<RangeRule>)
    requires j <= |s|
    ensures r.Some? ==> j < r.value.end <= |s| && s[j..r.value.end] == "{{" + r.value.key + ":" + r.value.spec + "}}"
    ensures r.Some? ==> IsWord(r.value.key) && |r.value.spec| > 0 && '\n' !in r.value.spec
  {
    if j + 2 <= |s| && s[j] == LeftBrace && s[j + 1] == LeftBrace then
      var k := j + 2;
      var c := k + WordRun(s, k);
      if c > k && c + 1 < |s| && s[c] == ':' && s[c + 1] != '\n' then
        match CloseFrom(s, c + 2)
        case Some(e) =>
          RuleSlices(s, j, c, e);
          Some(RangeRule(s[k..c], s[c + 1..e], e + 2))
        case None => None
      else None
    else None
  }

  /** `re.findall(r'\{\{(\w+?):(.+?)\}\}', s[p..])`: the rules left to right, without overlaps. */
  function FindRules(s: string, p: nat): (r: seq<RangeRule>)
    requires p <= |s|
    decreases |s| - p
  {
    if p >= |s| then []
    else
      match RuleAt(s, p)
      case Some(m) => [m] + FindRules(s, m.end)
      case None => FindRules(s, p + 1)
  }

  /** `\{\{(\w+?)\}\}` matched at `j`: the key and the index just past it. */
  function PlaceholderAt(s: string, j: nat): (r: Option<(string, nat)>)
    requires j <= |s|
    ensures r.Some? ==> j < r.value.1 <= |s| && s[j..r.value.1] == Literal(r.value.0) && IsWord(r.value.0)
  {
    if j + 2 <= |s| && s[j] == LeftBrace && s[j + 1] == LeftBrace then
      var k := j + 2;
      var c := k + WordRun(s, k);
      if c > k && ClosesAt(s, c) then
        LiteralSlices(s, j, c);
        Some((s[k..c], c + 2))
      else None
    else None
  }

  /** A placeholder's text is its key between double braces. */
  lemma LiteralSlices(s: string, j: nat, c: nat)
    requires j + 2 <= c && c + 2 <= |s|
    requires s[j] == LeftBrace && s[j + 1] == LeftBrace && s[c] == RightBrace && s[c + 1] == RightBrace
    ensures s[j..c + 2] == Literal(s[j + 2..c])
  {
    assert s[j..c + 2] == s[j..j + 2] + s[j + 2..c] + s[c..c + 2];
    assert s[j..j + 2] == "{{" && s[c..c + 2] == "}}";
  }

  /** `re.findall(r'\{\{(\w+?)\}\}', s[p..])`: the template's placeholders in order. */
  function FindPlaceholders(s: string, p: nat): (r: seq<string>)
    requires p <= |s|
    ensures forall k :: 0 <= k < |r| ==> IsWord(r[k])
    decreases |s| - p
  {
    if p >= |s| then []
    else
      match PlaceholderAt(s, p)
      case Some(m) => [m.0] + FindPlaceholders(s, m.1)
      case None => FindPlaceholders(s, p + 1)
  }

  /** `_placeholder_literal`. */
  function Literal(key: string): string {
    "{{" + key + "}}"
  }

  /** Reading the literal of a key back gives the key: the placeholder found in `{{key}}` is `key`. */
  lemma LiteralParses(key: string)
    requires IsWord(key)
    ensures FindPlaceholders(Literal(key), 0) == [key]
  {
    var s := Literal(key);
    assert WordRun(s, 2) == |key| by {
      WordRunOver(s, 2, |key|);
    }
    assert s[2..2 + |key|] == key;
    assert PlaceholderAt(s, 0) == Some((key, |s|));
  }

  lemma {:induction false} WordRunOver(s: string, i: nat, n: nat)
    requires i + n < |s| && !IsWordChar(s[i + n])
    requires forall k :: i <= k < i + n ==> IsWordChar(s[k])
    ensures WordRun(s, i) == n
    decreases n
  {
    if n > 0 {
      WordRunOver(s, i + 1, n - 1);
    }
  }

  /**
   * `re.search(r'\s+\{\{(\w+?):(.+?)\}\}', s[p..]).start()`: the leftmost
   * whitespace whose run is followed by a rule.
   */
  function RulesStart(s: string, p: nat): (r: Option<nat>)
    requires p <= |s|
    ensures r.Some? ==> p <= r.value < |s| && RuleFollows(s, r.value)
    ensures forall i :: p <= i < |s| && (r.None? || i < r.value) ==> !RuleFollows(s, i)
    decreases |s| - p
  {
    if p >= |s| then None
    else if RuleFollows(s, p) then Some(p)
    else RulesStart(s, p + 1)
  }

  /** At `i` starts a run of whitespace with a rule right after it. */
  predicate RuleFollows(s: string, i: nat)
    requires i < |s|
  {
    IsSpace(s[i]) && RuleAt(s, i + SpaceRun(s, i)).Some?
  }

  /** A rule's values: an inclusive integer range, or a list of texts. */
  datatype Spec = IntRange(lo: nat, hi: nat) | TextItems(items: seq<string>)

  /** `re.match(r'^\d+-\d+$', spec)`, and the two bounds it names. */
  function RangeOf(spec: string): Option<(nat, nat)> {
    var parts := Split(spec, "-");
    if |parts| == 2 && IsDigits(parts[0]) && IsDigits(parts[1]) then Some((DigitsValue(parts[0]), DigitsValue(parts[1])))
    else None
  }

  lemma {:induction false} DigitsHaveNoDash(s: string)
    requires forall k :: 0 <= k < |s| ==> IsDigit(s[k])
    ensures !Contains(s, "-")
    decreases |s|
  {
    if |s| > 0 {
      assert s[0] != '-';
      DigitsHaveNoDash(s[1..]);
    }
  }

  /** A spec is a range exactly when it is digits, a dash and digits; the bounds are their values. */
  lemma RangeOfForm(spec: string)
    ensures RangeOf(spec).Some? <==> exists a, b :: IsDigits(a) && IsDigits(b) && spec == a + "-" + b
    ensures forall a, b :: IsDigits(a) && IsDigits(b) && spec == a + "-" + b ==> RangeOf(spec) == Some((DigitsValue(a), DigitsValue(b)))
  {
    RangeOfWitness(spec);
    RangeOfJoined(spec);
  }

  lemma RangeOfWitness(spec: string)
    ensures RangeOf(spec).Some? ==> exists a, b :: IsDigits(a) && IsDigits(b) && spec == a + "-" + b
  {
    if RangeOf(spec).Some? {
      RangeOfParts(spec);
      var parts := Split(spec, "-");
      assert IsDigits(parts[0]) && IsDigits(parts[1]) && spec == parts[0] + "-" + parts[1];
    }
  }

  lemma RangeOfJoined(spec: string)
    ensures forall a, b :: IsDigits(a) && IsDigits(b) && spec == a + "-" + b ==> RangeOf(spec) == Some((DigitsValue(a), DigitsValue(b)))
  {
    forall a, b | IsDigits(a) && IsDigits(b) && spec == a + "-" + b
      ensures RangeOf(spec) == Some((DigitsValue(a), DigitsValue(b)))
    {
      SplitDigitsDash(a, b);
    }
  }

  /** A range spec is its two digit runs joined by the dash. */
  lemma RangeOfParts(spec: string)
    requires RangeOf(spec).Some?
    ensures var parts := Split(spec, "-");
      |parts| == 2 && IsDigits(parts[0]) && IsDigits(parts[1]) && spec == parts[0] + "-" + parts[1]
  {
    var parts := Split(spec, "-");
    JoinSplit(spec, "-");
    assert Join("-", parts) == parts[0] + "-" + Join("-", parts[1..]);
    assert parts[1..] == [parts[1]];
  }

  lemma SplitDigitsDash(a: string, b: string)
    requires IsDigits(a) && IsDigits(b)
    ensures Split(a + "-" + b, "-") == [a, b]
  {
    var s := a + "-" + b;
    FindDash(a, b);
    assert s[..|a|] == a && s[|a| + 1..] == b;
    DigitsHaveNoDash(b);
  }

  /** The first dash of digits, a dash and digits is the one between them. */
  lemma FindDash(a: string, b: string)
    requires IsDigits(a)
    ensures Find(a + "-" + b, "-") == Some(|a|)
  {
    var s := a + "-" + b;
    forall j | 0 <= j < |a| ensures !("-" <= s[j..]) {
      assert s[j] == a[j];
    }
    assert s[|a|..|a| + 1] == "-";
    ContainsAt(s, "-", |a|);
    var f := Find(s, "-");
    assert "-" <= s[|a|..];
    assert s[f.value] == s[f.value..f.value + 1][0] == '-';
    assert f.value == |a|;
  }

  /** `[item.strip() for item in items]`. */
  function StripAll(items: seq<string>): (r: seq<string>)
    ensures |r| == |items| && forall k :: 0 <= k < |r| ==> r[k] == Strip(items[k])
  {
    seq(|items|, k requires 0 <= k < |items| => Strip(items[k]))
  }

  /** How one (stripped) spec reads: a range for digits-dash-digits, otherwise its comma-separated items, stripped. */
  function SpecOf(spec: string): Spec {
    match RangeOf(spec)
    case Some((lo, hi)) => IntRange(lo, hi)
    case None => TextItems(StripAll(Split(spec, ",")))
  }

  /** A value a placeholder takes. */
  datatype Value = IntValue(n: nat) | TextValue(t: string)

  /** `list(range(lo, hi + 1))`, or the list of items. */
  function Values(sp: Spec): (r: seq<Value>)
    ensures sp.IntRange? ==> |r| == (if sp.lo <= sp.hi then sp.hi - sp.lo + 1 else 0)
    ensures sp.IntRange? ==> forall k :: 0 <= k < |r| ==> r[k] == IntValue(sp.lo + k)
    ensures sp.TextItems? ==> |r| == |sp.items| && forall k :: 0 <= k < |r| ==> r[k] == TextValue(sp.items[k])
  {
    match sp
    case IntRange(lo, hi) => seq(if lo <= hi then hi - lo + 1 else 0, k requires 0 <= k => IntValue(lo + k))
    case TextItems(items) => seq(|items|, k requires 0 <= k < |items| => TextValue(items[k]))
  }

  /** The `replacements_data` dict: each rule, in order, sets its key. */
  function Replacements(rules: seq<RangeRule>): (r: map<string, Spec>)
    ensures r.Keys == set i | 0 <= i < |rules| :: Strip(rules[i].key)
  {
    if rules == [] then map[]
    else
      var last := rules[|rules| - 1];
      var p := rules[..|rules| - 1];
      RuleKeysAppend(p, last);
      assert p + [last] == rules;
      Replacements(p)[Strip(last.key) := SpecOf(Strip(last.spec))]
  }

  /** One more rule adds exactly its stripped key. */
  lemma RuleKeysAppend(p: seq<RangeRule>, last: RangeRule)
    ensures (set i | 0 <= i < |p + [last]| :: Strip((p + [last])[i].key))
      == (set i | 0 <= i < |p| :: Strip(p[i].key)) + {Strip(last.key)}
  {
    var rules := p + [last];
    assert rules[|p|] == last;
    assert forall i :: 0 <= i < |p| ==> rules[i] == p[i];
  }

  /** A later rule for the same key overrides an earlier one: each key holds the spec of its last rule. */
  lemma {:induction false} ReplacementsLast(rules: seq<RangeRule>, i: nat)
    requires i < |rules|
    requires forall j :: i < j < |rules| ==> Strip(rules[j].key) != Strip(rules[i].key)
    ensures Replacements(rules)[Strip(rules[i].key)] == SpecOf(Strip(rules[i].spec))
    decreases |rules|
  {
    if i < |rules| - 1 {
      var p := rules[..|rules| - 1];
      ReplacementsLast(p, i);
    }
  }

  /** What `parse_input_string` returns. */
  datatype Parsed = Parsed(template: string, data: map<string, Spec>, placeholders: seq<string>)

  /** The template, and the text of the rules after it. */
  function SplitInput(s: string): (string, string) {
    match RulesStart(s, 0)
    case Some(i) => (Strip(s[..i]), Strip(s[i..]))
    case None => (s, "")
  }

  /** `parse_input_string`. */
  function Parse(input: string): Parsed {
    var (template, rulesText) := SplitInput(Strip(input));
    Parsed(template, Replacements(FindRules(rulesText, 0)), FindPlaceholders(template, 0))
  }

  /** With no whitespace-preceded rule the whole stripped input is the template and there are no rules. */
  lemma NoRulesWholeTemplate(input: string)
    requires RulesStart(Strip(input), 0).None?
    ensures Parse(input).template == Strip(input) && Parse(input).data == map[]
  {
  }

  /** The rules found in the text of the rules, in order, one dict update each (`parse_input_string`'s loop). */
  method ParseInputString(input: string) returns (parsed: Parsed)
    ensures parsed == Parse(input)
  {
    var (template, rulesText) := SplitInput(Strip(input));
    var rules := FindRules(rulesText, 0);
    var data: map<string, Spec> := map[];
    for i := 0 to |rules|
      invariant data == Replacements(rules[..i])
    {
      ReplacementsStep(rules, i);
      data := data[Strip(rules[i].key) := SpecOf(Strip(rules[i].spec))];
    }
    assert rules[..|rules|] == rules;
    parsed := Parsed(template, data, FindPlaceholders(template, 0));
  }

  /** One more rule sets its key over the dict so far. */
  lemma ReplacementsStep(rules: seq<RangeRule>, i: nat)
    requires i < |rules|
    ensures Replacements(rules[..i + 1]) == Replacements(rules[..i])[Strip(rules[i].key) := SpecOf(Strip(rules[i].spec))]
  {
    assert rules[..i + 1][..i] == rules[..i];
  }

  /** The placeholder has values: a rule whose list is not empty. */
  predicate HasRule(data: map<string, Spec>, key: string) {
    key in data && |Values(data[key])| > 0
  }

  /** A placeholder's values: its rule's, or the raw placeholder text alone when it has none. */
  function ValueList(data: map<string, Spec>, key: string): (r: seq<Value>)
    ensures HasRule(data, key) ==> r == Values(data[key])
    ensures !HasRule(data, key) ==> r == [TextValue(Literal(key))]
  {
    if HasRule(data, key) then Values(data[key]) else [TextValue(Literal(key))]
  }

  /** The value lists of `_build_ordered_value_lists`, one per placeholder in order. */
  function ValueLists(data: map<string, Spec>, placeholders: seq<string>): (r: seq<seq<Value>>)
    ensures |r| == |placeholders| && forall i :: 0 <= i < |r| ==> r[i] == ValueList(data, placeholders[i])
  {
    seq(|placeholders|, i requires 0 <= i < |placeholders| => ValueList(data, placeholders[i]))
  }

  /** One more placeholder adds its value list, and its key. */
  lemma ValueListsStep(data: map<string, Spec>, placeholders: seq<string>, i: nat)
    requires i < |placeholders|
    ensures ValueLists(data, placeholders[..i + 1]) == ValueLists(data, placeholders[..i]) + [ValueList(data, placeholders[i])]
    ensures forall k :: k in placeholders[..i + 1] <==> k in placeholders[..i] || k == placeholders[i]
  {
    assert placeholders[..i + 1] == placeholders[..i] + [placeholders[i]];
  }

  /** `_build_ordered_value_lists`: the value lists, and which placeholders have rules. */
  method BuildOrderedValueLists(placeholders: seq<string>, data: map<string, Spec>) returns (lists: seq<seq<Value>>, withRules: map<string, bool>)
    ensures lists == ValueLists(data, placeholders)
    ensures forall i :: 0 <= i < |placeholders| ==> placeholders[i] in withRules
    ensures forall k :: k in withRules ==> k in placeholders && withRules[k] == HasRule(data, k)
  {
    lists := [];
    withRules := map[];
    for i := 0 to |placeholders|
      invariant lists == ValueLists(data, placeholders[..i])
      invariant forall j :: 0 <= j < i ==> placeholders[j] in withRules
      invariant forall k :: k in withRules ==> k in placeholders[..i] && withRules[k] == HasRule(data, k)
    {
      var ph := placeholders[i];
      ValueListsStep(data, placeholders, i);
      if ph in data && |Values(data[ph])| > 0 {
        lists := lists + [Values(data[ph])];
        withRules := withRules[ph := true];
        continue;
      }
      lists := lists + [[TextValue(Literal(ph))]];
      withRules := withRules[ph := false];
    }
    assert placeholders[..|placeholders|] == placeholders;
  }

  /** The product of the lists' lengths. */
  function Count(lists: seq<seq<Value>>): nat {
    if lists == [] then 1 else |lists[0]| * Count(lists[1..])
  }

  /** `[h] + t` for every tail `t`, in order. */
  function Prefixed(h: Value, tails: seq<seq<Value>>): (r: seq<seq<Value>>)
    ensures |r| == |tails| && forall k :: 0 <= k < |r| ==> r[k] == [h] + tails[k]
  {
    seq(|tails|, k requires 0 <= k < |tails| => [h] + tails[k])
  }

  /** Every head in front of every tail, heads in order. */
  function Prepend(heads: seq<Value>, tails: seq<seq<Value>>): (r: seq<seq<Value>>)
    ensures |r| == |heads| * |tails|
  {
    if heads == [] then []
    else
      var r := Prefixed(heads[0], tails) + Prepend(heads[1..], tails);
      assert |heads| * |tails| == |tails| + |heads[1..]| * |tails|;
      r
  }

  lemma {:induction false} PrependMember(heads: seq<Value>, tails: seq<seq<Value>>, c: seq<Value>)
    requires c in Prepend(heads, tails)
    ensures |c| > 0 && c[0] in heads && c[1..] in tails
    decreases |heads|
  {
    if c !in Prefixed(heads[0], tails) {
      PrependMember(heads[1..], tails, c);
    }
  }

  lemma {:induction false} PrependComplete(heads: seq<Value>, tails: seq<seq<Value>>, h: Value, t: seq<Value>)
    requires h in heads && t in tails
    ensures [h] + t in Prepend(heads, tails)
    decreases |heads|
  {
    if h == heads[0] {
      var k :| 0 <= k < |tails| && tails[k] == t;
      assert Prefixed(h, tails)[k] == [h] + t;
    } else {
      PrependComplete(heads[1..], tails, h, t);
    }
  }

  /**
   * `itertools.product(*lists)`: every way of taking one value from each
   * list, the last list varying fastest; as many as the product of the
   * lists' lengths.
   */
  function Product(lists: seq<seq<Value>>): (r: seq<seq<Value>>)
    ensures |r| == Count(lists)
    decreases |lists|
  {
    if lists == [] then [[]] else Prepend(lists[0], Product(lists[1..]))
  }

  /** Each combination takes one value from each list. */
  lemma {:induction false} ProductMember(lists: seq<seq<Value>>, c: seq<Value>)
    requires c in Product(lists)
    ensures |c| == |lists| && forall i :: 0 <= i < |c| ==> c[i] in lists[i]
    decreases |lists|
  {
    if lists != [] {
      PrependMember(lists[0], Product(lists[1..]), c);
      ProductMember(lists[1..], c[1..]);
      assert forall i :: 1 <= i < |c| ==> c[i] == c[1..][i - 1];
    }
  }

  /** Every combination is produced: one value from each list, in any choice. */
  lemma {:induction false} ProductComplete(lists: seq<seq<Value>>, c: seq<Value>)
    requires |c| == |lists| && forall i :: 0 <= i < |c| ==> c[i] in lists[i]
    ensures c in Product(lists)
    decreases |lists|
  {
    if lists != [] {
      assert forall i :: 0 <= i < |c[1..]| ==> c[1..][i] == c[i + 1];
      ProductComplete(lists[1..], c[1..]);
      PrependComplete(lists[0], Product(lists[1..]), c[0], c[1..]);
      assert c == [c[0]] + c[1..];
    }
  }

  /**
   * The text a value is written as: a range value is zero-padded to the
   * number of digits of the range's largest value; any other value is
   * written as it is.
   */
  function Rendered(data: map<string, Spec>, key: string, v: Value): string {
    match v
    case TextValue(t) => t
    case IntValue(n) =>
      if key in data && data[key].IntRange? && |Values(data[key])| > 0 then ZFill(NatToString(n), |NatToString(data[key].hi)|)
      else NatToString(n)
  }

  /** The largest value of a non-empty range is its upper bound, the number `max` pads to. */
  lemma RangeMax(sp: Spec)
    requires sp.IntRange? && sp.lo <= sp.hi
    ensures IntValue(sp.hi) in Values(sp)
    ensures forall k :: 0 <= k < |Values(sp)| ==> Values(sp)[k].n <= sp.hi
  {
    assert Values(sp)[sp.hi - sp.lo] == IntValue(sp.hi);
  }

  /** Every value of a range is written with as many digits as its largest value: leading zeros, then its decimal digits. */
  lemma RangeValuesPadded(data: map<string, Spec>, key: string, n: nat)
    requires key in data && data[key].IntRange? && data[key].lo <= n <= data[key].hi
    ensures |NatToString(n)| <= |NatToString(data[key].hi)|
    ensures Rendered(data, key, IntValue(n)) == Repeat('0', |NatToString(data[key].hi)| - |NatToString(n)|) + NatToString(n)
    ensures |Rendered(data, key, IntValue(n))| == |NatToString(data[key].hi)|
  {
    NatToStringLengthMonotone(n, data[key].hi);
    NatToStringRoundTrip(n);
    assert IsDigit(NatToString(n)[0]);
  }

  /** One placeholder filled: the first remaining `{{key}}` replaced, and a `key_value` part when the key has a rule. */
  function FillStep(data: map<string, Spec>, state: (string, seq<string>), key: string, v: Value): (string, seq<string>) {
    var text := Rendered(data, key, v);
    (ReplaceFirst(state.0, Literal(key), text), if HasRule(data, key) then state.1 + [key + "_" + text] else state.1)
  }

  /** The URL and the match parts after the first `n` placeholders of a combination. */
  function Fill(template: string, data: map<string, Spec>, placeholders: seq<string>, combo: seq<Value>, n: nat): (string, seq<string>)
    requires n <= |combo| && n <= |placeholders|
  {
    if n == 0 then (template, [])
    else FillStep(data, Fill(template, data, placeholders, combo, n - 1), placeholders[n - 1], combo[n - 1])
  }

  /** The URL and match string of one combination. */
  function Filled(template: string, data: map<string, Spec>, placeholders: seq<string>, combo: seq<Value>): (string, string) {
    var filled := Fill(template, data, placeholders, combo, Min(|combo|, |placeholders|));
    (filled.0, Join("_", filled.1))
  }

  function Min(a: nat, b: nat): nat {
    if a <= b then a else b
  }

  /** Nothing to fill: no placeholder in the template, or no rule at all. */
  predicate Trivial(data: map<string, Spec>, placeholders: seq<string>) {
    placeholders == [] || data == map[]
  }

  /**
   * `generate_urls_with_match_strings`: the template with an empty match
   * string when there is nothing to fill, otherwise one result per
   * combination of the placeholders' value lists, in product order.
   */
  function Results(template: string, data: map<string, Spec>, placeholders: seq<string>): (r: seq<(string, string)>)
    ensures Trivial(data, placeholders) ==> r == [(template, "")]
    ensures !Trivial(data, placeholders) ==> |r| == Count(ValueLists(data, placeholders))
  {
    if Trivial(data, placeholders) then [(template, "")]
    else
      var combos := Product(ValueLists(data, placeholders));
      seq(|combos|, c requires 0 <= c < |combos| => Filled(template, data, placeholders, combos[c]))
  }

  /** `generate_urls`: the URLs alone, the template alone when there is nothing to fill. */
  function Urls(template: string, data: map<string, Spec>, placeholders: seq<string>): (r: seq<string>)
    ensures Trivial(data, placeholders) ==> r == [template]
  {
    if Trivial(data, placeholders) then [template]
    else
      var combos := Product(ValueLists(data, placeholders));
      seq(|combos|, c requires 0 <= c < |combos| => Filled(template, data, placeholders, combos[c]).0)
  }

  /** The two generators agree: `generate_urls` gives the URLs of `generate_urls_with_match_strings`, in order. */
  lemma UrlsAreResultUrls(template: string, data: map<string, Spec>, placeholders: seq<string>)
    ensures |Urls(template, data, placeholders)| == |Results(template, data, placeholders)|
    ensures forall c :: 0 <= c < |Urls(template, data, placeholders)| ==>
      Urls(template, data, placeholders)[c] == Results(template, data, placeholders)[c].0
  {
  }

  /** Each placeholder takes at least one value, so there is always at least one result. */
  lemma {:induction false} CountPositive(lists: seq<seq<Value>>)
    requires forall i :: 0 <= i < |lists| ==> |lists[i]| > 0
    ensures Count(lists) > 0
    decreases |lists|
  {
    if lists != [] {
      CountPositive(lists[1..]);
    }
  }

  lemma ResultsNonEmpty(template: string, data: map<string, Spec>, placeholders: seq<string>)
    ensures |Results(template, data, placeholders)| >= 1
  {
    CountPositive(ValueLists(data, placeholders));
  }

  /** Replacing the raw `{{key}}` by itself changes nothing: a placeholder without values stays as raw text. */
  lemma LiteralStays(data: map<string, Spec>, state: (string, seq<string>), key: string)
    requires !HasRule(data, key)
    ensures FillStep(data, state, key, TextValue(Literal(key))) == state
  {
    var s := state.0;
    var lit := Literal(key);
    var f := Find(s, lit);
    if f.Some? {
      ReplaceFirstAt(s, lit, lit);
      ThreeParts(s, f.value, f.value + |lit|);
    } else {
      ReplaceFirstAbsent(s, lit, lit);
    }
  }

  /** The parts are one `key_value` per placeholder, for the first `n` placeholders. */
  predicate PartsFor(data: map<string, Spec>, placeholders: seq<string>, combo: seq<Value>, parts: seq<string>, n: nat)
    requires n <= |combo| && n <= |placeholders|
  {
    |parts| == n &&
    forall i :: 0 <= i < n ==> parts[i] == placeholders[i] + "_" + Rendered(data, placeholders[i], combo[i])
  }

  lemma PartsForExtend(data: map<string, Spec>, placeholders: seq<string>, combo: seq<Value>, prev: seq<string>, n: nat)
    requires 0 < n <= |combo| && n <= |placeholders|
    requires PartsFor(data, placeholders, combo, prev, n - 1)
    ensures PartsFor(data, placeholders, combo,
      prev + [placeholders[n - 1] + "_" + Rendered(data, placeholders[n - 1], combo[n - 1])], n)
  {
  }

  /** When every placeholder has a rule the match parts are one `key_value` per placeholder, in template order. */
  lemma {:induction false} MatchPartsAllRuled(template: string, data: map<string, Spec>, placeholders: seq<string>, combo: seq<Value>, n: nat)
    requires n <= |combo| && n <= |placeholders|
    requires forall i :: 0 <= i < n ==> HasRule(data, placeholders[i])
    ensures PartsFor(data, placeholders, combo, Fill(template, data, placeholders, combo, n).1, n)
    decreases n
  {
    if n > 0 {
      MatchPartsAllRuled(template, data, placeholders, combo, n - 1);
      PartsForExtend(data, placeholders, combo, Fill(template, data, placeholders, combo, n - 1).1, n);
    }
  }

  /** When no placeholder has a rule there is no match part, and the match string is empty. */
  lemma {:induction false} MatchPartsNoneRuled(template: string, data: map<string, Spec>, placeholders: seq<string>, combo: seq<Value>, n: nat)
    requires n <= |combo| && n <= |placeholders|
    requires forall i :: 0 <= i < n ==> !HasRule(data, placeholders[i])
    ensures Fill(template, data, placeholders, combo, n).1 == []
    decreases n
  {
    if n > 0 {
      MatchPartsNoneRuled(template, data, placeholders, combo, n - 1);
    }
  }

  /**
   * `parts` are the `key_value` parts of the placeholders at the increasing
   * positions `idx`, and those positions are exactly the ruled placeholders
   * among the first `n`.
   */
  predicate PartsAt(data: map<string, Spec>, placeholders: seq<string>, combo: seq<Value>, parts: seq<string>, idx: seq<nat>, n: nat)
    requires n <= |combo| && n <= |placeholders|
  {
    && |idx| == |parts|
    && (forall k :: 0 <= k < |idx| ==> idx[k] < n && parts[k] == placeholders[idx[k]] + "_" + Rendered(data, placeholders[idx[k]], combo[idx[k]]))
    && (forall k, l :: 0 <= k < l < |idx| ==> idx[k] < idx[l])
    && (forall i :: 0 <= i < n ==> (HasRule(data, placeholders[i]) <==> i in idx))
  }

  /** A ruled placeholder adds its position and its part. */
  lemma PartsAtRuled(data: map<string, Spec>, placeholders: seq<string>, combo: seq<Value>, parts: seq<string>, idx: seq<nat>, n: nat)
    requires 0 < n <= |combo| && n <= |placeholders|
    requires PartsAt(data, placeholders, combo, parts, idx, n - 1) && HasRule(data, placeholders[n - 1])
    ensures PartsAt(data, placeholders, combo,
      parts + [placeholders[n - 1] + "_" + Rendered(data, placeholders[n - 1], combo[n - 1])], idx + [n - 1], n)
  {
  }

  /** An unruled placeholder adds nothing. */
  lemma PartsAtUnruled(data: map<string, Spec>, placeholders: seq<string>, combo: seq<Value>, parts: seq<string>, idx: seq<nat>, n: nat)
    requires 0 < n <= |combo| && n <= |placeholders|
    requires PartsAt(data, placeholders, combo, parts, idx, n - 1) && !HasRule(data, placeholders[n - 1])
    ensures PartsAt(data, placeholders, combo, parts, idx, n)
  {
    assert forall k :: 0 <= k < |idx| ==> idx[k] != n - 1;
  }

  /** In general the match parts are one `key_value` per ruled placeholder, in template order, and none for the others. */
  lemma {:induction false} MatchPartsRuled(template: string, data: map<string, Spec>, placeholders: seq<string>, combo: seq<Value>, n: nat)
    requires n <= |combo| && n <= |placeholders|
    ensures exists idx :: PartsAt(data, placeholders, combo, Fill(template, data, placeholders, combo, n).1, idx, n)
    decreases n
  {
    if n == 0 {
      var none: seq<nat> := [];
      assert PartsAt(data, placeholders, combo, Fill(template, data, placeholders, combo, 0).1, none, 0);
    } else {
      MatchPartsRuled(template, data, placeholders, combo, n - 1);
      var prev := Fill(template, data, placeholders, combo, n - 1).1;
      var idx: seq<nat> :| PartsAt(data, placeholders, combo, prev, idx, n - 1);
      var key := placeholders[n - 1];
      var part := key + "_" + Rendered(data, key, combo[n - 1]);
      assert Fill(template, data, placeholders, combo, n).1 == if HasRule(data, key) then prev + [part] else prev;
      if HasRule(data, key) {
        PartsAtRuled(data, placeholders, combo, prev, idx, n);
      } else {
        PartsAtUnruled(data, placeholders, combo, prev, idx, n);
      }
    }
  }

  /** The inner loop of `generate_urls_with_match_strings`, over the placeholders of one combination. */
  method FillCombo(template: string, data: map<string, Spec>, placeholders: seq<string>, withRules: map<string, bool>, combo: seq<Value>)
    returns (url: string, parts: seq<string>)
    requires |combo| == |placeholders|
    requires forall i :: 0 <= i < |placeholders| ==>
      placeholders[i] in withRules && withRules[placeholders[i]] == HasRule(data, placeholders[i])
    ensures (url, parts) == Fill(template, data, placeholders, combo, |combo|)
  {
    var state := (template, []);
    for i := 0 to |combo|
      invariant state == Fill(template, data, placeholders, combo, i)
    {
      state := FillPlaceholder(template, data, placeholders, combo, i, withRules, state);
    }
    url, parts := state.0, state.1;
  }

  /** One placeholder of the inner loop: its value replaces it, and a ruled key adds its match part. */
  method FillPlaceholder(template: string, data: map<string, Spec>, placeholders: seq<string>, combo: seq<Value>, i: nat,
                         withRules: map<string, bool>, state: (string, seq<string>))
    returns (nextState: (string, seq<string>))
    requires i < |combo| && i < |placeholders|
    requires placeholders[i] in withRules && withRules[placeholders[i]] == HasRule(data, placeholders[i])
    requires state == Fill(template, data, placeholders, combo, i)
    ensures nextState == Fill(template, data, placeholders, combo, i + 1)
  {
    var key := placeholders[i];
    var text := Rendered(data, key, combo[i]);
    var url := ReplaceFirst(state.0, Literal(key), text);
    nextState := (url, if withRules[key] then state.1 + [key + "_" + text] else state.1);
  }

  /** The results so far are those of the first combinations, in order. */
  predicate FilledPrefix(template: string, data: map<string, Spec>, placeholders: seq<string>, combos: seq<seq<Value>>, results: seq<(string, string)>) {
    |results| <= |combos| &&
    forall k :: 0 <= k < |results| ==> results[k] == Filled(template, data, placeholders, combos[k])
  }

  lemma FilledPrefixExtend(template: string, data: map<string, Spec>, placeholders: seq<string>, combos: seq<seq<Value>>, results: seq<(string, string)>)
    requires FilledPrefix(template, data, placeholders, combos, results) && |results| < |combos|
    ensures FilledPrefix(template, data, placeholders, combos, results + [Filled(template, data, placeholders, combos[|results|])])
  {
  }

  /** The URLs so far are those of the first combinations, in order. */
  predicate UrlPrefix(template: string, data: map<string, Spec>, placeholders: seq<string>, combos: seq<seq<Value>>, urls: seq<string>) {
    |urls| <= |combos| &&
    forall k :: 0 <= k < |urls| ==> urls[k] == Filled(template, data, placeholders, combos[k]).0
  }

  lemma UrlPrefixExtend(template: string, data: map<string, Spec>, placeholders: seq<string>, combos: seq<seq<Value>>, urls: seq<string>)
    requires UrlPrefix(template, data, placeholders, combos, urls) && |urls| < |combos|
    ensures UrlPrefix(template, data, placeholders, combos, urls + [Filled(template, data, placeholders, combos[|urls|]).0])
  {
  }

  /** `generate_urls_with_match_strings`. */
  method GenerateUrlsWithMatchStrings(template: string, data: map<string, Spec>, placeholders: seq<string>) returns (results: seq<(string, string)>)
    ensures results == Results(template, data, placeholders)
  {
    if |placeholders| == 0 || |data| == 0 {
      return [(template, "")];
    }
    var lists, withRules := BuildOrderedValueLists(placeholders, data);
    var combos := Product(lists);
    results := [];
    for c := 0 to |combos|
      invariant |results| == c
      invariant FilledPrefix(template, data, placeholders, combos, results)
    {
      assert combos[c] in combos;
      ProductMember(lists, combos[c]);
      var url, parts := FillCombo(template, data, placeholders, withRules, combos[c]);
      FilledPrefixExtend(template, data, placeholders, combos, results);
      results := results + [(url, Join("_", parts))];
    }
  }

  /** `generate_urls`. */
  method GenerateUrls(template: string, data: map<string, Spec>, placeholders: seq<string>) returns (urls: seq<string>)
    ensures urls == Urls(template, data, placeholders)
  {
    if |placeholders| == 0 || |data| == 0 {
      return [template];
    }
    var lists, withRules := BuildOrderedValueLists(placeholders, data);
    var combos := Product(lists);
    urls := [];
    for c := 0 to |combos|
      invariant |urls| == c
      invariant UrlPrefix(template, data, placeholders, combos, urls)
    {
      assert combos[c] in combos;
      ProductMember(lists, combos[c]);
      var url, _ := FillCombo(template, data, placeholders, withRules, combos[c]);
      UrlPrefixExtend(template, data, placeholders, combos, urls);
      urls := urls + [url];
    }
  }
}
