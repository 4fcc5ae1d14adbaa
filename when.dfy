/**
 * Stage gating of interaction actions: the `when` field of an action lists
 * the attempts on which it runs (`_normalize_action_when_tokens`,
 * `_action_enabled_for_interaction_stage`).
 */
module WhenGate {
  import opened Wrappers
  import opened Text
  import opened JsonValue

  datatype Comparison = Eq | Gt | Ge | Lt | Le

  /** The right-hand side of a token: a number, or `last` for the number of tries. */
  datatype Bound = Num(n: int) | Last

  datatype Token = Token(op: Comparison, bound: Bound)

  /** What `_normalize_action_when_tokens` returns: `{"always"}`, `{"never"}` or a token list. */
  datatype WhenTokens = Always | Never | Tokens(items: seq<Token>)

  /** How one `when` value is read: ignored, or an explicit value that may or may not parse. */
  datatype Reading = Silent | Explicit(token: Option<Token>)

  /** A comparison with its operator and right-hand side: `^(==|=|>=|<=|>|<)(\d+|last)$`. */
  function ParseComparison(t: string): (r: Option<Token>) {
    var (op, rest) :=
      if StartsWith(t, "==") then (Some(Eq), t[2..])
      else if StartsWith(t, "=") then (Some(Eq), t[1..])
      else if StartsWith(t, ">=") then (Some(Ge), t[2..])
      else if StartsWith(t, "<=") then (Some(Le), t[2..])
      else if StartsWith(t, ">") then (Some(Gt), t[1..])
      else if StartsWith(t, "<") then (Some(Lt), t[1..])
      else (None, t);
    if op.None? then None
    else if rest == "last" then Some(Token(op.value, Last))
    else if IsDigits(rest) then Some(Token(op.value, Num(DigitsValue(rest))))
    else None
  }

  /** A cleaned token after the optional `attempt` / `attempt:` prefix is dropped. */
  function ParseToken(token: string): (r: Option<Token>) {
    var t :=
      if StartsWith(token, "attempt") then
        var u := token[7..];
        Strip(if StartsWith(u, ":") then u[1..] else u)
      else token;
    if IsDigits(t) then Some(Token(Eq, Num(DigitsValue(t)))) else ParseComparison(t)
  }

  /** `str(value).strip().lower().replace(" ", "")`. */
  function Cleaned(v: Json): string {
    RemoveChar(Lower(Strip(Str(v))), ' ')
  }

  /** One value of `when`: bools are ignored, numbers mean equality, and text is parsed unless blank or `null`. */
  function ReadValue(v: Json): Reading {
    match v
    case JBool(_) => Silent
    case JInt(i) => Explicit(Some(Token(Eq, Num(i))))
    case _ =>
      var token := Cleaned(v);
      if token == "" || token == "null" then Silent else Explicit(ParseToken(token))
  }

  /** Whether any value was explicit, and the tokens parsed, over a list of values. */
  datatype Scan = Scan(explicit: bool, tokens: seq<Token>)

  /** The scan of the values in order with the reading `read`, defined on the last value. */
  function Collect(read: Json -> Reading, values: seq<Json>): Scan {
    if values == [] then Scan(false, [])
    else Next(Collect(read, values[..|values| - 1]), read(values[|values| - 1]))
  }

  /** The scan after one more reading: an explicit value is noted, a parsed token kept. */
  function Next(s: Scan, reading: Reading): Scan {
    match reading
    case Silent => s
    case Explicit(None) => Scan(true, s.tokens)
    case Explicit(Some(t)) => Scan(true, s.tokens + [t])
  }

  lemma CollectStep(read: Json -> Reading, values: seq<Json>, i: nat)
    requires i < |values|
    ensures Collect(read, values[..i + 1]) == Next(Collect(read, values[..i]), read(values[i]))
  {
    assert values[..i + 1][..i] == values[..i];
  }

  /** The values of a `when`: the items of a list, or the value itself. */
  function WhenValues(raw: Json): seq<Json> {
    if raw.JArr? then raw.items else [raw]
  }

  /** `_normalize_action_when_tokens(raw_when)`. */
  function WhenTokensOf(raw: Json): WhenTokens {
    var scan := Collect(ReadValue, WhenValues(raw));
    if !scan.explicit then Always else if scan.tokens == [] then Never else Tokens(scan.tokens)
  }

  /** `_normalize_action_when_tokens`. */
  method NormalizeActionWhenTokens(raw: Json) returns (r: WhenTokens)
    ensures r == WhenTokensOf(raw)
  {
    var values := if raw.JArr? then raw.items else [raw];
    var parsed: seq<Token> := [];
    var hadExplicit := false;
    for i := 0 to |values|
      invariant Scan(hadExplicit, parsed) == Collect(ReadValue, values[..i])
    {
      CollectStep(ReadValue, values, i);
      hadExplicit, parsed := ReadWhenValue(values[i], hadExplicit, parsed);
    }
    assert values[..|values|] == values;
    if !hadExplicit {
      return Always;
    }
    if |parsed| == 0 {
      return Never;
    }
    return Tokens(parsed);
  }

  /** One value of the loop of `_normalize_action_when_tokens`. */
  method ReadWhenValue(v: Json, hadExplicit: bool, parsed: seq<Token>) returns (nextExplicit: bool, nextParsed: seq<Token>)
    ensures Scan(nextExplicit, nextParsed) == Next(Scan(hadExplicit, parsed), ReadValue(v))
  {
    nextExplicit, nextParsed := hadExplicit, parsed;
    match ReadValue(v) {
      case Silent =>
      case Explicit(token) =>
        nextExplicit := true;
        if token.Some? {
          nextParsed := nextParsed + [token.value];
        }
    }
  }

  /** No value was explicit exactly when every value is ignored. */
  lemma {:induction false} CollectExplicit(read: Json -> Reading, values: seq<Json>)
    ensures !Collect(read, values).explicit <==> forall i :: 0 <= i < |values| ==> read(values[i]).Silent?
  {
    if values != [] {
      var p := values[..|values| - 1];
      CollectExplicit(read, p);
      assert forall i :: 0 <= i < |p| ==> p[i] == values[i];
    }
  }

  /** No token was parsed exactly when every value is ignored or fails to parse. */
  lemma {:induction false} CollectNoTokens(read: Json -> Reading, values: seq<Json>)
    ensures Collect(read, values).tokens == [] <==>
      forall i :: 0 <= i < |values| ==> read(values[i]).Silent? || read(values[i]).token.None?
  {
    if values != [] {
      var p := values[..|values| - 1];
      CollectNoTokens(read, p);
      assert forall i :: 0 <= i < |p| ==> p[i] == values[i];
    }
  }

  /** Every token comes from a value that parses to it. */
  lemma {:induction false} CollectTokensFrom(read: Json -> Reading, values: seq<Json>)
    ensures forall k :: 0 <= k < |Collect(read, values).tokens| ==>
      exists i :: 0 <= i < |values| && read(values[i]) == Explicit(Some(Collect(read, values).tokens[k]))
  {
    if values != [] {
      var p := values[..|values| - 1];
      CollectTokensFrom(read, p);
      var ts := Collect(read, p).tokens;
      var r := Collect(read, values).tokens;
      var last := |values| - 1;
      assert |ts| <= |r| && forall k :: 0 <= k < |ts| ==> r[k] == ts[k];
      forall k | 0 <= k < |r| ensures exists i :: 0 <= i < |values| && read(values[i]) == Explicit(Some(r[k])) {
        if k < |ts| {
          var i :| 0 <= i < |p| && read(p[i]) == Explicit(Some(ts[k]));
          assert p[i] == values[i];
        } else {
          assert read(values[last]) == Explicit(Some(r[k]));
        }
      }
    } else {
      assert Collect(read, values).tokens == [];
    }
  }

  /** Every value that parses contributes its token. */
  lemma {:induction false} CollectTokensAll(read: Json -> Reading, values: seq<Json>)
    ensures forall i :: 0 <= i < |values| && read(values[i]).Explicit? && read(values[i]).token.Some? ==>
      read(values[i]).token.value in Collect(read, values).tokens
  {
    if values != [] {
      var p := values[..|values| - 1];
      CollectTokensAll(read, p);
      var ts := Collect(read, p).tokens;
      var r := Collect(read, values).tokens;
      var last := |values| - 1;
      assert forall x :: x in ts ==> x in r;
      forall i | 0 <= i < |values| && read(values[i]).Explicit? && read(values[i]).token.Some?
        ensures read(values[i]).token.value in r
      {
        if i < last {
          assert p[i] == values[i];
        } else {
          assert r == ts + [read(values[last]).token.value];
        }
      }
    }
  }

  /** The scan of a single value. */
  lemma CollectSingle(read: Json -> Reading, v: Json)
    ensures Collect(read, [v]) == match read(v)
      case Silent => Scan(false, [])
      case Explicit(None) => Scan(true, [])
      case Explicit(Some(t)) => Scan(true, [t])
  {
    assert [v][..0] == [];
  }

  /** An action with no `when`, or only bools, blanks and `"null"` in it, is always enabled. */
  lemma AlwaysIffSilent(raw: Json)
    ensures WhenTokensOf(raw) == Always <==> forall i :: 0 <= i < |WhenValues(raw)| ==> ReadValue(WhenValues(raw)[i]).Silent?
  {
    CollectExplicit(ReadValue, WhenValues(raw));
  }

  /** A `when` with explicit values none of which parses disables the action. */
  lemma NeverIffUnparseable(raw: Json)
    ensures WhenTokensOf(raw) == Never <==>
      (exists i :: 0 <= i < |WhenValues(raw)| && ReadValue(WhenValues(raw)[i]).Explicit?)
      && forall i :: 0 <= i < |WhenValues(raw)| ==> ReadValue(WhenValues(raw)[i]).Silent? || ReadValue(WhenValues(raw)[i]).token.None?
  {
    CollectExplicit(ReadValue, WhenValues(raw));
    CollectNoTokens(ReadValue, WhenValues(raw));
  }

  /** The attempt number the comparison uses: at least 1. */
  function AtLeastOne(n: int): (r: int)
    ensures r >= 1 && (n >= 1 ==> r == n)
  {
    if n < 1 then 1 else n
  }

  /** The attempt `attempt` passes the token, with `last` standing for `tries`. */
  predicate Admits(t: Token, attempt: int, tries: int) {
    var value := match t.bound case Last => tries case Num(n) => n;
    match t.op
    case Eq => attempt == value
    case Gt => attempt > value
    case Ge => attempt >= value
    case Lt => attempt < value
    case Le => attempt <= value
  }

  /** The `when` of an action: its own `when`, else `args.when`, else blank. */
  function RawWhen(action: Json): (r: Json)
    ensures HasKey(action, "when") ==> r == Get(action, "when").value
    ensures !HasKey(action, "when") && !HasKey(GetOr(action, "args", JObj([])), "when") ==> r == JStr("")
  {
    var args := GetOr(action, "args", JObj([]));
    var argsWhen := if args.JObj? then GetOr(args, "when", JStr("")) else JStr("");
    GetOr(action, "when", argsWhen)
  }

  /** Whether the tokens let attempt `attempt` of `tries` run. */
  predicate TokensAdmit(tokens: WhenTokens, attempt: int, tries: int) {
    match tokens
    case Always => true
    case Never => false
    case Tokens(ts) => exists i :: 0 <= i < |ts| && Admits(ts[i], AtLeastOne(attempt), AtLeastOne(tries))
  }

  /** `_action_enabled_for_interaction_stage(action, stage, attempt, tries)` (the stage is unused by the source). */
  predicate EnabledFor(action: Json, attempt: int, tries: int) {
    action.JObj? && TokensAdmit(WhenTokensOf(RawWhen(action)), attempt, tries)
  }

  /** `_action_enabled_for_interaction_stage`. */
  method ActionEnabledForInteractionStage(action: Json, attempt: int, tries: int) returns (enabled: bool)
    ensures enabled == EnabledFor(action, attempt, tries)
  {
    if !action.JObj? {
      return false;
    }
    var tokens := NormalizeActionWhenTokens(RawWhen(action));
    if tokens.Tokens? {
      var found := AnyAdmitted(tokens.items, AtLeastOne(attempt), AtLeastOne(tries));
      return found;
    }
    return tokens.Always?;
  }

  /** The loop of `_action_enabled_for_interaction_stage`: does some token admit the attempt? */
  method AnyAdmitted(ts: seq<Token>, attempt: int, tries: int) returns (found: bool)
    ensures found <==> exists i :: 0 <= i < |ts| && Admits(ts[i], attempt, tries)
  {
    for i := 0 to |ts|
      invariant forall k :: 0 <= k < i ==> !Admits(ts[k], attempt, tries)
    {
      if Admits(ts[i], attempt, tries) {
        return true;
      }
    }
    return false;
  }

  /** An action without any `when`, neither its own nor in its args, runs on every attempt. */
  lemma NoWhenAlwaysEnabled(action: Json, attempt: int, tries: int)
    requires action.JObj? && !HasKey(action, "when") && !HasKey(GetOr(action, "args", JObj([])), "when")
    ensures EnabledFor(action, attempt, tries)
  {
    var blank := JStr("");
    assert Str(blank) == "";
    assert Cleaned(blank) == "";
    assert ReadValue(blank).Silent?;
    AlwaysIffSilent(blank);
  }

  /** A single value that parses gives exactly its token. */
  lemma SingleToken(raw: Json, t: Token)
    requires !raw.JArr? && ReadValue(raw) == Explicit(Some(t))
    ensures WhenTokensOf(raw) == Tokens([t])
  {
    CollectSingle(ReadValue, raw);
  }

  /** The one-value case: the action runs exactly when that value's token admits the attempt. */
  lemma SingleValue(action: Json, t: Token, attempt: int, tries: int)
    requires action.JObj? && !RawWhen(action).JArr? && ReadValue(RawWhen(action)) == Explicit(Some(t))
    ensures EnabledFor(action, attempt, tries) <==> Admits(t, AtLeastOne(attempt), AtLeastOne(tries))
  {
    var raw := RawWhen(action);
    SingleToken(raw, t);
    OneTokenAdmits(t, attempt, tries);
    assert EnabledFor(action, attempt, tries) == TokensAdmit(WhenTokensOf(raw), attempt, tries);
  }

  lemma OneTokenAdmits(t: Token, attempt: int, tries: int)
    ensures TokensAdmit(Tokens([t]), attempt, tries) <==> Admits(t, AtLeastOne(attempt), AtLeastOne(tries))
  {
    assert [t][0] == t;
  }

  /** A bare number in `when` means equality with the attempt number, which is at least 1. */
  lemma BareNumberIsEquality(action: Json, n: int, attempt: int, tries: int)
    requires action.JObj? && RawWhen(action) == JInt(n)
    ensures EnabledFor(action, attempt, tries) <==> AtLeastOne(attempt) == n
  {
    SingleValue(action, Token(Eq, Num(n)), attempt, tries);
  }

  lemma RemoveCharAbsent(s: string, c: char)
    requires c !in s
    ensures RemoveChar(s, c) == s
  {
    if s != [] {
      assert c !in s[1..];
    }
  }

  lemma LowerFixed(s: string)
    requires forall i :: 0 <= i < |s| ==> !('A' <= s[i] <= 'Z')
    ensures Lower(s) == s
  {
  }

  /** Text that is already trimmed, lower case and without spaces is read as it is. */
  lemma CleanedText(s: string)
    requires Stripped(s) && ' ' !in s
    requires forall i :: 0 <= i < |s| ==> !('A' <= s[i] <= 'Z')
    ensures Cleaned(JStr(s)) == s
  {
    StripStripped(s);
    LowerFixed(s);
    RemoveCharAbsent(s, ' ');
  }

  /** The digits of `"attempt:N"`, `"attemptN"` or `"N"` parse as equality with N. */
  lemma AttemptDigits(prefix: string, d: string)
    requires prefix in {"", "attempt", "attempt:"} && IsDigits(d)
    ensures ParseToken(prefix + d) == Some(Token(Eq, Num(DigitsValue(d))))
  {
    var token := prefix + d;
    if prefix == "" {
      assert token == d;
      assert !StartsWith(token, "attempt") by {
        assert IsDigit(token[0]);
      }
    } else {
      assert StartsWith(token, "attempt");
      var u := token[7..];
      if prefix == "attempt" {
        assert u == d;
        assert !StartsWith(u, ":") by {
          assert IsDigit(u[0]);
        }
      } else {
        assert u == ":" + d;
        assert u[1..] == d;
      }
      StripKeepsDigits(d);
    }
  }

  /** Cleaning leaves `"attempt:N"` alone. */
  lemma CleanAttemptText(d: string)
    requires IsDigits(d)
    ensures Cleaned(JStr("attempt:" + d)) == "attempt:" + d
  {
    var s := "attempt:" + d;
    assert forall i :: 0 <= i < |s| ==> s[i] != ' ' && !('A' <= s[i] <= 'Z') && (i >= 8 ==> IsDigit(s[i])) by {
      forall i | 0 <= i < |s| ensures s[i] != ' ' && !('A' <= s[i] <= 'Z') && (i >= 8 ==> IsDigit(s[i])) {
        if i >= 8 {
          assert s[i] == d[i - 8];
        }
      }
    }
    assert s[|s| - 1] == d[|d| - 1];
    CleanedText(s);
  }

  /** `when: "attempt:N"` runs the action exactly on attempt N. */
  lemma AttemptColonIsEquality(action: Json, d: string, attempt: int, tries: int)
    requires action.JObj? && IsDigits(d) && RawWhen(action) == JStr("attempt:" + d)
    ensures EnabledFor(action, attempt, tries) <==> AtLeastOne(attempt) == DigitsValue(d)
  {
    var s := "attempt:" + d;
    CleanAttemptText(d);
    assert s != "null" by { assert s[0] != 'n'; }
    ReadCleanText(s);
    AttemptDigits("attempt:", d);
    SingleValue(action, Token(Eq, Num(DigitsValue(d))), attempt, tries);
  }

  /** The operator's spelling; equality also accepts a single `=`. */
  function Symbol(op: Comparison): string {
    match op
    case Eq => "=="
    case Gt => ">"
    case Ge => ">="
    case Lt => "<"
    case Le => "<="
  }

  function BoundText(b: Bound): string {
    match b
    case Last => "last"
    case Num(n) => IntToString(n)
  }

  /** The text of a token, as a rule file writes it. */
  function TokenText(t: Token): string {
    Symbol(t.op) + BoundText(t.bound)
  }

  /** Tokens whose number is not negative: those a rule file can write. */
  predicate Writable(t: Token) {
    t.bound.Num? ==> t.bound.n >= 0
  }

  lemma BoundTextForm(b: Bound)
    requires b.Num? ==> b.n >= 0
    ensures BoundText(b) == "last" || IsDigits(BoundText(b))
    ensures b.Num? ==> IsDigits(BoundText(b))
    ensures BoundText(b)[0] == 'l' || IsDigit(BoundText(b)[0])
    ensures IsDigits(BoundText(b)) ==> b.Num? && DigitsValue(BoundText(b)) == b.n
  {
    if b.Num? {
      NatToStringRoundTrip(b.n);
    }
  }

  /** Parsing the text of a comparison gives the comparison back. */
  lemma ParseTokenText(t: Token)
    requires Writable(t)
    ensures ParseComparison(TokenText(t)) == Some(t)
  {
    var sym := Symbol(t.op);
    var rest := BoundText(t.bound);
    BoundTextForm(t.bound);
    var s := sym + rest;
    assert s[|sym|..] == rest;
    assert s[|sym|] == rest[0] != '=';
    assert rest == "last" <==> t.bound.Last? by {
      if t.bound.Num? {
        assert IsDigit(rest[0]) && !IsDigit("last"[0]);
      }
    }
    match t.op {
      case Eq =>
        assert StartsWith(s, "==") by { assert s[..2] == "=="; }
      case Gt =>
        assert s[0] == '>';
        assert !StartsWith(s, "==") && !StartsWith(s, "=") && !StartsWith(s, ">=") && !StartsWith(s, "<=");
        assert StartsWith(s, ">") by { assert s[..1] == ">"; }
      case Ge =>
        assert s[0] == '>';
        assert !StartsWith(s, "==") && !StartsWith(s, "=");
        assert StartsWith(s, ">=") by { assert s[..2] == ">="; }
      case Lt =>
        assert s[0] == '<';
        assert !StartsWith(s, "==") && !StartsWith(s, "=") && !StartsWith(s, ">=") && !StartsWith(s, "<=") && !StartsWith(s, ">");
        assert StartsWith(s, "<") by { assert s[..1] == "<"; }
      case Le =>
        assert s[0] == '<';
        assert !StartsWith(s, "==") && !StartsWith(s, "=") && !StartsWith(s, ">=");
        assert StartsWith(s, "<=") by { assert s[..2] == "<="; }
    }
  }

  /** The text of a comparison is read as the comparison itself. */
  lemma ParseTokenOfText(t: Token)
    requires Writable(t)
    ensures ParseToken(TokenText(t)) == Some(t)
  {
    var s := TokenText(t);
    assert s[0] == Symbol(t.op)[0];
    assert !StartsWith(s, "attempt") && !IsDigits(s) by { assert !IsDigit(s[0]) && s[0] != 'a'; }
    ParseTokenText(t);
  }

  /** The characters a token's text is made of. */
  predicate TokenChar(c: char) {
    c == '=' || c == '<' || c == '>' || c == 'l' || c == 'a' || c == 's' || c == 't' || IsDigit(c)
  }

  lemma TokenTextChars(t: Token)
    requires Writable(t)
    ensures forall i :: 0 <= i < |TokenText(t)| ==> TokenChar(TokenText(t)[i])
  {
    var sym := Symbol(t.op);
    var rest := BoundText(t.bound);
    BoundTextForm(t.bound);
    assert forall i :: 0 <= i < |sym| ==> TokenChar(sym[i]);
    assert forall i :: 0 <= i < |rest| ==> TokenChar(rest[i]);
    assert forall i :: 0 <= i < |TokenText(t)| ==> TokenText(t)[i] == if i < |sym| then sym[i] else rest[i - |sym|];
  }

  /** Text that cleaning leaves alone, and that is neither blank nor `null`, is parsed as it is. */
  lemma ReadCleanText(s: string)
    requires Cleaned(JStr(s)) == s && s != "" && s != "null"
    ensures ReadValue(JStr(s)) == Explicit(ParseToken(s))
  {
  }

  /** A `when` holding the text of one comparison is read as that comparison. */
  lemma ReadTokenText(t: Token)
    requires Writable(t)
    ensures ReadValue(JStr(TokenText(t))) == Explicit(Some(t))
  {
    CleanTokenText(t);
    ReadCleanText(TokenText(t));
    ParseTokenOfText(t);
  }

  /** Cleaning leaves text made of token characters alone, and such text is not `null`. */
  lemma CleanTokenChars(s: string)
    requires s != [] && forall i :: 0 <= i < |s| ==> TokenChar(s[i])
    ensures Cleaned(JStr(s)) == s && s != "null"
  {
    assert TokenChar(s[0]) && TokenChar(s[|s| - 1]);
    assert ' ' !in s;
    CleanedText(s);
    assert s != "null" by { assert !TokenChar('n'); }
  }

  /** Cleaning leaves the text of a comparison alone, and it is neither blank nor `null`. */
  lemma CleanTokenText(t: Token)
    requires Writable(t)
    ensures Cleaned(JStr(TokenText(t))) == TokenText(t) && TokenText(t) != "" && TokenText(t) != "null"
  {
    TokenTextChars(t);
    CleanTokenChars(TokenText(t));
  }

  /**
   * An action whose `when` is the text of one comparison runs exactly on the
   * attempts that comparison admits; `"<=last"`, for one, runs it on every
   * attempt up to the number of tries.
   */
  lemma ComparisonWhen(action: Json, t: Token, attempt: int, tries: int)
    requires action.JObj? && Writable(t) && RawWhen(action) == JStr(TokenText(t))
    ensures EnabledFor(action, attempt, tries) <==> Admits(t, AtLeastOne(attempt), AtLeastOne(tries))
  {
    ReadTokenText(t);
    SingleValue(action, t, attempt, tries);
  }

  /** A token that only bounds the attempt from below stays passed on every later attempt. */
  predicate LowerBound(t: Token) {
    t.op == Gt || t.op == Ge
  }

  /**
   * A `when` made only of `>` and `>=` comparisons is upward closed: once an
   * attempt runs the action, every later attempt does too.
   */
  lemma UpwardClosed(action: Json, attempt: int, tries: int)
    requires WhenTokensOf(RawWhen(action)).Tokens?
    requires forall i :: 0 <= i < |WhenTokensOf(RawWhen(action)).items| ==> LowerBound(WhenTokensOf(RawWhen(action)).items[i])
    requires EnabledFor(action, attempt, tries)
    ensures EnabledFor(action, AtLeastOne(attempt) + 1, tries)
  {
    var ts := WhenTokensOf(RawWhen(action)).items;
    var i :| 0 <= i < |ts| && Admits(ts[i], AtLeastOne(attempt), AtLeastOne(tries));
    assert Admits(ts[i], AtLeastOne(AtLeastOne(attempt) + 1), AtLeastOne(tries));
  }
}
