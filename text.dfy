/**
 * The parts of Python's `str` that the model needs, on `seq<char>`.
 * Case mapping covers ASCII letters only; `strip()` knows every character
 * that Python 3's `str.isspace` accepts.
 */
module Text {
  import opened Wrappers

  /** The characters for which Python's `str.isspace()` holds. */
  predicate IsSpace(c: char) {
    ('\t' <= c <= '\r') || ('\U{1C}' <= c <= ' ') || c == '\U{85}' || c == '\U{A0}'
    || c == '\U{1680}' || ('\U{2000}' <= c <= '\U{200A}') || c == '\U{2028}' || c == '\U{2029}'
    || c == '\U{202F}' || c == '\U{205F}' || c == '\U{3000}'
  }

  predicate IsDigit(c: char) { '0' <= c <= '9' }

  /** Punctuation that delimits placeholders, JSON objects and quoted text. */
  const LeftBrace: char := '\U{7B}'
  const RightBrace: char := '\U{7D}'
  const DoubleQuote: char := '\U{22}'
  const SingleQuote: char := '\U{27}'

  /** The classes of characters the `strip` family removes. */
  datatype CharClass =
    | Spaces            // `str.isspace()`
    | Chars(set<char>)  // an explicit `chars` argument

  predicate InClass(c: char, cls: CharClass) {
    match cls
    case Spaces => IsSpace(c)
    case Chars(chars) => c in chars
  }

  /** Drops leading characters of the class `cls` (`str.lstrip`). */
  function LStripWhile(s: string, cls: CharClass): (r: string)
    ensures |r| <= |s| && r == s[|s| - |r|..]
    ensures r == [] || !InClass(r[0], cls)
    ensures forall i :: 0 <= i < |s| - |r| ==> InClass(s[i], cls)
    decreases |s|
  {
    if |s| > 0 && InClass(s[0], cls) then LStripWhile(s[1..], cls) else s
  }

  /** Drops trailing characters of the class `cls` (`str.rstrip`). */
  function RStripWhile(s: string, cls: CharClass): (r: string)
    ensures |r| <= |s| && r == s[..|r|]
    ensures r == [] || !InClass(r[|r| - 1], cls)
    ensures forall i :: |r| <= i < |s| ==> InClass(s[i], cls)
    decreases |s|
  {
    if |s| > 0 && InClass(s[|s| - 1], cls) then RStripWhile(s[..|s| - 1], cls) else s
  }

  /** Text with no whitespace at either end. */
  predicate Stripped(s: string) {
    s == [] || (!IsSpace(s[0]) && !IsSpace(s[|s| - 1]))
  }

  /** `str.strip()`: no surrounding whitespace, and nothing but characters of `s`. */
  function Strip(s: string): (r: string)
    ensures |r| <= |s|
    ensures Stripped(r)
    ensures forall c :: c in r ==> c in s
    decreases |s|
  {
    if |s| > 0 && IsSpace(s[0]) then
      var r := Strip(s[1..]);
      assert forall c :: c in s[1..] ==> c in s;
      r
    else if |s| > 0 && IsSpace(s[|s| - 1]) then
      var r := Strip(s[..|s| - 1]);
      assert forall c :: c in s[..|s| - 1] ==> c in s;
      r
    else s
  }

  /** Stripping text that has no surrounding whitespace changes nothing. */
  lemma StripStripped(s: string)
    requires Stripped(s)
    ensures Strip(s) == s
  {
  }

  /** Lower-casing keeps text free of surrounding whitespace. */
  lemma LowerKeepsStripped(s: string)
    requires Stripped(s)
    ensures Stripped(Lower(s))
  {
  }

  /** `text.strip().lower()` is already stripped and lower case. */
  lemma LowerStripFixed(s: string)
    ensures Lower(Strip(Lower(Strip(s)))) == Lower(Strip(s))
  {
    LowerKeepsStripped(Strip(s));
    StripStripped(Lower(Strip(s)));
    LowerIdempotent(Strip(s));
  }

  /** `str.strip(chars)` for an explicit set of characters. */
  function StripChars(s: string, chars: set<char>): (r: string)
    ensures |r| <= |s|
    ensures r == [] || (r[0] !in chars && r[|r| - 1] !in chars)
    ensures forall c :: c in r ==> c in s
  {
    var t := RStripWhile(s, Chars(chars));
    var r := LStripWhile(t, Chars(chars));
    assert forall c :: c in r ==> c in t;
    r
  }

  /** `str.rstrip(chars)`. */
  function RStripChars(s: string, chars: set<char>): (r: string)
    ensures |r| <= |s| && r == s[..|r|]
    ensures r == [] || r[|r| - 1] !in chars
  {
    RStripWhile(s, Chars(chars))
  }

  function LowerChar(c: char): (d: char)
    ensures !('A' <= d <= 'Z')
    ensures 'a' <= c <= 'z' ==> d == c
    ensures !('A' <= c <= 'Z') ==> d == c
  {
    if 'A' <= c <= 'Z' then (c as int + 32) as char else c
  }

  /** `str.lower()` on ASCII letters; every other character is kept. */
  function Lower(s: string): (r: string)
    ensures |r| == |s|
    ensures forall i :: 0 <= i < |s| ==> r[i] == LowerChar(s[i])
  {
    if s == [] then [] else [LowerChar(s[0])] + Lower(s[1..])
  }

  lemma LowerIdempotent(s: string)
    ensures Lower(Lower(s)) == Lower(s)
  {
  }

  predicate StartsWith(s: string, prefix: string) {
    prefix <= s
  }

  predicate EndsWith(s: string, suffix: string) {
    |suffix| <= |s| && s[|s| - |suffix|..] == suffix
  }

  /** Python's `sub in s`. */
  predicate Contains(s: string, sub: string)
    decreases |s|
  {
    sub <= s || (|s| > 0 && Contains(s[1..], sub))
  }

  /** `str.find`: the first index at which `sub` occurs. */
  function Find(s: string, sub: string): (r: Option<nat>)
    ensures r.Some? ==> r.value + |sub| <= |s| && s[r.value..r.value + |sub|] == sub
    ensures r.Some? ==> forall j :: 0 <= j < r.value ==> !(sub <= s[j..])
    ensures r.None? <==> !Contains(s, sub)
    decreases |s|
  {
    if sub <= s then Some(0)
    else if s == [] then None
    else match Find(s[1..], sub)
      case None => None
      case Some(k) =>
        assert forall j :: 1 <= j <= k ==> s[j..] == s[1..][j - 1..];
        Some(k + 1)
  }

  lemma ContainsAt(s: string, sub: string, i: nat)
    requires i + |sub| <= |s| && s[i..i + |sub|] == sub
    ensures Contains(s, sub)
    decreases i
  {
    if i > 0 {
      assert s[1..][i - 1..i - 1 + |sub|] == sub;
      ContainsAt(s[1..], sub, i - 1);
    }
  }

  /** `s.split(sep)` for a non-empty separator (Python raises on an empty one). */
  function Split(s: string, sep: string): (parts: seq<string>)
    requires |sep| > 0
    ensures |parts| >= 1
    ensures |parts| == 1 <==> !Contains(s, sep)
    ensures forall i :: 0 <= i < |parts| ==> !Contains(parts[i], sep)
    decreases |s|
  {
    match Find(s, sep)
    case None => [s]
    case Some(k) =>
      NoEarlierOccurrence(s, sep, k);
      [s[..k]] + Split(s[k + |sep|..], sep)
  }

  lemma {:induction false} NoEarlierOccurrence(s: string, sep: string, k: nat)
    requires |sep| > 0 && k <= |s|
    requires forall j :: 0 <= j < k ==> !(sep <= s[j..])
    ensures !Contains(s[..k], sep)
    decreases k
  {
    if k > 0 {
      assert s[0..] == s;
      assert sep <= s[..k] ==> sep <= s;
      forall j | 0 <= j < k - 1
        ensures !(sep <= s[1..][j..])
      {
        assert s[1..][j..] == s[j + 1..];
      }
      NoEarlierOccurrence(s[1..], sep, k - 1);
      assert s[..k][1..] == s[1..][..k - 1];
    }
  }

  /** `sep.join(parts)`. */
  function Join(sep: string, parts: seq<string>): (r: string)
    ensures |parts| == 1 ==> r == parts[0]
  {
    if |parts| == 0 then ""
    else if |parts| == 1 then parts[0]
    else parts[0] + sep + Join(sep, parts[1..])
  }

  /** Splitting and joining again with the same separator gives back the text. */
  lemma {:induction false} JoinSplit(s: string, sep: string)
    requires |sep| > 0
    ensures Join(sep, Split(s, sep)) == s
    decreases |s|
  {
    var f := Find(s, sep);
    if f.Some? {
      var k := f.value;
      var rest := s[k + |sep|..];
      JoinSplit(rest, sep);
      var p := Split(rest, sep);
      assert Split(s, sep) == [s[..k]] + p;
      JoinCons(sep, s[..k], p);
      assert s[k..k + |sep|] == sep;
      ThreeParts(s, k, k + |sep|);
    } else {
      assert Split(s, sep) == [s];
    }
  }

  /** A text is its three slices at `i` and `j` put back together. */
  lemma TwoParts(s: string, i: nat)
    requires i <= |s|
    ensures s == s[..i] + s[i..]
  {
  }

  lemma ThreeParts(s: string, i: nat, j: nat)
    requires i <= j <= |s|
    ensures s == s[..i] + s[i..j] + s[j..]
  {
    assert s[..j] == s[..i] + s[i..j];
    TwoParts(s, j);
  }

  lemma JoinCons(sep: string, part: string, parts: seq<string>)
    requires |parts| >= 1
    ensures Join(sep, [part] + parts) == part + sep + Join(sep, parts)
  {
    assert ([part] + parts)[1..] == parts;
  }

  /** `str.replace(old, new, 1)`. */
  function ReplaceFirst(s: string, pat: string, repl: string): string
    requires |pat| > 0
    decreases |s|
  {
    if pat <= s then repl + s[|pat|..]
    else if s == [] then s
    else [s[0]] + ReplaceFirst(s[1..], pat, repl)
  }

  /** With no occurrence, the text is unchanged. */
  lemma {:induction false} ReplaceFirstAbsent(s: string, pat: string, repl: string)
    requires |pat| > 0 && Find(s, pat).None?
    ensures ReplaceFirst(s, pat, repl) == s
    decreases |s|
  {
    if s != [] {
      assert Find(s[1..], pat).None?;
      ReplaceFirstAbsent(s[1..], pat, repl);
      assert [s[0]] + s[1..] == s;
    }
  }

  /** Only the leftmost occurrence, the one `Find` reports, is replaced. */
  lemma {:induction false} ReplaceFirstAt(s: string, pat: string, repl: string)
    requires |pat| > 0 && Find(s, pat).Some?
    ensures var k := Find(s, pat).value; ReplaceFirst(s, pat, repl) == s[..k] + repl + s[k + |pat|..]
    decreases |s|
  {
    if pat <= s {
      ReplaceFirstHere(s, pat, repl);
    } else {
      FindShift(s, pat);
      var k := Find(s[1..], pat).value;
      ReplaceFirstAt(s[1..], pat, repl);
      ReplaceFirstShift(s, pat, repl, k);
    }
  }

  lemma ReplaceFirstHere(s: string, pat: string, repl: string)
    requires |pat| > 0 && pat <= s
    ensures Find(s, pat) == Some(0)
    ensures ReplaceFirst(s, pat, repl) == s[..0] + repl + s[0 + |pat|..]
  {
    assert s[..0] + repl + s[0 + |pat|..] == repl + s[|pat|..];
  }

  /** Past a first character that starts no occurrence, the occurrence found is the tail's, one further on. */
  lemma FindShift(s: string, pat: string)
    requires s != [] && !(pat <= s) && Find(s, pat).Some?
    ensures Find(s[1..], pat).Some? && Find(s, pat).value == Find(s[1..], pat).value + 1
  {
  }

  /** An occurrence replaced in the tail is the same occurrence, one further on, in the whole text. */
  lemma ReplaceFirstShift(s: string, pat: string, repl: string, k: nat)
    requires |pat| > 0 && s != [] && !(pat <= s) && k + |pat| <= |s| - 1
    requires ReplaceFirst(s[1..], pat, repl) == s[1..][..k] + repl + s[1..][k + |pat|..]
    ensures ReplaceFirst(s, pat, repl) == s[..k + 1] + repl + s[k + 1 + |pat|..]
  {
    ReplaceFirstCons(s, pat, repl);
    ConsSlices(s, repl, k, |pat|);
  }

  lemma ReplaceFirstCons(s: string, pat: string, repl: string)
    requires |pat| > 0 && s != [] && !(pat <= s)
    ensures ReplaceFirst(s, pat, repl) == [s[0]] + ReplaceFirst(s[1..], pat, repl)
  {
  }

  lemma ConsSlices(s: string, a: string, k: nat, m: nat)
    requires k + m <= |s| - 1
    ensures [s[0]] + (s[1..][..k] + a + s[1..][k + m..]) == s[..k + 1] + a + s[k + 1 + m..]
  {
    var t := s[1..];
    assert s[..k + 1] == [s[0]] + t[..k];
    assert s[k + 1 + m..] == t[k + m..];
  }



  /** `str.replace(pat, repl)`: every occurrence, left to right, without overlaps. */
  function ReplaceAll(s: string, pat: string, repl: string): (r: string)
    requires |pat| > 0
    ensures !Contains(s, pat) ==> r == s
    decreases |s|
  {
    match Find(s, pat)
    case None => s
    case Some(k) => s[..k] + repl + ReplaceAll(s[k + |pat|..], pat, repl)
  }

  /** Replaces every occurrence of one character by another. */
  function MapChar(s: string, from: char, to: char): (r: string)
    ensures |r| == |s|
    ensures forall i :: 0 <= i < |s| ==> r[i] == if s[i] == from then to else s[i]
  {
    if s == [] then [] else [if s[0] == from then to else s[0]] + MapChar(s[1..], from, to)
  }

  /** `s.replace(c, "")` for a single character. */
  function RemoveChar(s: string, c: char): (r: string)
    ensures c !in r
    ensures forall d :: d in r ==> d in s
  {
    if s == [] then []
    else (if s[0] == c then [] else [s[0]]) + RemoveChar(s[1..], c)
  }

  /** `str.isdigit()` on ASCII digits: non-empty and digits only. */
  predicate IsDigits(s: string) {
    |s| > 0 && forall i :: 0 <= i < |s| ==> IsDigit(s[i])
  }

  /** The value of a string of decimal digits. */
  function DigitsValue(s: string): nat
    requires forall i :: 0 <= i < |s| ==> IsDigit(s[i])
  {
    if s == [] then 0
    else
      assert IsDigit(s[|s| - 1]);
      DigitsValue(s[..|s| - 1]) * 10 + (s[|s| - 1] as int - '0' as int)
  }

  function DigitChar(d: nat): (c: char)
    requires d < 10
    ensures IsDigit(c) && c as int - '0' as int == d
  {
    ('0' as int + d) as char
  }

  /** `str(n)` for a natural number. */
  function NatToString(n: nat): (s: string)
    ensures |s| > 0
    decreases n
  {
    if n < 10 then [DigitChar(n)] else NatToString(n / 10) + [DigitChar(n % 10)]
  }

  /** `str(n)` is a string of digits whose value is `n`. */
  lemma {:induction false} NatToStringRoundTrip(n: nat)
    ensures IsDigits(NatToString(n)) && DigitsValue(NatToString(n)) == n
    decreases n
  {
    var s := NatToString(n);
    if n >= 10 {
      NatToStringRoundTrip(n / 10);
      assert s[..|s| - 1] == NatToString(n / 10);
    }
  }

  /** A larger number never has fewer decimal digits. */
  lemma {:induction false} NatToStringLengthMonotone(a: nat, b: nat)
    requires a <= b
    ensures |NatToString(a)| <= |NatToString(b)|
    decreases b
  {
    if a >= 10 {
      NatToStringLengthMonotone(a / 10, b / 10);
    }
  }

  /** `str(i)` for any integer. */
  function IntToString(i: int): (s: string)
    ensures |s| > 0
  {
    if i < 0 then "-" + NatToString(-i) else NatToString(i)
  }

  /** The digits `int()` accepts: ASCII digits, with single underscores between them. */
  predicate IsGroupedDigits(s: string) {
    && |s| > 0 && IsDigit(s[0]) && IsDigit(s[|s| - 1])
    && (forall i :: 0 <= i < |s| ==> IsDigit(s[i]) || s[i] == '_')
    && (forall i :: 0 <= i < |s| - 1 && s[i] == '_' ==> IsDigit(s[i + 1]))
  }

  /** The text with its underscores removed. */
  function Ungrouped(s: string): (r: string)
    ensures (forall i :: 0 <= i < |s| ==> IsDigit(s[i]) || s[i] == '_') ==> forall i :: 0 <= i < |r| ==> IsDigit(r[i])
    ensures (forall i :: 0 <= i < |s| ==> s[i] != '_') ==> r == s
  {
    if s == [] then []
    else (if s[0] == '_' then [] else [s[0]]) + Ungrouped(s[1..])
  }

  /** Removing underscores distributes over concatenation. */
  lemma {:induction false} UngroupedAppend(a: string, b: string)
    ensures Ungrouped(a + b) == Ungrouped(a) + Ungrouped(b)
  {
    if a != [] {
      assert (a + b)[0] == a[0] && (a + b)[1..] == a[1..] + b;
      UngroupedAppend(a[1..], b);
    } else {
      assert a + b == b;
    }
  }

  /** Plain digits are grouped digits with nothing to remove. */
  lemma DigitsAreGrouped(s: string)
    requires IsDigits(s)
    ensures IsGroupedDigits(s) && Ungrouped(s) == s
  {
  }

  /** A sign `int()` accepts in front of the digits. */
  predicate IsSign(c: char) { c == '+' || c == '-' }

  /**
   * Python's `int(text)`: surrounding whitespace, an optional sign, then
   * ASCII digits with single underscores between them.
   */
  function ParseInt(text: string): (r: Option<int>)
    ensures IsDigits(text) ==> r == Some(DigitsValue(text))
    ensures var t := Strip(text);
      r.Some? <==> IsGroupedDigits(t) || (|t| > 1 && IsSign(t[0]) && IsGroupedDigits(t[1..]))
  {
    var t := Strip(text);
    assert IsDigits(text) ==> t == text && Ungrouped(t) == t by {
      if IsDigits(text) {
        StripKeepsDigits(text);
        DigitsAreGrouped(text);
      }
    }
    if IsGroupedDigits(t) then Some(DigitsValue(Ungrouped(t)) as int)
    else if |t| > 1 && t[0] == '+' && IsGroupedDigits(t[1..]) then Some(DigitsValue(Ungrouped(t[1..])) as int)
    else if |t| > 1 && t[0] == '-' && IsGroupedDigits(t[1..]) then Some(-(DigitsValue(Ungrouped(t[1..])) as int))
    else None
  }

  /** Grouped digits with no whitespace around them read as their value. */
  lemma ParseIntGrouped(t: string)
    requires IsGroupedDigits(t)
    ensures ParseInt(t) == Some(DigitsValue(Ungrouped(t)) as int)
  {
    assert Stripped(t) by {
      assert !IsSpace(t[0]) && !IsSpace(t[|t| - 1]);
    }
    StripStripped(t);
  }

  /** `int(str(i)) == i` for every integer. */
  lemma ParseIntRoundTrip(i: int)
    ensures ParseInt(IntToString(i)) == Some(i)
  {
    var n: nat := if i < 0 then -i else i;
    var d := NatToString(n);
    NatToStringRoundTrip(n);
    DigitsAreGrouped(d);
    ParseIntGrouped(d);
    if i < 0 {
      ParseIntNegative(d);
    }
  }

  /** Surrounding whitespace does not change the number read. */
  lemma ParseIntStripped(text: string)
    ensures ParseInt(Strip(text)) == ParseInt(text)
  {
    StripStripped(Strip(text));
  }

  /** A minus sign in front of grouped digits negates their value. */
  lemma ParseIntNegative(d: string)
    requires IsGroupedDigits(d)
    ensures ParseInt("-" + d) == Some(-ParseInt(d).value)
  {
    ParseIntGrouped(d);
    var s := "-" + d;
    assert Stripped(s) by {
      assert !IsSpace(s[0]) && s[|s| - 1] == d[|d| - 1];
    }
    StripStripped(s);
    assert s[1..] == d;
    assert !IsGroupedDigits(s) by {
      assert !IsDigit(s[0]);
    }
  }

  /** An underscore between two runs of digits is ignored: `int("1_000") == 1000`. */
  lemma ParseIntUnderscore(a: string, b: string)
    requires IsDigits(a) && IsDigits(b)
    ensures ParseInt(a + "_" + b) == Some(DigitsValue(a + b))
  {
    UngroupedJoin(a, b);
    GroupedJoin(a, b);
    ParseIntGrouped(a + "_" + b);
  }

  /** Dropping the underscore of `a_b` gives `ab`. */
  lemma UngroupedJoin(a: string, b: string)
    requires IsDigits(a) && IsDigits(b)
    ensures Ungrouped(a + "_" + b) == a + b
  {
    var u := Ungrouped("_");
    assert u == [] by {
      assert "_"[1..] == [];
    }
    DigitsAreGrouped(a);
    DigitsAreGrouped(b);
    UngroupedAppend(a, "_");
    assert Ungrouped(a + "_") == a;
    UngroupedAppend(a + "_", b);
  }

  /** Two digit runs joined by one underscore are grouped digits. */
  lemma GroupedJoin(a: string, b: string)
    requires IsDigits(a) && IsDigits(b)
    ensures IsGroupedDigits(a + "_" + b)
  {
    var s := a + "_" + b;
    assert s[0] == a[0] && s[|s| - 1] == b[|b| - 1];
    forall i | 0 <= i < |s| ensures IsDigit(s[i]) || s[i] == '_' {
      if i < |a| { assert s[i] == a[i]; } else if i > |a| { assert s[i] == b[i - |a| - 1]; }
    }
    forall i | 0 <= i < |s| - 1 && s[i] == '_' ensures IsDigit(s[i + 1]) {
      assert s[i + 1] == b[0];
    }
  }

  lemma StripKeepsDigits(s: string)
    requires IsDigits(s)
    ensures Strip(s) == s
  {
    assert IsDigit(s[0]) && IsDigit(s[|s| - 1]);
  }

  function Repeat(c: char, n: nat): (r: string)
    ensures |r| == n && forall i :: 0 <= i < n ==> r[i] == c
  {
    if n == 0 then [] else [c] + Repeat(c, n - 1)
  }

  /** `s.zfill(width)`: left-pads with `0` after an optional sign. */
  function ZFill(s: string, width: nat): (r: string)
    ensures |r| == if |s| < width then width else |s|
  {
    if |s| >= width then s
    else if |s| > 0 && (s[0] == '+' || s[0] == '-') then [s[0]] + Repeat('0', width - |s|) + s[1..]
    else Repeat('0', width - |s|) + s
  }
}
