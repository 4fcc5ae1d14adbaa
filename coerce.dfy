/**
 * Lenient conversions that the monitor and the configuration window apply
 * to values read from JSON documents and dialogs.
 */
module Coerce {
  import opened Wrappers
  import opened Text
  import opened JsonValue

  /** Python's `int(value)`: nothing where Python raises TypeError or ValueError. */
  function PyInt(j: Json): (r: Option<int>)
    ensures j.JInt? ==> r == Some(j.i)
    ensures j.JBool? ==> r == Some(if j.b then 1 else 0)
    ensures (j.JNull? || j.JArr? || j.JObj?) ==> r.None?
    ensures j.JStr? ==> r == ParseInt(j.s)
  {
    match j
    case JBool(b) => Some(if b then 1 else 0)
    case JInt(i) => Some(i)
    case JStr(s) => ParseInt(s)
    case _ => None
  }

  const TrueWords: set<string> := {"1", "true", "yes", "on"}

  /** `_to_bool`: bools as they are, words 1/true/yes/on, non-zero numbers; otherwise `default`. */
  function ToBool(value: Json, default: bool): (r: bool)
    ensures value.JBool? ==> r == value.b
    ensures value.JStr? ==> (r <==> Lower(Strip(value.s)) in TrueWords)
    ensures value.JInt? ==> (r <==> value.i != 0)
    ensures !(value.JBool? || value.JStr? || value.JInt?) ==> r == default
  {
    match value
    case JBool(b) => b
    case JStr(s) => Lower(Strip(s)) in TrueWords
    case JInt(i) => i != 0
    case _ => default
  }

  /** The number `_to_int` works with before clamping: the parsed value or the default. */
  function ParsedOr(value: Json, default: int): int {
    match PyInt(value)
    case Some(n) => n
    case None => default
  }

  /** `_to_int`: parse (falling back to `default`), raise to `lo`, then lower to `hi`. */
  function ToInt(value: Json, default: int, lo: Option<int>, hi: Option<int>): (r: int)
    ensures hi.Some? ==> r <= hi.value
    ensures lo.Some? && (hi.None? || lo.value <= hi.value) ==> lo.value <= r
    ensures (lo.None? || lo.value <= ParsedOr(value, default)) && (hi.None? || ParsedOr(value, default) <= hi.value)
      ==> r == ParsedOr(value, default)
    ensures lo.Some? && ParsedOr(value, default) < lo.value && (hi.None? || lo.value <= hi.value) ==> r == lo.value
    ensures hi.Some? && hi.value < ParsedOr(value, default) ==> r == hi.value
  {
    var n := ParsedOr(value, default);
    var m := if lo.Some? && lo.value > n then lo.value else n;
    if hi.Some? && hi.value < m then hi.value else m
  }

  /**
   * `_to_int` falls back to the default exactly when the value cannot be
   * parsed, and then clamps: the result depends only on that number.
   */
  lemma ToIntFallsBackThenClamps(value: Json, default: int, lo: Option<int>, hi: Option<int>)
    ensures PyInt(value).None? ==> ToInt(value, default, lo, hi) == ToInt(JInt(default), default, lo, hi)
    ensures PyInt(value).Some? ==> ToInt(value, default, lo, hi) == ToInt(JInt(PyInt(value).value), default, lo, hi)
  {
  }

  /** `_to_text_list`: every list item as stripped text, or a single stripped text. */
  function ToTextList(value: Json): (r: seq<string>)
    ensures forall t :: t in r ==> t != "" && Stripped(t)
    ensures value.JNull? ==> r == []
    ensures !value.JArr? ==> |r| <= 1
    ensures value.JArr? ==> |r| <= |value.items|
    ensures !value.JArr? && !value.JNull? ==> (r == [] <==> Strip(Str(value)) == "")
    ensures !value.JArr? && !value.JNull? && r != [] ==> r == [Strip(Str(value))]
  {
    match value
    case JArr(items) => StrippedTexts(items)
    case JNull => []
    case _ =>
      var text := Strip(Str(value));
      if text == "" then [] else [text]
  }

  function StrippedTexts(items: seq<Json>): (r: seq<string>)
    ensures forall t :: t in r ==> t != "" && Stripped(t)
    ensures |r| <= |items|
  {
    if items == [] then []
    else
      var text := Strip(Str(items[0]));
      var rest := StrippedTexts(items[1..]);
      if text == "" then rest else [text] + rest
  }

  /** One more item adds its stripped text at the end, unless that text is blank. */
  lemma {:induction false} StrippedTextsAppend(items: seq<Json>, x: Json)
    ensures StrippedTexts(items + [x]) == StrippedTexts(items) + (if Strip(Str(x)) == "" then [] else [Strip(Str(x))])
  {
    if items != [] {
      assert (items + [x])[1..] == items[1..] + [x];
      StrippedTextsAppend(items[1..], x);
    }
  }

  /** The texts kept are exactly the non-blank stripped texts of the items. */
  lemma {:induction false} StrippedTextsMembers(items: seq<Json>, t: string)
    ensures t in StrippedTexts(items) <==> t != "" && exists i :: 0 <= i < |items| && Strip(Str(items[i])) == t
  {
    if items != [] {
      StrippedTextsMembers(items[1..], t);
      if exists i :: 0 <= i < |items[1..]| && Strip(Str(items[1..][i])) == t {
        var i :| 0 <= i < |items[1..]| && Strip(Str(items[1..][i])) == t;
        assert Strip(Str(items[i + 1])) == t;
      }
      if exists i :: 0 <= i < |items| && Strip(Str(items[i])) == t {
        var i :| 0 <= i < |items| && Strip(Str(items[i])) == t;
        if i > 0 {
          assert Strip(Str(items[1..][i - 1])) == t;
        }
      }
    }
  }

  /** The monitor's `_normalize_recursion_depth`. */
  function NormalizeRecursionDepth(depth: Json, enabled: bool): (r: int)
    ensures r >= 1
    ensures !enabled ==> r == 1
    ensures enabled && PyInt(depth).None? ==> r == 1
    ensures enabled && PyInt(depth).Some? && PyInt(depth).value >= 1 ==> r == PyInt(depth).value
  {
    if !enabled then 1
    else match PyInt(depth)
      case None => 1
      case Some(n) => if n < 1 then 1 else n
  }

  datatype ProxyConfig = ProxyConfig(enabled: bool, address: string, port: string, username: string, password: string)

  /** The text of a field as `str(d.get(key, "")).strip()` reads it. */
  function FieldText(data: Json, key: string): string {
    Strip(Str(GetOr(data, key, JStr(""))))
  }

  /**
   * The monitor's `_normalize_proxy_config`: a non-numeric port is dropped, and
   * a proxy without an address or a port cannot stay enabled.
   */
  function NormalizeProxyConfig(proxy: Json): (r: ProxyConfig)
    ensures var p := if proxy.JObj? then FieldText(proxy, "port") else "";
      r.port == (if IsDigits(p) then p else "")
    ensures r.enabled <==> proxy.JObj? && Truthy(GetOr(proxy, "enabled", JBool(false))) && r.address != "" && r.port != ""
    ensures !proxy.JObj? ==> r == ProxyConfig(false, "", "", "", "")
    ensures proxy.JObj? ==>
      r.address == FieldText(proxy, "address") && r.username == FieldText(proxy, "username")
      && r.password == FieldText(proxy, "password")
  {
    var data := if proxy.JObj? then proxy else JObj([]);
    var address := FieldText(data, "address");
    var port := FieldText(data, "port");
    var username := FieldText(data, "username");
    var password := FieldText(data, "password");
    var enabled := Truthy(GetOr(data, "enabled", JBool(false)));
    var portKept := if port != "" && !IsDigits(port) then "" else port;
    var enabledKept := if enabled && (address == "" || portKept == "") then false else enabled;
    ProxyConfig(enabledKept, address, portKept, username, password)
  }

  /** The window's `_to_text`: `None` gives the default, anything else its stripped text. */
  function ToText(value: Json, default: string): (r: string)
    ensures value.JNull? ==> r == default
    ensures value.JStr? ==> r == Strip(value.s)
  {
    if value.JNull? then default else Strip(Str(value))
  }

  const DefaultProxyAddress: string := "127.0.0.1"
  const DefaultProxyPort: string := "7897"

  /** The window keeps a numeric or empty port and replaces anything else by the default port. */
  function RepairPort(port: string): (r: string)
    ensures r == "" || IsDigits(r)
    ensures port != "" && !IsDigits(port) ==> r == DefaultProxyPort
    ensures port == "" || IsDigits(port) ==> r == port
  {
    if port != "" && !IsDigits(port) then DefaultProxyPort else port
  }

  /**
   * The window's `_build_proxy_config`: a non-numeric port becomes the default
   * port, and a proxy without an address or a port is switched off.
   */
  function BuildProxyConfig(data: Json): (r: ProxyConfig)
    ensures r.port == RepairPort(ToText(GetOr(data, "proxyPort", JStr(DefaultProxyPort)), DefaultProxyPort))
    ensures r.address == ToText(GetOr(data, "proxyAddress", JStr(DefaultProxyAddress)), DefaultProxyAddress)
    ensures r.enabled <==> ToBool(GetOr(data, "proxyEnabled", JBool(false)), false) && r.address != "" && r.port != ""
  {
    var enabled := ToBool(GetOr(data, "proxyEnabled", JBool(false)), false);
    var address := ToText(GetOr(data, "proxyAddress", JStr(DefaultProxyAddress)), DefaultProxyAddress);
    var port := RepairPort(ToText(GetOr(data, "proxyPort", JStr(DefaultProxyPort)), DefaultProxyPort));
    var user := ToText(GetOr(data, "proxyUser", JStr("")), "");
    var password := ToText(GetOr(data, "proxyPassword", JStr("")), "");
    ProxyConfig(enabled && address != "" && port != "", address, port, user, password)
  }
}
