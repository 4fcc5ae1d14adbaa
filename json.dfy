/**
 * JSON documents as Python's `json` module hands them to the program:
 * objects keep their key order (a Python `dict` is insertion ordered).
 * Numbers are integers only.
 */
module JsonValue {
  import opened Wrappers
  import opened Text

  datatype Json =
    | JNull
    | JBool(b: bool)
    | JInt(i: int)
    | JStr(s: string)
    | JArr(items: seq<Json>)
    | JObj(fields: seq<(string, Json)>)

  /** The value bound to `key` among `fields` (its first binding). */
  function Lookup(fields: seq<(string, Json)>, key: string): (r: Option<Json>)
    ensures r.Some? ==> exists i :: 0 <= i < |fields| && fields[i] == (key, r.value)
    ensures r.None? <==> forall i :: 0 <= i < |fields| ==> fields[i].0 != key
  {
    if fields == [] then None
    else if fields[0].0 == key then Some(fields[0].1)
    else
      var r := Lookup(fields[1..], key);
      assert forall i :: 1 <= i < |fields| ==> fields[i] == fields[1..][i - 1];
      r
  }

  /** `d.get(key)` on a dict; nothing for any other value. */
  function Get(j: Json, key: string): (r: Option<Json>)
    ensures r.Some? ==> j.JObj? && r.value < j
  {
    if j.JObj? then
      var r := Lookup(j.fields, key);
      if r.Some? then
        var i :| 0 <= i < |j.fields| && j.fields[i] == (key, r.value);
        assert j.fields[i].1 < j.fields[i];
        r
      else r
    else None
  }

  /** `d.get(key, default)`. */
  function GetOr(j: Json, key: string, default: Json): (r: Json)
    ensures r == default || r < j
  {
    match Get(j, key)
    case Some(v) => v
    case None => default
  }

  predicate HasKey(j: Json, key: string) {
    Get(j, key).Some?
  }

  /** The keys of a dict in order, and as a set. */
  function Keys(fields: seq<(string, Json)>): (r: seq<string>)
    ensures |r| == |fields| && forall i :: 0 <= i < |fields| ==> r[i] == fields[i].0
  {
    seq(|fields|, i requires 0 <= i < |fields| => fields[i].0)
  }

  function KeySet(j: Json): (r: set<string>)
    ensures forall k :: k in r <==> HasKey(j, k)
  {
    if j.JObj? then set i | 0 <= i < |j.fields| :: j.fields[i].0 else {}
  }

  /** `d[key] = value`: an existing key keeps its place, a new one goes last. */
  function PutField(fields: seq<(string, Json)>, key: string, v: Json): (r: seq<(string, Json)>)
    ensures Lookup(r, key) == Some(v)
    ensures forall k :: k != key ==> Lookup(r, k) == Lookup(fields, k)
  {
    if fields == [] then [(key, v)]
    else if fields[0].0 == key then [(key, v)] + fields[1..]
    else [fields[0]] + PutField(fields[1..], key, v)
  }

  /** Writing back the value a key already has changes nothing. */
  lemma PutFieldSame(fields: seq<(string, Json)>, key: string, v: Json)
    requires Lookup(fields, key) == Some(v)
    ensures PutField(fields, key, v) == fields
  {
  }

  /** `d.pop(key, None)` / `del d[key]`: every binding of `key` is gone. */
  function RemoveField(fields: seq<(string, Json)>, key: string): (r: seq<(string, Json)>)
    ensures Lookup(r, key).None?
    ensures forall k :: k != key ==> Lookup(r, k) == Lookup(fields, k)
  {
    if fields == [] then []
    else if fields[0].0 == key then RemoveField(fields[1..], key)
    else [fields[0]] + RemoveField(fields[1..], key)
  }

  /** Removing a key that is absent changes nothing. */
  lemma RemoveFieldAbsent(fields: seq<(string, Json)>, key: string)
    requires Lookup(fields, key).None?
    ensures RemoveField(fields, key) == fields
  {
  }

  /** Python's `bool(value)`. */
  predicate Truthy(j: Json) {
    match j
    case JNull => false
    case JBool(b) => b
    case JInt(i) => i != 0
    case JStr(s) => s != ""
    case JArr(items) => items != []
    case JObj(fields) => fields != []
  }

  /**
   * Python's `str(value)` (`quoted` false) and `repr(value)` (`quoted` true).
   * Strings inside containers are shown in single quotes, without escaping.
   */
  function Show(j: Json, quoted: bool): (r: string)
    decreases j, 1
  {
    match j
    case JNull => "None"
    case JBool(b) => if b then "True" else "False"
    case JInt(i) => IntToString(i)
    case JStr(s) => if quoted then "'" + s + "'" else s
    case JArr(items) => "[" + ShowItems(items, j) + "]"
    case JObj(fields) => "{" + ShowFields(fields, j) + "}"
  }

  function ShowItems(items: seq<Json>, parent: Json): string
    requires forall k :: 0 <= k < |items| ==> items[k] < parent
    decreases parent, 0, |items|
  {
    if items == [] then ""
    else Show(items[0], true) + (if |items| == 1 then "" else ", " + ShowItems(items[1..], parent))
  }

  function ShowFields(fields: seq<(string, Json)>, parent: Json): string
    requires forall k :: 0 <= k < |fields| ==> fields[k].1 < parent
    decreases parent, 0, |fields|
  {
    if fields == [] then ""
    else
      "'" + fields[0].0 + "': " + Show(fields[0].1, true)
      + (if |fields| == 1 then "" else ", " + ShowFields(fields[1..], parent))
  }

  /** `str(value)`; a list's text starts with a bracket and a dict's with a brace. */
  function Str(j: Json): (r: string)
    ensures j.JStr? ==> r == j.s
    ensures j.JArr? ==> |r| > 0 && r[0] == '['
    ensures j.JObj? ==> |r| > 0 && r[0] == LeftBrace
  {
    Show(j, false)
  }
}
