/**
 * `_merge_cookies`: the session's cookie list merged with a child session's,
 * keeping the first cookie for each (name, domain, path).
 */
module Cookies {
  import opened JsonValue

  type CookieKey = (Json, Json, Json)

  /** `(cookie.get("name", ""), cookie.get("domain", ""), cookie.get("path", ""))`. */
  function KeyOf(cookie: Json): CookieKey {
    (GetOr(cookie, "name", JStr("")), GetOr(cookie, "domain", JStr("")), GetOr(cookie, "path", JStr("")))
  }

  /** The keys of a list of cookies. */
  function KeysOf(cookies: seq<Json>): set<CookieKey> {
    set i | 0 <= i < |cookies| :: KeyOf(cookies[i])
  }

  /** Appending a cookie adds exactly its key. */
  lemma KeysOfAppend(cookies: seq<Json>, c: Json)
    ensures KeysOf(cookies + [c]) == KeysOf(cookies) + {KeyOf(c)}
  {
    var a := cookies + [c];
    forall k | k in KeysOf(a) ensures k in KeysOf(cookies) + {KeyOf(c)} {
      var i :| 0 <= i < |a| && KeyOf(a[i]) == k;
      if i < |cookies| {
        assert a[i] == cookies[i];
      }
    }
    forall k | k in KeysOf(cookies) ensures k in KeysOf(a) {
      var i :| 0 <= i < |cookies| && KeyOf(cookies[i]) == k;
      assert a[i] == cookies[i];
    }
    assert a[|cookies|] == c;
  }

  /** The merge of the cookies `all`, defined on its last element. */
  function Merged(all: seq<Json>): seq<Json> {
    if all == [] then []
    else
      var m := Merged(all[..|all| - 1]);
      var c := all[|all| - 1];
      if !c.JObj? || KeyOf(c) in KeysOf(m) then m else m + [c]
  }

  /** No key occurs twice. */
  predicate DistinctKeys(cookies: seq<Json>) {
    forall i, j :: 0 <= i < j < |cookies| ==> KeyOf(cookies[i]) != KeyOf(cookies[j])
  }

  /** `all[i]` is the first dictionary in `all` with its key. */
  predicate FirstOfKey(all: seq<Json>, i: int) {
    0 <= i < |all| && all[i].JObj? &&
    forall j :: 0 <= j < i ==> !(all[j].JObj? && KeyOf(all[j]) == KeyOf(all[i]))
  }

  /** The merge holds only dictionaries and is never longer than its input. */
  lemma {:induction false} MergedDicts(all: seq<Json>)
    ensures forall c :: c in Merged(all) ==> c.JObj?
    ensures |Merged(all)| <= |all|
  {
    if all != [] {
      MergedDicts(all[..|all| - 1]);
    }
  }

  /** The last cookie is appended exactly when it is a dictionary with a new key. */
  lemma MergedStep(all: seq<Json>)
    requires all != []
    ensures var m := Merged(all[..|all| - 1]); var c := all[|all| - 1];
      Merged(all) == if c.JObj? && KeyOf(c) !in KeysOf(m) then m + [c] else m
  {
  }

  /** No two cookies of the merge share a key. */
  lemma {:induction false} MergedDistinct(all: seq<Json>)
    ensures DistinctKeys(Merged(all))
  {
    if all != [] {
      MergedDistinct(all[..|all| - 1]);
    }
  }

  /** Being first of its key survives appending to the input. */
  lemma FirstOfKeyPrefix(all: seq<Json>, i: int)
    requires all != [] && FirstOfKey(all[..|all| - 1], i)
    ensures FirstOfKey(all, i)
  {
    assert forall j :: 0 <= j <= i ==> all[..|all| - 1][j] == all[j];
  }

  /** A dictionary whose key no earlier dictionary has is first of its key. */
  lemma FirstOfKeyLast(all: seq<Json>)
    requires all != [] && all[|all| - 1].JObj?
    requires KeyOf(all[|all| - 1]) !in KeysOf(Merged(all[..|all| - 1]))
    ensures FirstOfKey(all, |all| - 1)
  {
    var p := all[..|all| - 1];
    MergedCovers(p);
    forall j | 0 <= j < |all| - 1 && all[j].JObj? ensures KeyOf(all[j]) != KeyOf(all[|all| - 1]) {
      assert p[j] == all[j];
    }
  }

  /** `c` is the first dictionary in `all` with its key. */
  predicate FirstIn(all: seq<Json>, c: Json) {
    exists i :: 0 <= i < |all| && FirstOfKey(all, i) && all[i] == c
  }

  /** Every cookie of the merge is the first dictionary of its key in the input. */
  lemma {:induction false} MergedFirst(all: seq<Json>)
    ensures forall k :: 0 <= k < |Merged(all)| ==> FirstIn(all, Merged(all)[k])
  {
    if all != [] {
      var p := all[..|all| - 1];
      var c := all[|all| - 1];
      MergedFirst(p);
      var m := Merged(p);
      var r := Merged(all);
      MergedStep(all);
      forall k | 0 <= k < |r| ensures FirstIn(all, r[k]) {
        if k < |m| {
          assert r[k] == m[k];
          assert FirstIn(p, m[k]);
          var i :| FirstOfKey(p, i) && p[i] == m[k];
          FirstOfKeyPrefix(all, i);
          assert all[i] == p[i];
        } else {
          assert c.JObj? && KeyOf(c) !in KeysOf(m) && r == m + [c];
          FirstOfKeyLast(all);
          assert all[|all| - 1] == r[k];
        }
      }
    }
  }

  /** Every dictionary of the input has its key in the merge. */
  lemma {:induction false} MergedCovers(all: seq<Json>)
    ensures forall i :: 0 <= i < |all| && all[i].JObj? ==> KeyOf(all[i]) in KeysOf(Merged(all))
  {
    if all != [] {
      var p := all[..|all| - 1];
      MergedCovers(p);
      var m := Merged(p);
      var c := all[|all| - 1];
      MergedStep(all);
      if c.JObj? && KeyOf(c) !in KeysOf(m) {
        KeysOfAppend(m, c);
      }
      assert KeysOf(m) <= KeysOf(Merged(all));
      forall i | 0 <= i < |all| - 1 && all[i].JObj? ensures KeyOf(all[i]) in KeysOf(Merged(all)) {
        assert p[i] == all[i];
      }
    }
  }

  /** `_merge_cookies(existing, incoming)`. */
  method MergeCookies(existing: seq<Json>, incoming: seq<Json>) returns (merged: seq<Json>)
    ensures merged == Merged(existing + incoming)
  {
    var all := existing + incoming;
    merged := [];
    var seen: set<CookieKey> := {};
    for i := 0 to |all|
      invariant merged == Merged(all[..i])
      invariant seen == KeysOf(merged)
    {
      MergedStep(all[..i + 1]);
      assert all[..i + 1][..i] == all[..i];
      var cookie := all[i];
      if cookie.JObj? {
        var key := KeyOf(cookie);
        if key !in seen {
          KeysOfAppend(merged, cookie);
          seen := seen + {key};
          merged := merged + [cookie];
        }
      }
    }
    assert all[..|all|] == all;
  }
}
