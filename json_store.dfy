/**
 * The JSON-file-backed dictionaries (JsonProcessor.py): item access on the
 * loaded document, and the split of a saved download list into completed
 * and pending URLs. Reading and writing the file are given to the model as
 * the parsed document and are otherwise left out.
 */
module JsonStore {
  import opened Wrappers
  import opened Text
  import opened JsonValue

  /** A JSON file loaded into memory. */
  class JsonProcessor {
    var data: Json

    /**
     * `self.data` as `__init__` first sets it: the data handed in, or JSON
     * null standing for `None` when no data is given and the file is still
     * to be read.
     */
    constructor (data: Json)
      ensures this.data == data
    {
      this.data := data;
    }

    /**
     * `read()`: the parsed document, or nothing when the file is missing or
     * not JSON. A broken file is replaced by an empty dict when `cover` is
     * set; otherwise `read` raises and the data stays as it was.
     */
    method Read(parsed: Option<Json>, cover: bool) returns (r: Result<bool>)
      modifies this
      ensures parsed.Some? ==> r == Ok(true) && data == parsed.value
      ensures parsed.None? && cover ==> r == Ok(true) && data == JObj([])
      ensures parsed.None? && !cover ==> r.Err? && data == old(data)
    {
      if parsed.Some? {
        data := parsed.value;
        return Ok(true);
      }
      if cover {
        data := JObj([]);
        return Ok(true);
      }
      return Err("read error");
    }

    /** `self[item]`: a missing key is first stored with the empty string. */
    method GetItem(item: string) returns (r: Result<Json>)
      modifies this
      ensures !old(data).JObj? ==> r.Err? && data == old(data)
      ensures old(data).JObj? && Lookup(old(data).fields, item).Some? ==>
        r == Ok(Lookup(old(data).fields, item).value) && data == old(data)
      ensures old(data).JObj? && Lookup(old(data).fields, item).None? ==>
        r == Ok(JStr("")) && data == JObj(old(data).fields + [(item, JStr(""))])
      ensures r.Ok? ==> data.JObj? && Lookup(data.fields, item) == Some(r.value)
    {
      if !data.JObj? {
        return Err("not a dict");
      }
      var found := Lookup(data.fields, item);
      if found.None? {
        PutFieldAbsent(data.fields, item, JStr(""));
        data := JObj(data.fields + [(item, JStr(""))]);
        return Ok(JStr(""));
      }
      return Ok(found.value);
    }

    /** `self[key] = value`. */
    method SetItem(key: string, value: Json) returns (r: Result<bool>)
      modifies this
      ensures !old(data).JObj? ==> r.Err? && data == old(data)
      ensures old(data).JObj? ==> r == Ok(true) && data == JObj(PutField(old(data).fields, key, value))
    {
      if !data.JObj? {
        return Err("not a dict");
      }
      data := JObj(PutField(data.fields, key, value));
      return Ok(true);
    }

    /** `del self[key]`: a missing key raises `KeyError` and nothing changes. */
    method DelItem(key: string) returns (r: Result<bool>)
      modifies this
      ensures !old(data).JObj? || Lookup(old(data).fields, key).None? ==> r.Err? && data == old(data)
      ensures old(data).JObj? && Lookup(old(data).fields, key).Some? ==>
        r == Ok(true) && data == JObj(RemoveField(old(data).fields, key))
    {
      if !data.JObj? || Lookup(data.fields, key).None? {
        return Err("KeyError");
      }
      data := JObj(RemoveField(data.fields, key));
      return Ok(true);
    }

    /**
     * `ConfigJson.clear()`: a dict or a list is emptied; any other document
     * has no `clear` and raises `AttributeError`.
     */
    method Clear() returns (r: Result<bool>)
      modifies this
      ensures !old(data).JObj? && !old(data).JArr? ==> r.Err? && data == old(data)
      ensures old(data).JObj? ==> r == Ok(true) && data == JObj([])
      ensures old(data).JArr? ==> r == Ok(true) && data == JArr([])
    {
      match data
      case JObj(_) =>
        data := JObj([]);
        return Ok(true);
      case JArr(_) =>
        data := JArr([]);
        return Ok(true);
      case _ =>
        return Err("AttributeError");
    }
  }

  /**
   * `JsonProcessor(filePath, data, cover)`: data handed in (anything but
   * `None`, here JSON null) is kept and written out; without it the file is
   * read, where `parsed` is what `json.load` gives, or nothing for a missing
   * or broken file. A broken file becomes `{}` when `cover` is set and
   * otherwise makes the construction raise.
   */
  method Open(data: Json, parsed: Option<Json>, cover: bool) returns (r: Result<JsonProcessor>)
    ensures r.Ok? ==> fresh(r.value)
    ensures !data.JNull? ==> r.Ok? && r.value.data == data
    ensures data.JNull? && parsed.Some? ==> r.Ok? && r.value.data == parsed.value
    ensures data.JNull? && parsed.None? ==> (r.Ok? <==> cover)
    ensures data.JNull? && parsed.None? && r.Ok? ==> r.value.data == JObj([])
  {
    var p := new JsonProcessor(data);
    if data.JNull? {
      var read := p.Read(parsed, cover);
      if read.Err? {
        return Err(read.error);
      }
    }
    return Ok(p);
  }

  /** Storing a new key appends it and leaves the other keys as they were. */
  lemma {:induction false} PutFieldAbsent(fields: seq<(string, Json)>, key: string, v: Json)
    requires Lookup(fields, key).None?
    ensures PutField(fields, key, v) == fields + [(key, v)]
  {
    if fields != [] {
      assert fields[0].0 != key;
      PutFieldAbsent(fields[1..], key, v);
      ConsAppend(fields, (key, v));
    }
  }

  lemma ConsAppend<T>(s: seq<T>, e: T)
    requires s != []
    ensures [s[0]] + (s[1..] + [e]) == s + [e]
  {
    assert [s[0]] + s[1..] == s;
  }

  // ---- download lists -------------------------------------------------------

  /**
   * What `paddingList` takes from one entry: its stripped URL and whether it
   * is completed, or nothing for an entry that is not a dict or has no URL.
   */
  function Entry(item: Json): (r: Option<(string, bool)>)
    ensures r.Some? ==> item.JObj? && r.value.0 != "" && Stripped(r.value.0)
    ensures r.Some? ==> r.value.0 == Strip(Str(GetOr(item, "url", JStr(""))))
    ensures r.Some? ==> (r.value.1 <==> Truthy(GetOr(item, "completed", JBool(false))))
    ensures item.JObj? && Strip(Str(GetOr(item, "url", JStr("")))) != "" ==> r.Some?
  {
    if !item.JObj? then None
    else
      var url := Strip(Str(GetOr(item, "url", JStr(""))));
      if url == "" then None
      else Some((url, Truthy(GetOr(item, "completed", JBool(false)))))
  }

  /** The entries under the digit keys of a download list, in key order. */
  function Entries(fields: seq<(string, Json)>, whole: seq<(string, Json)>): seq<(string, bool)> {
    if fields == [] then []
    else
      var init := fields[..|fields| - 1];
      var key := fields[|fields| - 1].0;
      var rest := Entries(init, whole);
      if IsDigits(key) && Lookup(whole, key).Some? && Entry(Lookup(whole, key).value).Some? then
        rest + [Entry(Lookup(whole, key).value).value]
      else rest
  }

  /** The URLs of the entries marked (or not marked) completed, in order. */
  function UrlsWith(entries: seq<(string, bool)>, done: bool): seq<string> {
    if entries == [] then []
    else
      var last := entries[|entries| - 1];
      UrlsWith(entries[..|entries| - 1], done) + (if last.1 == done then [last.0] else [])
  }

  /** Every URL taken is non-empty and has no surrounding whitespace. */
  lemma {:induction false} EntriesClean(fields: seq<(string, Json)>, whole: seq<(string, Json)>)
    ensures forall k :: 0 <= k < |Entries(fields, whole)| ==>
      Entries(fields, whole)[k].0 != "" && Stripped(Entries(fields, whole)[k].0)
  {
    if fields != [] {
      EntriesClean(fields[..|fields| - 1], whole);
    }
  }

  /** A URL is in a list exactly when an entry with that URL and that state is. */
  lemma {:induction false} UrlsWithMembers(entries: seq<(string, bool)>, done: bool)
    ensures forall u :: u in UrlsWith(entries, done) <==> exists k :: 0 <= k < |entries| && entries[k] == (u, done)
  {
    if entries != [] {
      var init := entries[..|entries| - 1];
      UrlsWithMembers(init, done);
      assert forall k :: 0 <= k < |init| ==> init[k] == entries[k];
    }
  }

  lemma EntriesStep(fields: seq<(string, Json)>, whole: seq<(string, Json)>, k: nat)
    requires k < |fields|
    ensures var key := fields[k].0;
      Entries(fields[..k + 1], whole) ==
        if IsDigits(key) && Lookup(whole, key).Some? && Entry(Lookup(whole, key).value).Some? then
          Entries(fields[..k], whole) + [Entry(Lookup(whole, key).value).value]
        else Entries(fields[..k], whole)
  {
    assert fields[..k + 1][..k] == fields[..k];
  }

  lemma UrlsWithAppend(entries: seq<(string, bool)>, e: (string, bool), done: bool)
    ensures UrlsWith(entries + [e], done) == UrlsWith(entries, done) + (if e.1 == done then [e.0] else [])
  {
    assert (entries + [e])[..|entries|] == entries;
  }

  /** Every entry lands in exactly one of the two lists. */
  lemma {:induction false} UrlsPartition(entries: seq<(string, bool)>)
    ensures |UrlsWith(entries, true)| + |UrlsWith(entries, false)| == |entries|
  {
    if entries != [] {
      UrlsPartition(entries[..|entries| - 1]);
    }
  }

  /** A key that is not all digits adds nothing to the lists. */
  lemma NonDigitKeyIgnored(fields: seq<(string, Json)>, whole: seq<(string, Json)>, key: string, v: Json)
    requires !IsDigits(key)
    ensures Entries(fields + [(key, v)], whole) == Entries(fields, whole)
  {
    assert (fields + [(key, v)])[..|fields|] == fields;
  }

  /** A download list loaded read-only, split into completed and pending URLs. */
  class ReadDownloadJson {
    var data: Json
    var completed: seq<string>
    var uncompleted: seq<string>

    /**
     * A download list read from its parsed document: both lists start empty
     * and `paddingList` fills them; a document that is not a dict leaves them
     * empty (the source raises there).
     */
    constructor (data: Json)
      ensures this.data == data
      ensures data.JObj? ==> completed == UrlsWith(Entries(data.fields, data.fields), true)
      ensures data.JObj? ==> uncompleted == UrlsWith(Entries(data.fields, data.fields), false)
      ensures !data.JObj? ==> completed == [] && uncompleted == []
    {
      this.data := data;
      completed := [];
      uncompleted := [];
      new;
      var ok := PaddingList();
    }

    /**
     * `paddingList()`: the URL of every dict under a digit key is appended
     * to the completed or the pending list, in key order; a document that
     * is not a dict raises and changes nothing.
     */
    method PaddingList() returns (ok: bool)
      modifies this
      ensures data == old(data)
      ensures ok <==> data.JObj?
      ensures !ok ==> completed == old(completed) && uncompleted == old(uncompleted)
      ensures ok ==> completed == old(completed) + UrlsWith(Entries(data.fields, data.fields), true)
      ensures ok ==> uncompleted == old(uncompleted) + UrlsWith(Entries(data.fields, data.fields), false)
    {
      if !data.JObj? {
        return false;
      }
      var fields := data.fields;
      var done: seq<string> := [];
      var pending: seq<string> := [];
      for k := 0 to |fields|
        invariant data == old(data) && completed == old(completed) && uncompleted == old(uncompleted)
        invariant done == UrlsWith(Entries(fields[..k], fields), true)
        invariant pending == UrlsWith(Entries(fields[..k], fields), false)
      {
        var key := fields[k].0;
        EntriesStep(fields, fields, k);
        ghost var before := Entries(fields[..k], fields);
        if IsDigits(key) {
          assert Lookup(fields, key).Some?;
          var entry := Entry(Lookup(fields, key).value);
          if entry.Some? {
            UrlsWithAppend(before, entry.value, true);
            UrlsWithAppend(before, entry.value, false);
            if entry.value.1 {
              done := done + [entry.value.0];
            } else {
              pending := pending + [entry.value.0];
            }
          }
        }
      }
      assert fields[..|fields|] == fields;
      completed := completed + done;
      uncompleted := uncompleted + pending;
      return true;
    }

    /** `write()`: a read-only list refuses to be written. */
    method Write() returns (r: Result<bool>)
      ensures r.Err?
    {
      return Err("not allowed to use method 'write'");
    }
  }
}
