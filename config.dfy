/**
 * The configuration window's module-level helpers (UI/MyWindow.py): the
 * configuration schema and its validator, the repair of a loaded
 * configuration dict, output file names and input hints. Paths follow
 * POSIX rules (`os.sep` is `/`).
 */
module Config {
  import opened Wrappers
  import opened Text
  import opened JsonValue
  import opened Coerce

  const FileExtOptions: seq<string> := [".mp4", ".mov", ".avi", ".m4a", ".flv", ".mkv"]
  const DownloadModeOptions: seq<string> := ["不下载", "下载首个", "下载前5个", "下载所有"]
  const StopModeOptions: seq<string> := ["阶段停止", "强制重启", "强制退出"]
  /** The texts of list modes 0, 1 and 2. */
  const ListModeTexts: seq<string> := ["下载未完成", "下载全部", "重新监测URL"]
  const DefaultRulesPath: string := "config/monitor.rules.json"

  /** The values of a configuration, one per key of `default_config()`. */
  datatype Settings = Settings(
    folder: string, filename: string, fileExt: int, fileExtText: string,
    recursionEnabled: bool, recursionDepth: int, monitorTryEnabled: bool, monitorTries: int,
    monitorInteraction: bool, downloadList: bool, downloadMode: int, downloadModeText: string,
    stopMode: int, stopModeText: string, listMode: int, listModeText: string,
    proxyEnabled: bool, proxyAddress: string, proxyPort: string, proxyUser: string, proxyPassword: string,
    maxParallel: int, monitorHeadless: bool, monitorRulesPath: string)

  /** The settings as the dict the program stores, in its key order. */
  function Fields(c: Settings): seq<(string, Json)> {
    [("folder", JStr(c.folder)), ("filename", JStr(c.filename)), ("fileExt", JInt(c.fileExt)),
     ("fileExtText", JStr(c.fileExtText)), ("recursionEnabled", JBool(c.recursionEnabled)),
     ("recursionDepth", JInt(c.recursionDepth)), ("monitorTryEnabled", JBool(c.monitorTryEnabled)),
     ("monitorTries", JInt(c.monitorTries)), ("monitorInteraction", JBool(c.monitorInteraction)),
     ("downloadList", JBool(c.downloadList)), ("downloadMode", JInt(c.downloadMode)),
     ("downloadModeText", JStr(c.downloadModeText)), ("stopMode", JInt(c.stopMode)),
     ("stopModeText", JStr(c.stopModeText)), ("listMode", JInt(c.listMode)),
     ("listModeText", JStr(c.listModeText)), ("proxyEnabled", JBool(c.proxyEnabled)),
     ("proxyAddress", JStr(c.proxyAddress)), ("proxyPort", JStr(c.proxyPort)),
     ("proxyUser", JStr(c.proxyUser)), ("proxyPassword", JStr(c.proxyPassword)),
     ("maxParallel", JInt(c.maxParallel)), ("monitorHeadless", JBool(c.monitorHeadless)),
     ("monitorRulesPath", JStr(c.monitorRulesPath))]
  }

  /** `default_config()`; the default folder (`<cwd>/m3u8`) is a parameter. */
  function DefaultSettings(defaultFolder: string): Settings {
    Settings(defaultFolder, "output", 0, FileExtOptions[0], false, 2, true, 2, true, true,
      1, DownloadModeOptions[1], 0, StopModeOptions[0], 0, ListModeTexts[0],
      false, DefaultProxyAddress, DefaultProxyPort, "", "", 100, true, DefaultRulesPath)
  }

  /** `_config_schema_keys()`. */
  const ConfigKeys: set<string> := {
    "folder", "filename", "fileExt", "fileExtText", "recursionEnabled", "recursionDepth",
    "monitorTryEnabled", "monitorTries", "monitorInteraction", "downloadList", "downloadMode",
    "downloadModeText", "stopMode", "stopModeText", "listMode", "listModeText", "proxyEnabled",
    "proxyAddress", "proxyPort", "proxyUser", "proxyPassword", "maxParallel", "monitorHeadless",
    "monitorRulesPath"}

  const BoolKeys: set<string> := {
    "recursionEnabled", "monitorTryEnabled", "monitorInteraction", "downloadList", "proxyEnabled",
    "monitorHeadless"}

  /** The integer fields and their inclusive ranges, in the validator's order. */
  const IntRanges: seq<(string, int, int)> := [
    ("fileExt", 0, |FileExtOptions| - 1), ("recursionDepth", 1, 6), ("monitorTries", 1, 5),
    ("downloadMode", 0, |DownloadModeOptions| - 1), ("stopMode", 0, |StopModeOptions| - 1),
    ("listMode", 0, 2), ("maxParallel", 1, 999)]

  const StrKeys: set<string> := {
    "folder", "filename", "fileExtText", "downloadModeText", "stopModeText", "listModeText",
    "proxyAddress", "proxyPort", "proxyUser", "proxyPassword", "monitorRulesPath"}

  /** The text fields that must be one of a list of options, in the validator's order. */
  const OptionChecks: seq<(string, seq<string>)> := [
    ("fileExtText", FileExtOptions), ("downloadModeText", DownloadModeOptions),
    ("stopModeText", StopModeOptions), ("listModeText", ListModeTexts)]

  /** Why `_validate_config_payload` raises. */
  datatype ConfigError =
    | NotAnObject
    | SchemaMismatch(missing: set<string>, extra: set<string>)
    | NotBool
    | NotInt(key: string)
    | OutOfRange(key: string, value: int)
    | NotText
    | NotAnOption(key: string)

  /** `payload.get(key)`. */
  function Field(payload: Json, key: string): Json {
    GetOr(payload, key, JNull)
  }

  predicate IntInRange(payload: Json, range: (string, int, int)) {
    Field(payload, range.0).JInt? && range.1 <= Field(payload, range.0).i <= range.2
  }

  predicate OptionHolds(payload: Json, check: (string, seq<string>)) {
    Field(payload, check.0).JStr? && Field(payload, check.0).s in check.1
  }

  /** The error the validator raises for a failing integer field. */
  predicate IntError(payload: Json, range: (string, int, int), e: ConfigError) {
    if Field(payload, range.0).JInt? then e == OutOfRange(range.0, Field(payload, range.0).i) else e == NotInt(range.0)
  }

  /** The integer checks in order: the first field that is no int or out of its range. */
  function CheckInts(payload: Json, ranges: seq<(string, int, int)>): (r: Option<ConfigError>)
    ensures r.None? <==> forall i :: 0 <= i < |ranges| ==> IntInRange(payload, ranges[i])
    ensures r.Some? ==> exists i :: 0 <= i < |ranges| && !IntInRange(payload, ranges[i]) && IntError(payload, ranges[i], r.value)
  {
    if ranges == [] then None
    else
      var (key, lo, hi) := ranges[0];
      var value := Field(payload, key);
      if !value.JInt? then Some(NotInt(key))
      else if value.i < lo || value.i > hi then Some(OutOfRange(key, value.i))
      else
        var r := CheckInts(payload, ranges[1..]);
        assert forall i :: 1 <= i < |ranges| ==> ranges[i] == ranges[1..][i - 1];
        r
  }

  /** The option checks in order: the first field whose text is not one of its options. */
  function CheckOptions(payload: Json, checks: seq<(string, seq<string>)>): (r: Option<ConfigError>)
    ensures r.None? <==> forall i :: 0 <= i < |checks| ==> OptionHolds(payload, checks[i])
    ensures r.Some? ==> exists i :: 0 <= i < |checks| && !OptionHolds(payload, checks[i]) && r.value == NotAnOption(checks[i].0)
  {
    if checks == [] then None
    else if !OptionHolds(payload, checks[0]) then Some(NotAnOption(checks[0].0))
    else
      var r := CheckOptions(payload, checks[1..]);
      assert forall i :: 1 <= i < |checks| ==> checks[i] == checks[1..][i - 1];
      r
  }

  predicate HasSchemaKeys(payload: Json) {
    KeySet(payload) == ConfigKeys
  }

  predicate BoolsHold(payload: Json) {
    forall k :: k in BoolKeys ==> Field(payload, k).JBool?
  }

  predicate IntsHold(payload: Json) {
    forall i :: 0 <= i < |IntRanges| ==> IntInRange(payload, IntRanges[i])
  }

  predicate TextsHold(payload: Json) {
    forall k :: k in StrKeys ==> Field(payload, k).JStr?
  }

  predicate OptionsHold(payload: Json) {
    forall i :: 0 <= i < |OptionChecks| ==> OptionHolds(payload, OptionChecks[i])
  }

  /** What a stored configuration must be: the schema's keys, each with a value of its kind and range. */
  predicate Conforms(payload: Json) {
    payload.JObj? && HasSchemaKeys(payload) && BoolsHold(payload) && IntsHold(payload) && TextsHold(payload) && OptionsHold(payload)
  }

  /** The type and range checks of `_validate_config_payload`, in its order: flags, integers, texts, options. */
  function CheckValues(payload: Json): (r: Option<ConfigError>)
    ensures r.None? <==> BoolsHold(payload) && IntsHold(payload) && TextsHold(payload) && OptionsHold(payload)
  {
    if !BoolsHold(payload) then Some(NotBool)
    else
      match CheckInts(payload, IntRanges)
      case Some(e) => Some(e)
      case None =>
        if !TextsHold(payload) then Some(NotText)
        else CheckOptions(payload, OptionChecks)
  }

  /**
   * `_validate_config_payload`: nothing when the payload conforms, otherwise
   * the first check that fails. A key set other than the schema's, or an
   * integer field out of range, is always rejected.
   */
  function ValidateConfig(payload: Json): (r: Option<ConfigError>)
    ensures r.None? <==> Conforms(payload)
    ensures !payload.JObj? ==> r == Some(NotAnObject)
    ensures payload.JObj? && !HasSchemaKeys(payload) ==>
      r == Some(SchemaMismatch(ConfigKeys - KeySet(payload), KeySet(payload) - ConfigKeys))
  {
    if !payload.JObj? then Some(NotAnObject)
    else if !HasSchemaKeys(payload) then
      var actual := KeySet(payload);
      Some(SchemaMismatch(ConfigKeys - actual, actual - ConfigKeys))
    else CheckValues(payload)
  }

  /** The ranges and options `normalize_config_dict` produces. */
  predicate SettingsInRange(c: Settings) {
    && 0 <= c.fileExt < |FileExtOptions| && c.fileExtText == FileExtOptions[c.fileExt]
    && 1 <= c.recursionDepth <= 6 && 1 <= c.monitorTries <= 5
    && 0 <= c.downloadMode < |DownloadModeOptions| && c.downloadModeText == DownloadModeOptions[c.downloadMode]
    && 0 <= c.stopMode < |StopModeOptions| && c.stopModeText == StopModeOptions[c.stopMode]
    && 0 <= c.listMode <= 2 && c.listModeText == ListModeTexts[c.listMode]
    && 1 <= c.maxParallel <= 999
  }

  /** A payload carrying a key outside the schema, such as `URL`, is rejected. */
  lemma ExtraKeyRejected(payload: Json, key: string)
    requires payload.JObj? && HasKey(payload, key) && key !in ConfigKeys
    ensures ValidateConfig(payload).Some? && ValidateConfig(payload).value.SchemaMismatch?
    ensures key in ValidateConfig(payload).value.extra
  {
    assert key in KeySet(payload);
  }

  // ---- file names -------------------------------------------------------

  /** The characters `_normalize_filename_input` replaces by `_`. */
  predicate Forbidden(c: char) {
    c in {'<', '>', ':', DoubleQuote, '/', '\\', '|', '?', '*'} || c < ' '
  }

  predicate SafeName(s: string) {
    forall c :: c in s ==> !Forbidden(c)
  }

  /** The `re.sub` of `_sanitize_filename`: each character Windows refuses in a file name, and each control character, becomes `_`. */
  function Sanitize(s: string): (r: string)
    ensures |r| == |s| && SafeName(r)
    ensures forall i :: 0 <= i < |s| ==> r[i] == (if Forbidden(s[i]) then '_' else s[i])
  {
    seq(|s|, i requires 0 <= i < |s| => if Forbidden(s[i]) then '_' else s[i])
  }

  /** Nothing to replace in a safe name. */
  lemma SanitizeSafe(s: string)
    requires SafeName(s)
    ensures Sanitize(s) == s
  {
    assert forall i :: 0 <= i < |s| ==> s[i] in s;
  }

  /** `re.sub(...).rstrip(" .").strip()`: a safe, stripped name. */
  function CleanName(s: string): (r: string)
    ensures SafeName(r) && Stripped(r)
  {
    var u := Sanitize(s);
    var t := RStripChars(u, {' ', '.'});
    assert forall c :: c in t ==> c in u by {
      forall c | c in t ensures c in u {
        var k :| 0 <= k < |t| && t[k] == c;
        assert u[k] == c;
      }
    }
    Strip(t)
  }

  /** A safe, stripped name that does not end with a dot is already clean. */
  lemma CleanNameFixed(s: string)
    requires SafeName(s) && Stripped(s) && (s == [] || s[|s| - 1] != '.')
    ensures CleanName(s) == s
  {
    SanitizeSafe(s);
    StripStripped(s);
  }

  /** `os.path.basename` on `/`-separated paths: the text after the last `/`. */
  function Basename(s: string): (r: string)
    ensures |r| <= |s| && r == s[|s| - |r|..]
    ensures '/' !in r
    ensures |r| < |s| ==> s[|s| - |r| - 1] == '/'
  {
    if s == [] then []
    else if s[|s| - 1] == '/' then []
    else
      var r := Basename(s[..|s| - 1]);
      r + [s[|s| - 1]]
  }

  /** The position of the last `c` in `s`. */
  function LastIndex(s: string, c: char): (r: Option<nat>)
    ensures r.None? <==> c !in s
    ensures r.Some? ==> r.value < |s| && s[r.value] == c && c !in s[r.value + 1..]
  {
    if s == [] then None
    else if s[|s| - 1] == c then Some(|s| - 1)
    else
      var r := LastIndex(s[..|s| - 1], c);
      assert s == s[..|s| - 1] + [s[|s| - 1]];
      if r.Some? then
        assert s[r.value + 1..] == s[..|s| - 1][r.value + 1..] + [s[|s| - 1]];
        r
      else r
  }

  predicate OnlyDots(s: string) {
    forall i :: 0 <= i < |s| ==> s[i] == '.'
  }

  /**
   * The root `os.path.splitext` gives for a name without `/`: the text before
   * the last `.`, unless only dots come before it (as in `.profile`).
   */
  function SplitExtRoot(s: string): (r: string)
    ensures |r| <= |s| && r == s[..|r|]
    ensures '.' !in s ==> r == s
    ensures |r| < |s| ==> s[|r|] == '.' && '.' !in s[|r| + 1..] && !OnlyDots(r)
  {
    match LastIndex(s, '.')
    case None => s
    case Some(d) => if OnlyDots(s[..d]) then s else s[..d]
  }

  lemma OutputSafe()
    ensures SafeName("output") && Stripped("output")
  {
    forall c | c in "output" ensures !Forbidden(c) {
      var i :| 0 <= i < |"output"| && "output"[i] == c;
      assert c in {'o', 'u', 't', 'p'};
    }
  }

  /** The name a `filename` entry stands for before it is cleaned: the file's base name without extension. */
  function NameStem(filename: Json): string {
    var t := StripChars(StripChars(Strip(ToText(filename, "")), {DoubleQuote}), {SingleQuote});
    if t == "" then t else Strip(SplitExtRoot(Basename(MapChar(t, '\\', '/'))))
  }

  /**
   * `_normalize_filename_input` (POSIX): the base name of the entry without
   * extension and with forbidden characters replaced, then the fallback,
   * then `output`; never empty and never holding a forbidden character.
   */
  function NormalizeFilename(filename: Json, fallback: Json): (r: string)
    ensures r != "" && SafeName(r) && Stripped(r)
  {
    var fallbackText := ToText(fallback, "output");
    var defaultName := if fallbackText == "" then "output" else fallbackText;
    var stem := NameStem(filename);
    var text := CleanName(if stem == "" then defaultName else stem);
    var named := if text == "" then CleanName(defaultName) else text;
    OutputSafe();
    if named == "" then "output" else named
  }

  /** Stripping characters that are at neither end changes nothing. */
  lemma StripCharsUntouched(s: string, chars: set<char>)
    requires s == [] || (s[0] !in chars && s[|s| - 1] !in chars)
    ensures StripChars(s, chars) == s
  {
  }

  lemma MapCharAbsent(s: string, from: char, to: char)
    requires from !in s
    ensures MapChar(s, from, to) == s
  {
    assert forall i :: 0 <= i < |s| ==> s[i] in s;
  }

  /** A non-empty stem that is already clean is the normalized name. */
  lemma CleanStemKept(filename: Json, fallback: Json)
    requires NameStem(filename) != "" && CleanName(NameStem(filename)) == NameStem(filename)
    ensures NormalizeFilename(filename, fallback) == NameStem(filename)
  {
  }

  /**
   * A plain name, stripped and safe, with no dot and no quote at either end,
   * is kept as it is.
   */
  lemma PlainNameKept(name: string, fallback: Json)
    requires name != "" && Stripped(name) && SafeName(name)
    requires '.' !in name && name[0] != SingleQuote && name[|name| - 1] != SingleQuote
    ensures NormalizeFilename(JStr(name), fallback) == name
  {
    NameStemPlain(name);
    CleanNameFixed(name);
    CleanStemKept(JStr(name), fallback);
  }

  lemma NameStemPlain(name: string)
    requires name != "" && Stripped(name) && SafeName(name)
    requires '.' !in name && name[0] != SingleQuote && name[|name| - 1] != SingleQuote
    ensures NameStem(JStr(name)) == name
  {
    assert name[0] in name && name[|name| - 1] in name;
    StemOfQuoteless(name);
    MapCharAbsent(name, '\\', '/');
    BasenameNoSlash(name);
    SplitExtRootNoDot(name);
    StripStripped(name);
  }

  /** A stripped entry with no quote at either end is read as it is. */
  lemma StemOfQuoteless(s: string)
    requires s != "" && Stripped(s)
    requires s[0] !in {DoubleQuote, SingleQuote} && s[|s| - 1] !in {DoubleQuote, SingleQuote}
    ensures NameStem(JStr(s)) == Strip(SplitExtRoot(Basename(MapChar(s, '\\', '/'))))
  {
    StripStripped(s);
    assert ToText(JStr(s), "") == s;
    StripCharsUntouched(s, {DoubleQuote});
    StripCharsUntouched(s, {SingleQuote});
  }

  lemma SplitExtRootNoDot(s: string)
    requires '.' !in s
    ensures SplitExtRoot(s) == s
  {
  }

  lemma {:induction false} BasenameNoSlash(s: string)
    requires '/' !in s
    ensures Basename(s) == s
  {
    if s != [] {
      assert s[|s| - 1] in s;
      assert forall c :: c in s[..|s| - 1] ==> c in s;
      BasenameNoSlash(s[..|s| - 1]);
    }
  }

  /** The base name of a path is the text after its last `/`, whatever comes before. */
  lemma BasenameAfterSlash(dir: string, name: string)
    requires '/' !in name
    ensures Basename(dir + "/" + name) == name
  {
    var s := dir + "/" + name;
    var r := Basename(s);
    forall j | |s| - |r| <= j < |s| ensures s[j] != '/' {
      assert s[j] == r[j - (|s| - |r|)];
    }
    forall j | |dir| < j < |s| ensures s[j] != '/' {
      assert s[j] == name[j - |dir| - 1];
    }
    assert s[|dir|] == '/';
    assert s[|s| - |name|..] == name;
  }

  /** The directory part of an entry is dropped: only the text after the last `/` or `\\` counts. */
  lemma DirectoryDropped(dir: string, name: string, fallback: Json)
    requires name != "" && Stripped(name) && SafeName(name)
    requires '.' !in name && name[|name| - 1] != SingleQuote
    requires dir != [] && !IsSpace(dir[0]) && dir[0] !in {DoubleQuote, SingleQuote}
    ensures NormalizeFilename(JStr(dir + "/" + name), fallback) == name
  {
    NameStemAfterDir(dir, name);
    CleanNameFixed(name);
    CleanStemKept(JStr(dir + "/" + name), fallback);
  }

  lemma NameStemAfterDir(dir: string, name: string)
    requires name != "" && Stripped(name) && SafeName(name)
    requires '.' !in name && name[|name| - 1] != SingleQuote
    requires dir != [] && !IsSpace(dir[0]) && dir[0] !in {DoubleQuote, SingleQuote}
    ensures NameStem(JStr(dir + "/" + name)) == name
  {
    var s := dir + "/" + name;
    assert s[0] == dir[0] && s[|s| - 1] == name[|name| - 1];
    assert name[|name| - 1] in name;
    StemOfQuoteless(s);
    assert '\\' !in name;
    MapCharAfterSlash(dir, name, '\\', '/');
    BasenameAfterSlash(MapChar(dir, '\\', '/'), name);
    StripStripped(name);
    SplitExtRootNoDot(name);
  }

  lemma MapCharAfterSlash(dir: string, name: string, from: char, to: char)
    requires from !in name && from != '/'
    ensures MapChar(dir + "/" + name, from, to) == MapChar(dir, from, to) + "/" + name
  {
    var s := dir + "/" + name;
    var m := MapChar(dir, from, to) + "/" + name;
    var r := MapChar(s, from, to);
    var d := MapChar(dir, from, to);
    forall i | 0 <= i < |s| ensures r[i] == m[i] {
      if i < |dir| {
        assert s[i] == dir[i] && m[i] == d[i];
      } else if i == |dir| {
        assert s[i] == '/' && m[i] == '/';
      } else {
        assert s[i] == name[i - |dir| - 1] && m[i] == name[i - |dir| - 1];
        assert name[i - |dir| - 1] in name;
      }
    }
    assert |r| == |m|;
  }

  // ---- normalize_config_dict ----------------------------------------------

  /** `merged.update(incoming)`: each incoming pair in turn, the last binding of a key winning. */
  function Update(fields: seq<(string, Json)>, incoming: seq<(string, Json)>): seq<(string, Json)>
    decreases |incoming|
  {
    if incoming == [] then fields
    else Update(PutField(fields, incoming[0].0, incoming[0].1), incoming[1..])
  }

  /** Resolving the folder entry against the file system: left abstract. */
  type FolderResolver = Json -> string

  /**
   * The settings `normalize_config_dict` builds from a loaded dict: every
   * number parsed and clamped into its range (its default when it does not
   * parse), every flag read leniently, the texts that go with the chosen
   * options, the cleaned file name and the repaired proxy.
   */
  function NormalizedSettings(data: Json, defaultFolder: string, resolveFolder: FolderResolver): (c: Settings)
    ensures SettingsInRange(c)
    ensures c.filename != "" && SafeName(c.filename)
    ensures c.monitorRulesPath != "" && c.downloadList
    ensures c.proxyEnabled ==> c.proxyAddress != "" && c.proxyPort != ""
    ensures c.proxyPort == "" || IsDigits(c.proxyPort)
  {
    var defaults := DefaultSettings(defaultFolder);
    var incoming := if data.JObj? then data.fields else [];
    var merged := JObj(Update(Fields(defaults), incoming));
    var fileExt := ToInt(Field(merged, "fileExt"), defaults.fileExt, Some(0), Some(|FileExtOptions| - 1));
    var downloadMode := ToInt(Field(merged, "downloadMode"), defaults.downloadMode, Some(0), Some(|DownloadModeOptions| - 1));
    var stopMode := ToInt(Field(merged, "stopMode"), defaults.stopMode, Some(0), Some(|StopModeOptions| - 1));
    var listMode := ToInt(Field(merged, "listMode"), defaults.listMode, Some(0), Some(2));
    var maxParallel := ToInt(Field(merged, "maxParallel"), defaults.maxParallel, Some(1), Some(999));
    var depth := ToInt(Field(merged, "recursionDepth"), defaults.recursionDepth, None, None);
    var recursionDepth := ToInt(JInt(depth), defaults.recursionDepth, Some(1), Some(6));
    var monitorTries := ToInt(Field(merged, "monitorTries"), defaults.monitorTries, Some(1), Some(5));
    var rulesPath := ToText(Field(merged, "monitorRulesPath"), defaults.monitorRulesPath);
    var proxy := BuildProxyConfig(merged);
    Settings(
      resolveFolder(Field(merged, "folder")),
      NormalizeFilename(Field(merged, "filename"), JStr(defaults.filename)),
      fileExt, FileExtOptions[fileExt],
      ToBool(Field(merged, "recursionEnabled"), defaults.recursionEnabled), recursionDepth,
      ToBool(Field(merged, "monitorTryEnabled"), defaults.monitorTryEnabled), monitorTries,
      ToBool(Field(merged, "monitorInteraction"), defaults.monitorInteraction), true,
      downloadMode, DownloadModeOptions[downloadMode], stopMode, StopModeOptions[stopMode],
      listMode, ListModeTexts[listMode],
      proxy.enabled, proxy.address, proxy.port, proxy.username, proxy.password,
      maxParallel, ToBool(Field(merged, "monitorHeadless"), defaults.monitorHeadless),
      if rulesPath == "" then defaults.monitorRulesPath else rulesPath)
  }

  /** `normalize_config_dict`: the normalized settings, plus the stripped `URL` when the input has one. */
  function NormalizeConfig(data: Json, defaultFolder: string, resolveFolder: FolderResolver): Json {
    var fields := Fields(NormalizedSettings(data, defaultFolder, resolveFolder));
    if HasKey(data, "URL") then JObj(PutField(fields, "URL", JStr(ToText(Field(data, "URL"), ""))))
    else JObj(fields)
  }

  /** An integer entry already in its range survives normalization. */
  lemma InRangeIntKept(value: int, default: int, lo: int, hi: int)
    requires lo <= value <= hi
    ensures ToInt(JInt(value), default, Some(lo), Some(hi)) == value
  {
  }

  // ---- input hints --------------------------------------------------------

  /**
   * `MyWindow._append_hint`: the two stripped texts, joined by a space unless
   * the first already ends with a colon; either alone when the other is empty.
   */
  function AppendHint(prefix: Json, value: Json): (r: string)
    ensures var base := ToText(prefix, ""); var suffix := ToText(value, "");
      && (suffix == "" ==> r == base)
      && (suffix != "" && base == "" ==> r == suffix)
      && (suffix != "" && base != "" ==>
            (r == base + suffix <==> base[|base| - 1] in {'：', ':'})
            && (r == base + suffix || r == base + " " + suffix))
  {
    var base := ToText(prefix, "");
    var suffix := ToText(value, "");
    if suffix == "" then base
    else if base == "" then suffix
    else if EndsWith(base, "：") || EndsWith(base, ":") || EndsWith(base, " ") || EndsWith(base, "\t") || EndsWith(base, "\n") then
      base + suffix
    else
      assert |base + " " + suffix| != |base + suffix|;
      base + " " + suffix
  }
}
