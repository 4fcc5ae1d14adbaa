/**
 * The log pane of the main window (UI/MyWindow.py): with "clean log" on,
 * text is split into lines, an unfinished last line waits in a buffer, and
 * the lines reporting a completed segment are dropped.
 */
module LogView {
  import opened Text

  /** The characters at which Python's `str.splitlines` ends a line. */
  predicate IsLineBreak(c: char) {
    c == '\n' || c == '\r' || c == '\U{0B}' || c == '\U{0C}' || c == '\U{1C}' || c == '\U{1D}'
    || c == '\U{1E}' || c == '\U{85}' || c == '\U{2028}' || c == '\U{2029}'
  }

  predicate NoBreak(s: string) {
    forall j :: 0 <= j < |s| ==> !IsLineBreak(s[j])
  }

  /** The position of the first line break in `s`, or `|s|` when there is none. */
  function FirstBreak(s: string): (r: nat)
    ensures r <= |s| && NoBreak(s[..r])
    ensures r < |s| ==> IsLineBreak(s[r])
  {
    if s == [] then 0
    else if IsLineBreak(s[0]) then 0
    else
      var r := FirstBreak(s[1..]);
      assert s[..r + 1] == [s[0]] + s[1..][..r];
      r + 1
  }

  /** The length of the first line of `s`, its terminator included; `\r\n` is one terminator. */
  function LineLength(s: string): (n: nat)
    requires s != []
    ensures 0 < n <= |s|
  {
    var k := FirstBreak(s);
    if k == |s| then k
    else if s[k] == '\r' && k + 1 < |s| && s[k + 1] == '\n' then k + 2
    else k + 1
  }

  /**
   * A line as `splitlines` returns it: no break except its terminator, which
   * is one break character or `\r\n`.
   */
  predicate WellFormedLine(line: string) {
    && line != []
    && (|| NoBreak(line)
        || (NoBreak(line[..|line| - 1]) && IsLineBreak(line[|line| - 1]))
        || (|line| >= 2 && NoBreak(line[..|line| - 2]) && line[|line| - 2..] == "\r\n"))
  }

  predicate Terminated(line: string) {
    line != [] && IsLineBreak(line[|line| - 1])
  }

  lemma FirstLineWellFormed(s: string)
    requires s != []
    ensures WellFormedLine(s[..LineLength(s)])
    ensures LineLength(s) < |s| ==> Terminated(s[..LineLength(s)])
  {
    var k := FirstBreak(s);
    var n := LineLength(s);
    var line := s[..n];
    assert line[..k] == s[..k];
    if k < |s| && n == k + 2 {
      assert line[|line| - 2..] == "\r\n";
    }
  }

  /** `str.splitlines(keepends=True)`. */
  function SplitLines(s: string): (lines: seq<string>)
    ensures forall i :: 0 <= i < |lines| ==> WellFormedLine(lines[i])
    ensures forall i :: 0 <= i < |lines| - 1 ==> Terminated(lines[i])
    ensures s == [] <==> lines == []
    decreases |s|
  {
    if s == [] then []
    else
      var n := LineLength(s);
      FirstLineWellFormed(s);
      [s[..n]] + SplitLines(s[n..])
  }

  function Concat(lines: seq<string>): string {
    if lines == [] then "" else Concat(lines[..|lines| - 1]) + lines[|lines| - 1]
  }

  lemma {:induction false} ConcatPrepend(line: string, lines: seq<string>)
    ensures Concat([line] + lines) == line + Concat(lines)
    decreases |lines|
  {
    if lines != [] {
      var init := lines[..|lines| - 1];
      assert ([line] + lines)[..|lines|] == [line] + init;
      ConcatPrepend(line, init);
    } else {
      assert [line] + lines == [line];
      assert [line][..0] == [];
    }
  }

  lemma ConcatAppend(lines: seq<string>, line: string)
    ensures Concat(lines + [line]) == Concat(lines) + line
  {
    assert (lines + [line])[..|lines|] == lines;
  }

  /** The lines put back together give the text split. */
  lemma {:induction false} SplitLinesConcat(s: string)
    ensures Concat(SplitLines(s)) == s
    decreases |s|
  {
    if s != [] {
      var n := LineLength(s);
      var rest := SplitLines(s[n..]);
      assert SplitLines(s) == [s[..n]] + rest;
      SplitLinesConcat(s[n..]);
      ConcatPrepend(s[..n], rest);
      TwoParts(s, n);
    }
  }

  /** `_is_completed_line`: after stripping, a `completed<TAB>` or `[segment][completed]` report. */
  predicate IsCompletedLine(line: string) {
    var text := Strip(line);
    StartsWith(text, "completed\t") || StartsWith(text, "[segment][completed]")
  }

  /** Trailing whitespace after stripped text goes. */
  lemma {:induction false} StripTrailing(t: string, w: string)
    requires t != [] && Stripped(t)
    requires forall j :: 0 <= j < |w| ==> IsSpace(w[j])
    ensures Strip(t + w) == t
    decreases |w|
  {
    if w == [] {
      assert t + w == t;
      StripStripped(t);
    } else {
      var s := t + w;
      assert s[0] == t[0] && s[|s| - 1] == w[|w| - 1];
      assert s[..|s| - 1] == t + w[..|w| - 1];
      StripTrailing(t, w[..|w| - 1]);
    }
  }

  /**
   * Stripping removes the tab that follows a bare `completed`, so that line
   * is kept; a report naming something after the tab is dropped.
   */
  lemma CompletedLineForms(name: string)
    requires name != [] && !IsSpace(name[|name| - 1])
    ensures !IsCompletedLine("completed\t\n")
    ensures IsCompletedLine("completed\t" + name + "\n")
  {
    StripTrailing("completed", "\t\n");
    assert "completed" + "\t\n" == "completed\t\n";
    var t := "completed\t" + name;
    assert t[0] == 'c' && t[|t| - 1] == name[|name| - 1];
    StripTrailing(t, "\n");
    assert t + "\n" == "completed\t" + name + "\n";
    assert t[..10] == "completed\t";
  }

  /** The lines that are not completed-segment reports, in order. */
  function KeepLines(lines: seq<string>): (r: seq<string>)
    ensures forall l :: l in r <==> l in lines && !IsCompletedLine(l)
  {
    if lines == [] then []
    else
      var init := lines[..|lines| - 1];
      var last := lines[|lines| - 1];
      assert lines == init + [last];
      KeepLines(init) + (if IsCompletedLine(last) then [] else [last])
  }

  predicate EndsWithNewline(line: string) {
    line != [] && (line[|line| - 1] == '\n' || line[|line| - 1] == '\r')
  }

  /**
   * The lines of the buffered text that are shown now, and the fragment kept
   * for later: the last line when it does not end with `\n` or `\r`.
   */
  function Drain(text: string): (seq<string>, string) {
    var lines := SplitLines(text);
    if lines != [] && !EndsWithNewline(lines[|lines| - 1]) then
      (lines[..|lines| - 1], lines[|lines| - 1])
    else (lines, "")
  }

  /**
   * Nothing is lost: the lines taken and the fragment kept make up the text;
   * the fragment holds no `\n` and no `\r`.
   */
  lemma DrainRoundTrip(text: string)
    ensures Concat(Drain(text).0) + Drain(text).1 == text
    ensures '\n' !in Drain(text).1 && '\r' !in Drain(text).1
  {
    var lines := SplitLines(text);
    SplitLinesConcat(text);
    if lines != [] && !EndsWithNewline(lines[|lines| - 1]) {
      var init := lines[..|lines| - 1];
      var last := lines[|lines| - 1];
      assert lines == init + [last];
      ConcatAppend(init, last);
      FragmentHasNoNewline(last);
    }
  }

  lemma FragmentHasNoNewline(line: string)
    requires WellFormedLine(line) && !EndsWithNewline(line)
    ensures '\n' !in line && '\r' !in line
  {
    assert |line| >= 2 ==> line[|line| - 1] == line[|line| - 2..][1];
    assert forall j :: 0 <= j < |line| - 1 ==> line[j] == line[..|line| - 1][j];
  }

  /** The filtering loop of `printInTextBrowser`. */
  method FilterLines(lines: seq<string>) returns (filtered: seq<string>)
    ensures filtered == KeepLines(lines)
  {
    filtered := [];
    for k := 0 to |lines|
      invariant filtered == KeepLines(lines[..k])
    {
      assert lines[..k + 1][..k] == lines[..k];
      if !IsCompletedLine(lines[k]) {
        filtered := filtered + [lines[k]];
      }
    }
    assert lines[..|lines|] == lines;
  }

  /** The main window's log pane: `_ui_line_buffer` and the text appended so far. */
  class LogPane {
    var buffer: string
    var shown: string

    constructor ()
      ensures buffer == "" && shown == ""
    {
      buffer := "";
      shown := "";
    }

    /**
     * `printInTextBrowser(text)`: empty text changes nothing; with clean log
     * off the text is appended as it is; with it on, the complete lines of
     * the buffer and the text are appended but for completed-segment
     * reports, and the unfinished rest is buffered.
     */
    method PrintInTextBrowser(text: string, cleanLog: bool)
      modifies this
      ensures text == "" ==> buffer == old(buffer) && shown == old(shown)
      ensures text != "" && !cleanLog ==> buffer == old(buffer) && shown == old(shown) + text
      ensures text != "" && cleanLog ==>
        buffer == Drain(old(buffer) + text).1
        && shown == old(shown) + Concat(KeepLines(Drain(old(buffer) + text).0))
    {
      if text == "" {
        return;
      }
      if !cleanLog {
        shown := shown + text;
        return;
      }
      buffer := buffer + text;
      var lines := SplitLines(buffer);
      ghost var drained := Drain(buffer);
      if lines != [] && !EndsWithNewline(lines[|lines| - 1]) {
        buffer := lines[|lines| - 1];
        lines := lines[..|lines| - 1];
      } else {
        buffer := "";
      }
      var filtered := FilterLines(lines);
      if filtered != [] {
        shown := shown + Concat(filtered);
      } else {
        assert Concat(filtered) == "";
      }
    }
  }
}
