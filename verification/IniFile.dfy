/** The editor of the rclone configuration file: one section replaced or removed in the text, against a
    map from section headers to bodies. */
module IniFile {
  import opened Text

  function Header(name: string): string {
    "[" + name + "]"
  }

  /** A trimmed line that starts a section. */
  predicate IsHeader(t: string) {
    t != "" && t[0] == '[' && t[|t| - 1] == ']'
  }

  // ---- The editor ------------------------------------------------------------------------------

  /** Where the scan for a section ends up: the last header line seen before another section starts, and
      the line that starts that other section. */
  function Scan(lines: seq<string>, header: string, i: nat, start: int): (int, int)
    requires i <= |lines|
    decreases |lines| - i
  {
    if i == |lines| then (start, |lines|)
    else if TrimSpace(lines[i]) == header then Scan(lines, header, i + 1, i)
    else if start >= 0 && IsHeader(TrimSpace(lines[i])) then (start, i)
    else Scan(lines, header, i + 1, start)
  }

  lemma {:induction false} ScanBounds(lines: seq<string>, header: string, i: nat, start: int)
    requires i <= |lines| && -1 <= start < i
    ensures var (s, e) := Scan(lines, header, i, start); -1 <= s < |lines| + 1 && (s >= 0 ==> s < e) && i <= e <= |lines|
    decreases |lines| - i
  {
    if i < |lines| {
      ScanBounds(lines, header, i + 1, start);
      ScanBounds(lines, header, i + 1, i);
    }
  }

  /** The text without its trailing line breaks. */
  function TrimNewlines(s: string): string {
    if s != "" && s[|s| - 1] == '\n' then TrimNewlines(s[..|s| - 1]) else s
  }

  function Upsert(content: string, name: string, replacement: string): string {
    if TrimSpace(content) == "" then replacement + "\n"
    else
      var lines := Split(content, '\n');
      var (start, end) := Scan(lines, Header(name), 0, -1);
      ScanBounds(lines, Header(name), 0, -1);
      if start < 0 then TrimNewlines(content) + "\n\n" + replacement + "\n"
      else TrimSpace(Join(lines[..start] + Split(replacement, '\n') + lines[end..], '\n')) + "\n"
  }

  function Remove(content: string, name: string): string {
    if TrimSpace(content) == "" then ""
    else
      var lines := Split(content, '\n');
      var (start, end) := Scan(lines, Header(name), 0, -1);
      ScanBounds(lines, Header(name), 0, -1);
      if start < 0 then TrimSpace(content) + "\n"
      else
        var trimmed := TrimSpace(Join(lines[..start] + lines[end..], '\n'));
        if trimmed == "" then "" else trimmed + "\n"
  }

  method UpsertINISection(content: string, sectionName: string, replacement: string) returns (updated: string)
    ensures updated == Upsert(content, sectionName, replacement)
  {
    hide IsSpace, TrimSpace, Split, Join, Scan, TrimNewlines;
    if TrimSpace(content) == "" {
      return replacement + "\n";
    }
    var lines := Split(content, '\n');
    var header := "[" + sectionName + "]";
    var start, end := FindSection(lines, header);
    ScanBounds(lines, header, 0, -1);
    if start < 0 {
      return TrimNewlines(content) + "\n\n" + replacement + "\n";
    }
    var merged: seq<string> := [];
    merged := merged + lines[..start];
    merged := merged + Split(replacement, '\n');
    merged := merged + lines[end..];
    assert merged == lines[..start] + Split(replacement, '\n') + lines[end..];
    return TrimSpace(Join(merged, '\n')) + "\n";
  }

  method RemoveINISection(content: string, sectionName: string) returns (updated: string)
    ensures updated == Remove(content, sectionName)
  {
    hide IsSpace, TrimSpace, Split, Join, Scan, TrimNewlines;
    if TrimSpace(content) == "" {
      return "";
    }
    var lines := Split(content, '\n');
    var header := "[" + sectionName + "]";
    var start, end := FindSection(lines, header);
    ScanBounds(lines, header, 0, -1);
    if start < 0 {
      return TrimSpace(content) + "\n";
    }
    var merged: seq<string> := [];
    merged := merged + lines[..start];
    merged := merged + lines[end..];
    assert merged == lines[..start] + lines[end..];
    var trimmed := TrimSpace(Join(merged, '\n'));
    if trimmed == "" {
      return "";
    }
    return trimmed + "\n";
  }

  /** The scanning loop both editors contain. */
  method FindSection(lines: seq<string>, header: string) returns (start: int, end: int)
    ensures (start, end) == Scan(lines, header, 0, -1)
  {
    hide IsSpace, TrimSpace;
    start := -1;
    end := |lines|;
    for i := 0 to |lines|
      invariant end == |lines|
      invariant Scan(lines, header, 0, -1) == Scan(lines, header, i, start)
    {
      var line := lines[i];
      if TrimSpace(line) == header {
        start := i;
        continue;
      }
      if start >= 0 && IsHeader(TrimSpace(line)) {
        end := i;
        break;
      }
    }
  }

  // ---- What the text means ---------------------------------------------------------------------

  /** The trimmed lines that are not blank. */
  function Clean(lines: seq<string>): seq<string> {
    if lines == [] then [] else CleanLine(lines[0]) + Clean(lines[1..])
  }

  function CleanLine(line: string): seq<string> {
    var t := TrimSpace(line);
    if t == "" then [] else [t]
  }

  function CleanText(content: string): seq<string> {
    Clean(Split(content, '\n'))
  }

  // ---- Cleaning and text operations ------------------------------------------------------------

  lemma {:induction false} CleanConcat(a: seq<string>, b: seq<string>)
    ensures Clean(a + b) == Clean(a) + Clean(b)
  {
    hide CleanLine;
    if a == [] {
      assert a + b == b;
    } else {
      var h, t := a[0], a[1..];
      CleanConcat(t, b);
      assert a + b == [h] + (t + b);
      CleanFirst(h, t + b);
      hide Clean;
      assert CleanLine(h) + (Clean(t) + Clean(b)) == CleanLine(h) + Clean(t) + Clean(b);
    }
  }

  lemma CleanFirst(line: string, rest: seq<string>)
    ensures Clean([line] + rest) == CleanLine(line) + Clean(rest)
  {
    hide CleanLine;
    assert ([line] + rest)[1..] == rest;
  }

  lemma TextConcat(a: string, b: string)
    ensures CleanText(a + "\n" + b) == CleanText(a) + CleanText(b)
  {
    hide Split, Clean;
    SplitConcat(a, '\n', b);
    assert a + "\n" + b == a + ['\n'] + b;
    CleanConcat(Split(a, '\n'), Split(b, '\n'));
  }

  lemma EmptyText()
    ensures CleanText("") == []
  {
    assert Split("", '\n') == [""];
    CleanFirst("", []);
    assert TrimSpace("") == "" && [""] + [] == [""];
  }

  lemma TrailingNewline(a: string)
    ensures CleanText(a + "\n") == CleanText(a)
  {
    hide CleanText;
    TextConcat(a, "");
    EmptyText();
    assert a + "\n" + "" == a + "\n";
  }

  lemma SpaceBefore(c: char, s: string)
    requires IsSpace(c)
    ensures CleanText([c] + s) == CleanText(s)
  {
    hide IsSpace, TrimSpace, Clean;
    if c == '\n' {
      TextConcat("", s);
      EmptyText();
      assert "" + "\n" + s == [c] + s;
    } else {
      var lines := Split(s, '\n');
      assert ([c] + s)[1..] == s;
      assert Split([c] + s, '\n') == [[c] + lines[0]] + lines[1..];
      TrimLeftSpace(c, lines[0]);
      CleanFirst([c] + lines[0], lines[1..]);
      CleanFirst(lines[0], lines[1..]);
      assert lines == [lines[0]] + lines[1..];
    }
  }

  lemma {:induction false} TrimLeftText(s: string)
    ensures CleanText(TrimLeft(s)) == CleanText(s)
  {
    hide IsSpace, CleanText;
    if s != "" && IsSpace(s[0]) {
      var c, rest := s[0], s[1..];
      assert TrimLeft(s) == TrimLeft(rest);
      hide TrimLeft;
      TrimLeftText(rest);
      SpaceBefore(c, rest);
      assert [c] + rest == s;
    }
  }

  lemma SpaceAfter(s: string, c: char)
    requires IsSpace(c)
    ensures CleanText(s + [c]) == CleanText(s)
  {
    if c == '\n' {
      TrailingNewline(s);
      assert s + "\n" == s + [c];
    } else {
      hide IsSpace, Split, Clean;
      SplitExtend(s, '\n', c);
      var lines := Split(s, '\n');
      var init, last := lines[..|lines| - 1], lines[|lines| - 1];
      assert lines == init + [last];
      LastTrimmed(init, last, c);
    }
  }

  lemma LastTrimmed(init: seq<string>, last: string, c: char)
    requires IsSpace(c)
    ensures Clean(init + [last + [c]]) == Clean(init + [last])
  {
    hide IsSpace, TrimSpace, Clean;
    TrimRightSpace(last, c);
    CleanConcat(init, [last + [c]]);
    CleanConcat(init, [last]);
    CleanFirst(last, []);
    CleanFirst(last + [c], []);
    assert [last] + [] == [last] && [last + [c]] + [] == [last + [c]];
  }

  lemma {:induction false} TrimRightText(s: string)
    ensures CleanText(TrimRight(s)) == CleanText(s)
  {
    hide IsSpace, CleanText;
    if s != "" && IsSpace(s[|s| - 1]) {
      var rest, c := s[..|s| - 1], s[|s| - 1];
      assert TrimRight(s) == TrimRight(rest);
      hide TrimRight;
      TrimRightText(rest);
      SpaceAfter(rest, c);
      assert rest + [c] == s;
    }
  }

  /** Outer white space means nothing. */
  lemma TrimText(s: string)
    ensures CleanText(TrimSpace(s)) == CleanText(s)
  {
    hide CleanText;
    TrimLeftText(s);
    TrimRightText(TrimLeft(s));
  }

  lemma {:induction false} TrimNewlinesText(s: string)
    ensures CleanText(TrimNewlines(s)) == CleanText(s)
  {
    hide CleanText;
    if s != "" && s[|s| - 1] == '\n' {
      TrimNewlinesText(s[..|s| - 1]);
      TrailingNewline(s[..|s| - 1]);
      assert s[..|s| - 1] + "\n" == s;
    }
  }
}
