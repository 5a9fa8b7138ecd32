/** Repeating an edit, on the text itself: replacing a section that is there is idempotent to the letter. */
module IniRepeats {
  import opened Text
  import opened IniFile
  import opened IniSections

  // ---- Trimming joined lines -------------------------------------------------------------------

  /** The lines without the blank ones in front, the first one trimmed in front. */
  function DropFront(lines: seq<string>): seq<string> {
    if lines == [] then []
    else if TrimLeft(lines[0]) == "" then DropFront(lines[1..])
    else [TrimLeft(lines[0])] + lines[1..]
  }

  function DropBack(lines: seq<string>): seq<string> {
    if lines == [] then []
    else
      var n := |lines| - 1;
      if TrimRight(lines[n]) == "" then DropBack(lines[..n]) else lines[..n] + [TrimRight(lines[n])]
  }

  lemma {:induction false} TrimLeftConcat(a: string, b: string)
    ensures TrimLeft(a + b) == if TrimLeft(a) == "" then TrimLeft(b) else TrimLeft(a) + b
  {
    hide IsSpace;
    if a == "" {
      assert a + b == b;
    } else {
      assert (a + b)[1..] == a[1..] + b;
      if IsSpace(a[0]) { TrimLeftConcat(a[1..], b); }
    }
  }

  lemma {:induction false} TrimRightConcat(a: string, b: string)
    ensures TrimRight(a + b) == if TrimRight(b) == "" then TrimRight(a) else a + TrimRight(b)
  {
    hide IsSpace;
    if b == "" {
      assert a + b == a;
    } else {
      assert (a + b)[..|a + b| - 1] == a + b[..|b| - 1];
      if IsSpace(b[|b| - 1]) { TrimRightConcat(a, b[..|b| - 1]); }
    }
  }

  lemma NewlineIsSpace()
    ensures IsSpace('\n') && TrimLeft("\n") == "" && TrimRight("\n") == ""
  {
  }

  lemma JoinFirst(line: string, rest: seq<string>)
    requires rest != []
    ensures Join([line] + rest, '\n') == line + ("\n" + Join(rest, '\n'))
  {
    assert ([line] + rest)[1..] == rest;
  }

  lemma {:induction false} JoinLast(rest: seq<string>, line: string)
    requires rest != []
    ensures Join(rest + [line], '\n') == Join(rest, '\n') + "\n" + line
  {
    if |rest| == 1 {
      JoinFirst(rest[0], [line]);
      assert rest + [line] == [rest[0]] + [line];
    } else {
      JoinLast(rest[1..], line);
      JoinFirst(rest[0], rest[1..] + [line]);
      JoinFirst(rest[0], rest[1..]);
      assert rest + [line] == [rest[0]] + (rest[1..] + [line]) && rest == [rest[0]] + rest[1..];
    }
  }

  lemma {:induction false} TrimLeftLines(pre: seq<string>, rest: seq<string>)
    requires rest != [] && TrimLeft(Join(rest, '\n')) == Join(rest, '\n')
    ensures TrimLeft(Join(pre + rest, '\n')) == Join(DropFront(pre) + rest, '\n')
  {
    hide Join, TrimLeft;
    if pre == [] {
      assert pre + rest == rest && DropFront(pre) + rest == rest;
    } else {
      var x, more := pre[0], pre[1..] + rest;
      assert pre + rest == [x] + more;
      JoinFirst(x, more);
      TrimLeftConcat(x, "\n" + Join(more, '\n'));
      if TrimLeft(x) == "" {
        NewlineIsSpace();
        TrimLeftConcat("\n", Join(more, '\n'));
        TrimLeftLines(pre[1..], rest);
      } else {
        JoinFirst(TrimLeft(x), more);
        assert DropFront(pre) + rest == [TrimLeft(x)] + more;
      }
    }
  }

  lemma {:induction false} TrimRightLines(rest: seq<string>, post: seq<string>)
    requires rest != [] && TrimRight(Join(rest, '\n')) == Join(rest, '\n')
    ensures TrimRight(Join(rest + post, '\n')) == Join(rest + DropBack(post), '\n')
  {
    hide Join, TrimRight;
    if post == [] {
      assert rest + post == rest && rest + DropBack(post) == rest;
    } else {
      var n := |post| - 1;
      var x, more := post[n], rest + post[..n];
      assert rest + post == more + [x];
      JoinLast(more, x);
      TrimRightConcat(Join(more, '\n') + "\n", x);
      if TrimRight(x) == "" {
        NewlineIsSpace();
        TrimRightConcat(Join(more, '\n'), "\n");
        TrimRightLines(rest, post[..n]);
      } else {
        JoinLast(more, TrimRight(x));
        assert rest + DropBack(post) == more + [TrimRight(x)];
      }
    }
  }

  // ---- The lines around a section --------------------------------------------------------------

  ghost predicate OneLine(lines: seq<string>) {
    forall i :: 0 <= i < |lines| ==> Without(lines[i], '\n')
  }

  /** No line of these is the header. */
  ghost predicate Lacks(lines: seq<string>, h: string) {
    forall i :: 0 <= i < |lines| ==> TrimSpace(lines[i]) != h
  }

  /** The first line is a header, if there is a line. */
  predicate Opens(lines: seq<string>) {
    lines != [] ==> IsHeader(TrimSpace(lines[0]))
  }

  lemma {:induction false} TrimLeftKeeps(s: string)
    ensures TrimSpace(TrimLeft(s)) == TrimSpace(s) && (Without(s, '\n') ==> Without(TrimLeft(s), '\n'))
  {
    if s != "" && IsSpace(s[0]) { TrimLeftKeeps(s[1..]); }
  }

  lemma {:induction false} TrimRightKeeps(s: string)
    ensures TrimSpace(TrimRight(s)) == TrimSpace(s) && (Without(s, '\n') ==> Without(TrimRight(s), '\n'))
  {
    hide IsSpace, TrimSpace;
    if s != "" && IsSpace(s[|s| - 1]) {
      var init, c := s[..|s| - 1], s[|s| - 1];
      TrimRightKeeps(init);
      TrimRightSpace(init, c);
      assert init + [c] == s;
    }
  }

  lemma {:induction false} FrontKeeps(lines: seq<string>, h: string)
    requires OneLine(lines) && Lacks(lines, h)
    ensures OneLine(DropFront(lines)) && Lacks(DropFront(lines), h)
  {
    hide TrimSpace, TrimLeft, Without;
    if lines != [] {
      TrimLeftKeeps(lines[0]);
      if TrimLeft(lines[0]) == "" { FrontKeeps(lines[1..], h); }
    }
  }

  lemma {:induction false} BackKeeps(lines: seq<string>, h: string)
    requires OneLine(lines) && Lacks(lines, h) && Opens(lines)
    ensures OneLine(DropBack(lines)) && Lacks(DropBack(lines), h) && Opens(DropBack(lines))
    ensures lines != [] ==> DropBack(lines) != []
  {
    hide TrimSpace, TrimRight, Without;
    if lines != [] {
      var n := |lines| - 1;
      TrimRightKeeps(lines[n]);
      if TrimRight(lines[n]) == "" {
        NothingTrimmed();
        BackKeeps(lines[..n], h);
      }
    }
  }

  lemma NothingTrimmed()
    ensures TrimSpace("") == "" && !IsHeader("")
  {
  }

  /** Where the scan finds a section that stands between lines without its header. */
  lemma ScanAt(pre: seq<string>, mid: seq<string>, post: seq<string>, h: string)
    requires Lacks(pre, h) && Lacks(post, h) && Opens(post) && IsHeader(h)
    requires mid != [] && TrimSpace(mid[0]) == h && forall k :: 1 <= k < |mid| ==> !IsHeader(TrimSpace(mid[k]))
    ensures Scan(pre + mid + post, h, 0, -1) == (|pre|, |pre| + |mid|)
  {
    hide TrimSpace, IsHeader, Scan;
    var lines := pre + mid + post;
    ScanFinds(lines, h, 0, -1);
    ScanBounds(lines, h, 0, -1);
    var (s, e) := Scan(lines, h, 0, -1);
    assert TrimSpace(lines[|pre|]) == h;
    forall k | |pre| < k < |pre| + |mid| ensures !IsHeader(TrimSpace(lines[k])) { assert lines[k] == mid[k - |pre|]; }
    forall k | 0 <= k < |lines| && k != |pre| ensures TrimSpace(lines[k]) != h {
      if k < |pre| {
        assert lines[k] == pre[k];
      } else if k >= |pre| + |mid| {
        assert lines[k] == post[k - |pre| - |mid|];
      }
    }
    if post != [] { assert lines[|pre| + |mid|] == post[0]; }
  }

  // ---- Replacing a section that is there -------------------------------------------------------

  /** The replacement's own lines: its header, then lines that start no section. */
  lemma SectionLines(name: string, replacement: string)
    requires IsSection(name, replacement) && TrimSpace(replacement) == replacement
    ensures
      var mid := Split(replacement, '\n');
      && OneLine(mid) && mid != [] && TrimSpace(mid[0]) == Header(name)
      && forall k :: 1 <= k < |mid| ==> !IsHeader(TrimSpace(mid[k]))
  {
    hide IsSpace, TrimSpace, Header, NoHeaders, Without;
    var mid := Split(replacement, '\n');
    FirstNotBlank(replacement);
    CleanFirst(mid[0], mid[1..]);
    assert mid == [mid[0]] + mid[1..];
    assert CleanText(replacement) == [TrimSpace(mid[0])] + Clean(mid[1..]);
    assert NoHeaders(Clean(mid[1..])) by { assert CleanText(replacement)[1..] == Clean(mid[1..]); }
    forall k | 1 <= k < |mid| ensures !IsHeader(TrimSpace(mid[k])) {
      assert mid[k] == mid[1..][k - 1];
      PlainLine(mid[1..], k - 1);
    }
  }

  lemma PlainLine(lines: seq<string>, k: nat)
    requires k < |lines| && NoHeaders(Clean(lines))
    ensures !IsHeader(TrimSpace(lines[k]))
  {
    hide TrimSpace;
    if TrimSpace(lines[k]) != "" { InClean(lines, k); }
  }

  lemma {:induction false} InClean(lines: seq<string>, k: nat)
    requires k < |lines| && TrimSpace(lines[k]) != ""
    ensures TrimSpace(lines[k]) in Clean(lines)
  {
    hide TrimSpace;
    if k > 0 { InClean(lines[1..], k - 1); }
  }

  /** A trimmed text that has a line starts with it. */
  lemma FirstNotBlank(text: string)
    requires TrimSpace(text) == text && CleanText(text) != []
    ensures TrimSpace(Split(text, '\n')[0]) != ""
  {
    EmptyText();
    var c := text[0];
    assert !IsSpace(c) && c != '\n';
    var line := Split(text, '\n')[0];
    assert line[0] == c;
    StartsPlain(line);
  }

  lemma StartsPlain(line: string)
    requires line != "" && !IsSpace(line[0])
    ensures TrimSpace(line) != ""
  {
    assert TrimLeft(line) == line;
    TrimRightConcat([line[0]], line[1..]);
    assert [line[0]] + line[1..] == line;
  }

  lemma {:induction false} JoinConcat(a: seq<string>, b: seq<string>)
    requires a != [] && b != []
    ensures Join(a + b, '\n') == Join(a, '\n') + ("\n" + Join(b, '\n'))
  {
    hide Join;
    if |a| == 1 {
      JoinFirst(a[0], b);
      assert a + b == [a[0]] + b && a == [a[0]];
      JoinSingle(a[0]);
    } else {
      JoinConcat(a[1..], b);
      JoinFirst(a[0], a[1..] + b);
      JoinFirst(a[0], a[1..]);
      assert a + b == [a[0]] + (a[1..] + b) && a == [a[0]] + a[1..];
    }
  }

  lemma JoinSingle(line: string)
    ensures Join([line], '\n') == line
  {
  }

  lemma {:induction false} JoinSplit(s: string)
    ensures Join(Split(s, '\n'), '\n') == s
  {
    if s != "" {
      JoinSplit(s[1..]);
      JoinPush(s[0], Split(s[1..], '\n'));
      assert [s[0]] + s[1..] == s;
    }
    hide Push;
  }

  lemma JoinPush(c: char, rest: seq<string>)
    requires rest != []
    ensures Join(Push(c, '\n', rest), '\n') == [c] + Join(rest, '\n')
  {
    if c == '\n' {
      JoinFirst("", rest);
      assert "" + ("\n" + Join(rest, '\n')) == [c] + Join(rest, '\n');
    } else if |rest| == 1 {
      assert [[c] + rest[0]] + rest[1..] == [[c] + rest[0]];
    } else {
      JoinFirst([c] + rest[0], rest[1..]);
      JoinFirst(rest[0], rest[1..]);
      assert rest == [rest[0]] + rest[1..];
    }
  }

  lemma TrimTwice(s: string)
    ensures TrimSpace(TrimSpace(s)) == TrimSpace(s)
  {
  }

  /** A trimmed replacement keeps the white space before it and after it apart. */
  lemma TrimAround(pre: seq<string>, replacement: string, post: seq<string>)
    requires replacement != "" && TrimSpace(replacement) == replacement
    ensures
      var mid := Split(replacement, '\n');
      TrimSpace(Join(pre + mid + post, '\n')) == Join(DropFront(pre) + mid + DropBack(post), '\n')
  {
    hide Join, Split, TrimRight, TrimLeft, DropFront, DropBack;
    var mid := Split(replacement, '\n');
    StartsTight(replacement, post);
    TrimLeftLines(pre, mid + post);
    assert pre + mid + post == pre + (mid + post);
    var front := DropFront(pre);
    EndsTight(front, replacement);
    TrimRightLines(front + mid, post);
    assert front + (mid + post) == front + mid + post;
  }

  lemma StartsTight(replacement: string, post: seq<string>)
    requires replacement != "" && TrimSpace(replacement) == replacement
    ensures var rest := Split(replacement, '\n') + post; rest != [] && TrimLeft(Join(rest, '\n')) == Join(rest, '\n')
  {
    hide Join, Split, TrimRight, TrimLeft;
    var mid := Split(replacement, '\n');
    JoinSplit(replacement);
    TightEnds(replacement);
    if post == [] {
      assert mid + post == mid;
    } else {
      JoinConcat(mid, post);
      TrimLeftConcat(replacement, "\n" + Join(post, '\n'));
    }
  }

  lemma EndsTight(front: seq<string>, replacement: string)
    requires replacement != "" && TrimSpace(replacement) == replacement
    ensures var all := front + Split(replacement, '\n'); all != [] && TrimRight(Join(all, '\n')) == Join(all, '\n')
  {
    hide Join, Split, TrimRight, TrimLeft;
    var mid := Split(replacement, '\n');
    JoinSplit(replacement);
    TightEnds(replacement);
    if front == [] {
      assert front + mid == mid;
    } else {
      JoinConcat(front, mid);
      TrimRightConcat(Join(front, '\n') + "\n", replacement);
      assert Join(front, '\n') + "\n" + replacement == Join(front, '\n') + ("\n" + replacement);
    }
  }

  lemma TightEnds(s: string)
    requires s != "" && TrimSpace(s) == s
    ensures TrimLeft(s) == s && TrimRight(s) == s
  {
    assert !IsSpace(s[0]) by { assert TrimSpace(s) <= TrimLeft(s); }
  }

  /** A text with one line break at its end, in which the section stands already, is left as it is. */
  lemma Settled(pre: seq<string>, post: seq<string>, name: string, replacement: string)
    requires IsSection(name, replacement) && TrimSpace(replacement) == replacement
    requires OneLine(pre) && OneLine(post) && Lacks(pre, Header(name)) && Lacks(post, Header(name)) && Opens(post)
    requires var t := Join(pre + Split(replacement, '\n') + post, '\n'); TrimSpace(t) == t
    ensures var t := Join(pre + Split(replacement, '\n') + post, '\n'); Upsert(t + "\n", name, replacement) == t + "\n"
  {
    hide IsSpace, TrimSpace, Split, Join, Scan, TrimNewlines, IsSection, IsHeader;
    var mid, h := Split(replacement, '\n'), Header(name);
    HeaderIsHeader(name);
    SectionLines(name, replacement);
    hide Header;
    var all := pre + mid + post;
    var t := Join(all, '\n');
    SplitText(pre, mid, post, h);
    NewlineIsSpace();
    TrimRightSpace(t, '\n');
    assert t + ['\n'] == t + "\n";
    var lines := all + [""];
    NothingTrimmed();
    if post == [] {
      ScanAt(pre, mid + [""], [], h);
      assert lines == pre + (mid + [""]) + [];
      assert lines[..|pre|] + mid + lines[|lines|..] == all;
    } else {
      ScanAt(pre, mid, post + [""], h);
      assert lines == pre + mid + (post + [""]);
      assert lines[..|pre|] + mid + lines[|pre| + |mid|..] == lines;
      JoinLast(all, "");
      assert t + "\n" + "" == t + "\n";
    }
  }

  lemma SplitText(pre: seq<string>, mid: seq<string>, post: seq<string>, h: string)
    requires OneLine(pre) && OneLine(mid) && OneLine(post) && mid != [] && IsHeader(h) && TrimSpace(mid[0]) == h
    ensures var t := Join(pre + mid + post, '\n'); t != "" && Split(t + "\n", '\n') == pre + mid + post + [""]
  {
    hide IsSpace, TrimSpace, Join, Without;
    var all := pre + mid + post;
    var t := Join(all, '\n');
    SplitJoin(all, '\n');
    SplitConcat(t, '\n', "");
    assert t + ['\n'] + "" == t + "\n" && Split("", '\n') == [""];
    assert all[|pre|] == mid[0];
    NothingTrimmed();
    hide Split;
  }

  lemma {:induction false} UniqueAt(p: seq<string>, h: string, r: seq<string>)
    requires UniqueHeaders(p + ([h] + r)) && IsHeader(h)
    ensures h !in p && h !in r
  {
    hide IsHeader, UniqueHeaders;
    if p == [] {
      assert p + ([h] + r) == [h] + r;
      FirstUnique(h, r);
    } else {
      var t := p[1..] + ([h] + r);
      assert p + ([h] + r) == [p[0]] + t;
      FirstUnique(p[0], t);
      assert h in [h] + r && h in t;
      UniqueAt(p[1..], h, r);
    }
  }

  lemma LacksIt(lines: seq<string>, h: string)
    requires h != "" && h !in Clean(lines)
    ensures Lacks(lines, h)
  {
    hide TrimSpace, Clean;
    forall i | 0 <= i < |lines| ensures TrimSpace(lines[i]) != h {
      if TrimSpace(lines[i]) != "" { InClean(lines, i); }
    }
  }

  /** Around a section whose header is unique, no line is that header. */
  lemma PiecesLack(content: string, h: string, s: nat, e: nat)
    requires IsHeader(h) && UniqueHeaders(CleanText(content))
    requires var lines := Split(content, '\n'); Scan(lines, h, 0, -1) == (s, e) && s < e <= |lines|
    ensures
      var lines := Split(content, '\n');
      && OneLine(lines[..s]) && OneLine(lines[e..]) && Lacks(lines[..s], h) && Lacks(lines[e..], h) && Opens(lines[e..])
  {
    hide IsSpace, TrimSpace, Clean, Scan, UniqueHeaders, NoHeaders, StartsSection, Without;
    var lines := Split(content, '\n');
    hide Split;
    ScanFinds(lines, h, 0, -1);
    ScanSplits(lines, h);
    assert h != "";
    hide IsHeader;
    var r := Clean(lines[s + 1..e]) + Clean(lines[e..]);
    UniqueAt(Clean(lines[..s]), h, r);
    LacksIt(lines[..s], h);
    LacksIt(lines[e..], h);
  }

  lemma NotBlank(name: string, replacement: string)
    requires IsSection(name, replacement)
    ensures replacement != ""
  {
    EmptyText();
  }

  /** The text after an upsert of a section that is there. */
  lemma UpsertThere(content: string, name: string, replacement: string) returns (s: nat, e: nat)
    requires Header(name) in CleanText(content)
    ensures var lines := Split(content, '\n');
      && Scan(lines, Header(name), 0, -1) == (s, e) && s < e <= |lines|
      && Upsert(content, name, replacement) == TrimSpace(Join(lines[..s] + Split(replacement, '\n') + lines[e..], '\n')) + "\n"
  {
    hide IsSpace, TrimSpace, TrimNewlines, Join, Clean, Scan, NoHeaders, StartsSection;
    HeaderIsHeader(name);
    hide Header, IsHeader;
    if TrimSpace(content) == "" {
      BlankText(content);
    }
    var lines := Split(content, '\n');
    hide Split;
    ScanBounds(lines, Header(name), 0, -1);
    ScanSplits(lines, Header(name));
    s, e := Scan(lines, Header(name), 0, -1).0, Scan(lines, Header(name), 0, -1).1;
  }

  /** Where the section stands already, a second upsert of a trimmed replacement, which is what the program
      passes, leaves the text to the letter. */
  lemma UpsertAgain(content: string, name: string, replacement: string)
    requires IsSection(name, replacement) && TrimSpace(replacement) == replacement
    requires UniqueHeaders(CleanText(content)) && Header(name) in CleanText(content)
    ensures var once := Upsert(content, name, replacement); Upsert(once, name, replacement) == once
  {
    hide IsSpace, TrimSpace, Split, Join, CleanText, Scan, UniqueHeaders, IsSection, Opens, DropFront, DropBack, Without, Upsert;
    var h, lines, mid := Header(name), Split(content, '\n'), Split(replacement, '\n');
    HeaderIsHeader(name);
    var s, e := UpsertThere(content, name, replacement);
    var pre, post := lines[..s], lines[e..];
    PiecesLack(content, h, s, e);
    hide Header, IsHeader, OneLine, Lacks;
    FrontKeeps(pre, h);
    BackKeeps(post, h);
    NotBlank(name, replacement);
    TrimAround(pre, replacement, post);
    TrimTwice(Join(pre + mid + post, '\n'));
    Settled(DropFront(pre), DropBack(post), name, replacement);
  }

  /** So from any text with unique headers, the second of two equal upserts settles it: a third changes
      nothing. */
  lemma UpsertSettles(content: string, name: string, replacement: string)
    requires IsSection(name, replacement) && TrimSpace(replacement) == replacement && UniqueHeaders(CleanText(content))
    ensures
      var twice := Upsert(Upsert(content, name, replacement), name, replacement);
      Upsert(twice, name, replacement) == twice
  {
    hide TrimSpace, CleanText, UniqueHeaders, Put, Upsert, NoHeaders;
    var cl, h, body := CleanText(content), Header(name), SectionBody(replacement);
    HeaderIsHeader(name);
    hide Header, IsHeader;
    UpsertRefinesPut(content, name, replacement);
    PutUnique(cl, h, body);
    PutHas(cl, h, body);
    UpsertAgain(Upsert(content, name, replacement), name, replacement);
  }

  lemma {:induction false} PutHas(cl: seq<string>, h: string, body: seq<string>)
    ensures h in Put(cl, h, body)
  {
    if cl != [] && cl[0] != h { PutHas(cl[1..], h, body); }
  }
}
