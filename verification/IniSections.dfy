/** What the configuration editor does to the sections of a file: any sequence of edits refines updates of
    a map from header lines to bodies. */
module IniSections {
  import opened Text
  import opened IniFile

  // ---- Sections of a cleaned text --------------------------------------------------------------

  /** The lines before the next header. */
  function BodyOf(cl: seq<string>): (r: seq<string>)
    ensures |r| <= |cl|
  {
    if cl == [] || IsHeader(cl[0]) then [] else [cl[0]] + BodyOf(cl[1..])
  }

  /** The lines from the next header on. */
  function Rest(cl: seq<string>): seq<string> {
    cl[|BodyOf(cl)|..]
  }

  predicate NoHeaders(cl: seq<string>) {
    forall i :: 0 <= i < |cl| ==> !IsHeader(cl[i])
  }

  predicate StartsSection(cl: seq<string>) {
    cl == [] || IsHeader(cl[0])
  }

  function Sections(cl: seq<string>): map<string, seq<string>> {
    if cl == [] then map[]
    else if IsHeader(cl[0]) then Sections(cl[1..])[cl[0] := BodyOf(cl[1..])]
    else Sections(cl[1..])
  }

  predicate UniqueHeaders(cl: seq<string>) {
    cl != [] ==> (IsHeader(cl[0]) ==> cl[0] !in cl[1..]) && UniqueHeaders(cl[1..])
  }

  /** The cleaned text with one section replaced where it stands, or appended. */
  function Put(cl: seq<string>, h: string, body: seq<string>): seq<string> {
    if cl == [] then [h] + body
    else if cl[0] == h then [h] + (body + Rest(cl[1..]))
    else [cl[0]] + Put(cl[1..], h, body)
  }

  /** The cleaned text without one section. */
  function Cut(cl: seq<string>, h: string): seq<string> {
    if cl == [] then []
    else if cl[0] == h then Rest(cl[1..])
    else [cl[0]] + Cut(cl[1..], h)
  }

  // ---- Algebra of sections ---------------------------------------------------------------------

  lemma {:induction false} BodyAndRest(cl: seq<string>)
    ensures NoHeaders(BodyOf(cl)) && StartsSection(Rest(cl)) && cl == BodyOf(cl) + Rest(cl)
  {
    hide IsHeader;
    if cl != [] && !IsHeader(cl[0]) {
      var x, t := cl[0], cl[1..];
      BodyAndRest(t);
      assert cl == [x] + t;
    }
  }

  lemma {:induction false} SectionKeys(cl: seq<string>, h: string)
    ensures h in Sections(cl) <==> h in cl && IsHeader(h)
  {
    hide IsHeader, BodyOf;
    if cl != [] {
      SectionKeys(cl[1..], h);
      assert h in cl <==> h == cl[0] || h in cl[1..];
    }
  }

  lemma {:induction false} BodyThen(b: seq<string>, r: seq<string>)
    requires NoHeaders(b) && StartsSection(r)
    ensures BodyOf(b + r) == b && Rest(b + r) == r && Sections(b + r) == Sections(r)
  {
    hide IsHeader;
    if b == [] {
      assert b + r == r;
    } else {
      BodyThen(b[1..], r);
      assert (b + r)[1..] == b[1..] + r;
      assert b == [b[0]] + b[1..];
    }
  }

  /** Lines before the first header belong to no section. */
  lemma RestSections(cl: seq<string>)
    ensures Sections(Rest(cl)) == Sections(cl)
  {
    hide IsHeader, Sections, BodyOf, Rest, NoHeaders, StartsSection;
    BodyAndRest(cl);
    BodyThen(BodyOf(cl), Rest(cl));
  }

  lemma FirstLine(x: string, t: seq<string>)
    ensures Sections([x] + t) == if IsHeader(x) then Sections(t)[x := BodyOf(t)] else Sections(t)
    ensures BodyOf([x] + t) == if IsHeader(x) then [] else [x] + BodyOf(t)
  {
    hide IsHeader;
    assert ([x] + t)[1..] == t;
  }

  lemma FirstEdit(x: string, t: seq<string>, h: string, body: seq<string>)
    ensures Put([x] + t, h, body) == if x == h then [h] + (body + Rest(t)) else [x] + Put(t, h, body)
    ensures Cut([x] + t, h) == if x == h then Rest(t) else [x] + Cut(t, h)
  {
    hide Rest;
    assert ([x] + t)[1..] == t;
  }

  lemma NewSection(h: string, body: seq<string>, r: seq<string>)
    requires IsHeader(h) && NoHeaders(body) && StartsSection(r)
    ensures Sections([h] + (body + r)) == Sections(r)[h := body]
    ensures BodyOf([h] + (body + r)) == []
  {
    hide IsHeader, Sections, BodyOf, NoHeaders, StartsSection;
    FirstLine(h, body + r);
    BodyThen(body, r);
  }

  lemma {:induction false} PutSections(cl: seq<string>, h: string, body: seq<string>)
    requires IsHeader(h) && NoHeaders(body)
    ensures Sections(Put(cl, h, body)) == Sections(cl)[h := body]
    ensures BodyOf(Put(cl, h, body)) == BodyOf(cl)
  {
    hide IsHeader, Rest, NoHeaders;
    if cl == [] {
      NewSection(h, body, []);
      assert body + [] == body;
    } else {
      var x, t := cl[0], cl[1..];
      assert cl == [x] + t;
      FirstLine(x, t);
      FirstEdit(x, t, h, body);
      BodyAndRest(t);
      RestSections(t);
      hide Sections, BodyOf, StartsSection, Put;
      if x == h {
        NewSection(h, body, Rest(t));
      } else {
        PutSections(t, h, body);
        FirstLine(x, Put(t, h, body));
      }
    }
  }

  lemma {:induction false} CutSections(cl: seq<string>, h: string)
    requires IsHeader(h) && UniqueHeaders(cl)
    ensures Sections(Cut(cl, h)) == Sections(cl) - {h}
    ensures BodyOf(Cut(cl, h)) == BodyOf(cl)
  {
    hide IsHeader, Rest, NoHeaders;
    if cl != [] {
      var x, t := cl[0], cl[1..];
      assert cl == [x] + t;
      FirstLine(x, t);
      FirstEdit(x, t, h, []);
      hide Sections, BodyOf, Cut;
      if x == h {
        RestSections(t);
        SectionKeys(t, h);
        RestBody(t);
        assert Sections(t)[h := BodyOf(t)] - {h} == Sections(t);
      } else {
        CutSections(t, h);
        FirstLine(x, Cut(t, h));
      }
    }
  }

  lemma RestBody(t: seq<string>)
    ensures BodyOf(Rest(t)) == []
  {
    hide IsHeader;
    BodyAndRest(t);
  }

  lemma {:induction false} PutUnique(cl: seq<string>, h: string, body: seq<string>)
    requires IsHeader(h) && NoHeaders(body) && UniqueHeaders(cl)
    ensures UniqueHeaders(Put(cl, h, body))
  {
    if cl == [] {
      UniqueConcat(body, []);
      assert body + [] == body && ([h] + body)[1..] == body;
    } else {
      var t := cl[1..];
      if cl[0] == h {
        UniqueRest(t);
        UniqueConcat(body, Rest(t));
        NotIn(h, body, t);
        assert ([h] + (body + Rest(t)))[1..] == body + Rest(t);
      } else {
        PutUnique(t, h, body);
        PutSections(t, h, body);
        SectionKeys(t, cl[0]);
        SectionKeys(Put(t, h, body), cl[0]);
        assert ([cl[0]] + Put(t, h, body))[1..] == Put(t, h, body);
      }
    }
  }

  lemma {:induction false} UniqueConcat(b: seq<string>, r: seq<string>)
    requires NoHeaders(b)
    ensures UniqueHeaders(b + r) == UniqueHeaders(r)
  {
    if b == [] {
      assert b + r == r;
    } else {
      UniqueConcat(b[1..], r);
      assert (b + r)[1..] == b[1..] + r;
    }
  }

  lemma NotIn(h: string, body: seq<string>, t: seq<string>)
    requires IsHeader(h) && NoHeaders(body) && h !in t
    ensures h !in body + Rest(t)
  {
    hide IsHeader;
    BodyAndRest(t);
  }

  lemma UniqueRest(cl: seq<string>)
    requires UniqueHeaders(cl)
    ensures UniqueHeaders(Rest(cl))
  {
    BodyAndRest(cl);
    UniqueConcat(BodyOf(cl), Rest(cl));
  }

  lemma {:induction false} CutUnique(cl: seq<string>, h: string)
    requires IsHeader(h) && UniqueHeaders(cl)
    ensures UniqueHeaders(Cut(cl, h))
  {
    if cl != [] {
      var t := cl[1..];
      if cl[0] == h {
        UniqueRest(t);
      } else {
        CutUnique(t, h);
        CutSections(t, h);
        SectionKeys(t, cl[0]);
        SectionKeys(Cut(t, h), cl[0]);
        assert ([cl[0]] + Cut(t, h))[1..] == Cut(t, h);
      }
    }
  }

  /** Removing a section that an edit has just added restores the text. */
  lemma {:induction false} CutUndoesPut(cl: seq<string>, h: string, body: seq<string>)
    requires h !in cl && NoHeaders(body)
    ensures Cut(Put(cl, h, body), h) == cl
  {
    if cl == [] {
      BodyThen(body, []);
      assert body + [] == body && ([h] + body)[1..] == body;
    } else {
      var t := cl[1..];
      CutUndoesPut(t, h, body);
      assert ([cl[0]] + Put(t, h, body))[1..] == Put(t, h, body);
    }
  }

  /** The last edit of a section is the one that counts, and it lands in the same place. */
  lemma {:induction false} PutTwice(cl: seq<string>, h: string, b1: seq<string>, b2: seq<string>)
    requires NoHeaders(b1)
    ensures Put(Put(cl, h, b1), h, b2) == Put(cl, h, b2)
  {
    if cl == [] {
      BodyThen(b1, []);
      assert b1 + [] == b1 && ([h] + b1)[1..] == b1 && b2 + [] == b2;
    } else {
      var t := cl[1..];
      if cl[0] == h {
        BodyAndRest(t);
        BodyThen(b1, Rest(t));
        assert ([h] + (b1 + Rest(t)))[1..] == b1 + Rest(t);
      } else {
        PutTwice(t, h, b1, b2);
        assert ([cl[0]] + Put(t, h, b1))[1..] == Put(t, h, b1);
      }
    }
  }

  // ---- From the scan to the section ------------------------------------------------------------

  /** The scan stops at a section of that name, spans no other header, and misses none. */
  lemma {:induction false} ScanFinds(lines: seq<string>, h: string, i: nat, start: int)
    requires i <= |lines| && -1 <= start < i
    requires start < 0 ==> forall k :: 0 <= k < i ==> TrimSpace(lines[k]) != h
    requires start >= 0 ==> TrimSpace(lines[start]) == h && forall k :: start < k < i ==> !IsHeader(TrimSpace(lines[k]))
    ensures
      var (s, e) := Scan(lines, h, i, start);
      if s < 0 then forall k :: 0 <= k < |lines| ==> TrimSpace(lines[k]) != h
      else
        && s < e <= |lines| && TrimSpace(lines[s]) == h
        && (forall k :: s < k < e ==> !IsHeader(TrimSpace(lines[k])))
        && (e < |lines| ==> IsHeader(TrimSpace(lines[e])))
    decreases |lines| - i
  {
    hide TrimSpace, IsHeader;
    if i < |lines| {
      if TrimSpace(lines[i]) == h {
        ScanFinds(lines, h, i + 1, i);
      } else if !(start >= 0 && IsHeader(TrimSpace(lines[i]))) {
        ScanFinds(lines, h, i + 1, start);
      }
    }
  }

  lemma {:induction false} CleanMembers(lines: seq<string>)
    ensures forall t :: t in Clean(lines) ==> exists i :: 0 <= i < |lines| && TrimSpace(lines[i]) == t
  {
    hide TrimSpace;
    if lines != [] {
      CleanMembers(lines[1..]);
      forall t | t in Clean(lines) ensures exists i :: 0 <= i < |lines| && TrimSpace(lines[i]) == t {
        if t in CleanLine(lines[0]) {
          assert TrimSpace(lines[0]) == t;
        } else {
          assert t in Clean(lines[1..]);
          var i :| 0 <= i < |lines| - 1 && TrimSpace(lines[1..][i]) == t;
          assert TrimSpace(lines[i + 1]) == t;
        }
      }
    }
  }

  /** The lines a scan splits off, cleaned. */
  lemma ScanSplits(lines: seq<string>, h: string)
    requires IsHeader(h)
    ensures
      var (s, e) := Scan(lines, h, 0, -1);
      if s < 0 then h !in Clean(lines)
      else
        && s < e <= |lines|
        && Clean(lines) == Clean(lines[..s]) + ([h] + (Clean(lines[s + 1..e]) + Clean(lines[e..])))
        && NoHeaders(Clean(lines[s + 1..e])) && StartsSection(Clean(lines[e..]))
  {
    hide TrimSpace, Scan, Clean, IsHeader, NoHeaders, StartsSection;
    ScanFinds(lines, h, 0, -1);
    var (s, e) := Scan(lines, h, 0, -1);
    if s < 0 {
      CleanMembers(lines);
    } else {
      ScanPieces(lines, h, s, e);
    }
  }

  lemma ScanPieces(lines: seq<string>, h: string, s: nat, e: nat)
    requires s < e <= |lines| && TrimSpace(lines[s]) == h && IsHeader(h)
    requires forall k :: s < k < e ==> !IsHeader(TrimSpace(lines[k]))
    requires e < |lines| ==> IsHeader(TrimSpace(lines[e]))
    ensures Clean(lines) == Clean(lines[..s]) + ([h] + (Clean(lines[s + 1..e]) + Clean(lines[e..])))
    ensures NoHeaders(Clean(lines[s + 1..e])) && StartsSection(Clean(lines[e..]))
  {
    hide TrimSpace, Clean, NoHeaders, StartsSection;
    assert h != "";
    hide IsHeader;
    SplitClean(lines, s, e);
    PlainLines(lines[s + 1..e]);
    StartLine(lines[e..]);
  }

  lemma PlainLines(lines: seq<string>)
    requires forall i :: 0 <= i < |lines| ==> !IsHeader(TrimSpace(lines[i]))
    ensures NoHeaders(Clean(lines))
  {
    hide TrimSpace, Clean, IsHeader;
    CleanMembers(lines);
    var cl := Clean(lines);
    forall i | 0 <= i < |cl| ensures !IsHeader(cl[i]) {
      assert cl[i] in cl;
    }
  }

  lemma StartLine(lines: seq<string>)
    requires lines == [] || IsHeader(TrimSpace(lines[0]))
    ensures StartsSection(Clean(lines))
  {
    hide TrimSpace;
    if lines != [] {
      CleanFirst(lines[0], lines[1..]);
      assert lines == [lines[0]] + lines[1..];
      assert TrimSpace(lines[0]) != "";
      assert Clean(lines) == [TrimSpace(lines[0])] + Clean(lines[1..]);
    }
  }

  lemma SplitClean(lines: seq<string>, s: nat, e: nat)
    requires s < e <= |lines| && TrimSpace(lines[s]) != ""
    ensures Clean(lines) == Clean(lines[..s]) + ([TrimSpace(lines[s])] + (Clean(lines[s + 1..e]) + Clean(lines[e..])))
  {
    hide TrimSpace, Clean;
    CleanConcat(lines[..s], lines[s..]);
    assert lines == lines[..s] + lines[s..];
    CleanFirst(lines[s], lines[s + 1..]);
    assert lines[s..] == [lines[s]] + lines[s + 1..];
    CleanConcat(lines[s + 1..e], lines[e..]);
    assert lines[s + 1..] == lines[s + 1..e] + lines[e..];
  }

  lemma PutHere(h: string, b: seq<string>, r: seq<string>, body: seq<string>)
    requires NoHeaders(b) && StartsSection(r)
    ensures Put([h] + (b + r), h, body) == [h] + (body + r) && Cut([h] + (b + r), h) == r
  {
    hide IsHeader, NoHeaders, StartsSection, Rest, Put, Cut;
    FirstEdit(h, b + r, h, body);
    BodyThen(b, r);
  }

  lemma {:induction false} PutAt(p: seq<string>, h: string, b: seq<string>, r: seq<string>, body: seq<string>)
    requires IsHeader(h) && NoHeaders(b) && StartsSection(r) && UniqueHeaders(p + ([h] + (b + r)))
    ensures Put(p + ([h] + (b + r)), h, body) == p + ([h] + (body + r))
    ensures Cut(p + ([h] + (b + r)), h) == p + r
  {
    hide IsHeader, NoHeaders, StartsSection, Rest, Put, Cut, UniqueHeaders;
    var tail, tail' := [h] + (b + r), [h] + (body + r);
    if p == [] {
      PutHere(h, b, r, body);
      assert p + tail == tail && p + tail' == tail' && p + r == r;
    } else {
      var x, t := p[0], p[1..];
      assert p + tail == [x] + (t + tail);
      FirstUnique(x, t + tail);
      assert tail[0] in t + tail;
      FirstEdit(x, t + tail, h, body);
      PutAt(t, h, b, r, body);
      assert p + r == [x] + (t + r) && p + tail' == [x] + (t + tail');
    }
  }

  lemma FirstUnique(x: string, t: seq<string>)
    requires UniqueHeaders([x] + t)
    ensures UniqueHeaders(t) && (IsHeader(x) ==> x !in t)
  {
    hide IsHeader;
    assert ([x] + t)[1..] == t;
  }

  lemma {:induction false} PutAbsent(cl: seq<string>, h: string, body: seq<string>)
    requires h !in cl
    ensures Put(cl, h, body) == cl + ([h] + body) && Cut(cl, h) == cl
  {
    if cl != [] {
      PutAbsent(cl[1..], h, body);
      assert cl == [cl[0]] + cl[1..];
    }
  }

  // ---- The editor refines the algebra ----------------------------------------------------------

  /** A replacement text is one section: its header line, then lines that start no section. */
  predicate IsSection(name: string, replacement: string) {
    var cl := CleanText(replacement);
    cl != [] && cl[0] == Header(name) && NoHeaders(cl[1..])
  }

  function SectionBody(replacement: string): seq<string>
    requires CleanText(replacement) != []
  {
    CleanText(replacement)[1..]
  }

  lemma HeaderIsHeader(name: string)
    ensures IsHeader(Header(name))
  {
  }

  lemma NoHeader(cl: seq<string>, h: string)
    requires cl == []
    ensures h !in cl
  {
  }

  /** A blank file has no lines. */
  lemma BlankText(content: string)
    requires TrimSpace(content) == ""
    ensures CleanText(content) == []
  {
    TrimText(content);
    EmptyText();
  }

  /** Splitting, splicing and joining lines is splicing of cleaned lines. */
  lemma JoinText(lines: seq<string>)
    requires forall i :: 0 <= i < |lines| ==> Without(lines[i], '\n')
    ensures CleanText(TrimSpace(Join(lines, '\n'))) == Clean(lines)
  {
    TrimText(Join(lines, '\n'));
    if lines == [] {
      EmptyText();
    } else {
      SplitJoin(lines, '\n');
    }
    hide IsSpace, TrimSpace, Split, Join, Clean;
  }

  lemma SplicedText(pre: seq<string>, mid: seq<string>, post: seq<string>)
    requires forall i :: 0 <= i < |pre| ==> Without(pre[i], '\n')
    requires forall i :: 0 <= i < |mid| ==> Without(mid[i], '\n')
    requires forall i :: 0 <= i < |post| ==> Without(post[i], '\n')
    ensures CleanText(TrimSpace(Join(pre + mid + post, '\n'))) == Clean(pre) + (Clean(mid) + Clean(post))
  {
    hide IsSpace, TrimSpace, Split, Join, Clean, Without, CleanText;
    SplicedLines(pre, mid, post);
    JoinText(pre + mid + post);
    CleanThree(pre, mid, post);
  }

  lemma CleanThree(pre: seq<string>, mid: seq<string>, post: seq<string>)
    ensures Clean(pre + mid + post) == Clean(pre) + (Clean(mid) + Clean(post))
  {
    hide Clean;
    CleanConcat(pre + mid, post);
    CleanConcat(pre, mid);
  }

  lemma SplicedLines(pre: seq<string>, mid: seq<string>, post: seq<string>)
    requires forall i :: 0 <= i < |pre| ==> Without(pre[i], '\n')
    requires forall i :: 0 <= i < |mid| ==> Without(mid[i], '\n')
    requires forall i :: 0 <= i < |post| ==> Without(post[i], '\n')
    ensures var lines := pre + mid + post; forall i :: 0 <= i < |lines| ==> Without(lines[i], '\n')
  {
    hide Without;
  }

  lemma AppendedText(content: string, replacement: string)
    ensures CleanText(TrimNewlines(content) + "\n\n" + replacement + "\n") == CleanText(content) + CleanText(replacement)
  {
    hide IsSpace, TrimNewlines, CleanText;
    var t := TrimNewlines(content);
    TrailingNewline(t + "\n\n" + replacement);
    TrailingNewline(t);
    assert t + "\n\n" + replacement == (t + "\n") + "\n" + replacement;
    TextConcat(t + "\n", replacement);
    TrimNewlinesText(content);
  }

  /** Upserting a section replaces its lines where they stand or appends them, and keeps every other line
      up to white space around it and blank lines. */
  lemma UpsertRefinesPut(content: string, name: string, replacement: string)
    requires IsSection(name, replacement) && UniqueHeaders(CleanText(content))
    ensures CleanText(Upsert(content, name, replacement)) == Put(CleanText(content), Header(name), SectionBody(replacement))
  {
    hide IsSpace, TrimSpace, TrimNewlines, Split, Join, Clean, Scan, UniqueHeaders, NoHeaders, StartsSection,
      Put, Header;
    var h, body, cl := Header(name), SectionBody(replacement), CleanText(content);
    assert CleanText(replacement) == [h] + body;
    if TrimSpace(content) == "" {
      BlankText(content);
      TrailingNewline(replacement);
      NoHeader(cl, h);
      PutAbsent(cl, h, body);
      assert cl + ([h] + body) == [h] + body;
    } else {
      var lines := Split(content, '\n');
      HeaderIsHeader(name);
      hide IsHeader;
      ScanBounds(lines, h, 0, -1);
      ScanSplits(lines, h);
      var (s, e) := Scan(lines, h, 0, -1);
      if s < 0 {
        AppendedText(content, replacement);
        PutAbsent(cl, h, body);
      } else {
        var mid := Split(replacement, '\n');
        SplicedText(lines[..s], mid, lines[e..]);
        TrailingNewline(TrimSpace(Join(lines[..s] + mid + lines[e..], '\n')));
        var p, b, r := Clean(lines[..s]), Clean(lines[s + 1..e]), Clean(lines[e..]);
        PutAt(p, h, b, r, body);
        assert [h] + body + r == [h] + (body + r);
      }
    }
  }

  /** Removing a section takes out its lines and no other. */
  lemma RemoveRefinesCut(content: string, name: string)
    requires UniqueHeaders(CleanText(content))
    ensures CleanText(Remove(content, name)) == Cut(CleanText(content), Header(name))
  {
    hide IsSpace, TrimSpace, TrimNewlines, Split, Join, Clean, Scan, UniqueHeaders, NoHeaders, StartsSection,
      Cut, Header;
    var h, cl := Header(name), CleanText(content);
    EmptyText();
    if TrimSpace(content) == "" {
      BlankText(content);
      NoHeader(cl, h);
      PutAbsent(cl, h, []);
    } else {
      var lines := Split(content, '\n');
      HeaderIsHeader(name);
      hide IsHeader;
      ScanBounds(lines, h, 0, -1);
      ScanSplits(lines, h);
      var (s, e) := Scan(lines, h, 0, -1);
      if s < 0 {
        TrimText(content);
        TrailingNewline(TrimSpace(content));
        PutAbsent(cl, h, []);
      } else {
        assert lines[..s] + [] + lines[e..] == lines[..s] + lines[e..];
        SplicedText(lines[..s], [], lines[e..]);
        TrailingNewline(TrimSpace(Join(lines[..s] + lines[e..], '\n')));
        var p, b, r := Clean(lines[..s]), Clean(lines[s + 1..e]), Clean(lines[e..]);
        PutAt(p, h, b, r, []);
        assert Clean([]) + r == r by { CleanConcat([], lines[e..]); assert [] + lines[e..] == lines[e..]; }
      }
    }
  }

  /** The same on the lines: the section runs from its name in brackets to the next line that begins and
      ends with a bracket. */
  lemma EditedLines(content: string, name: string, replacement: string, p: seq<string>, b: seq<string>, r: seq<string>)
    requires UniqueHeaders(CleanText(content)) && CleanText(content) == p + (["[" + name + "]"] + (b + r))
    requires forall i :: 0 <= i < |b| && b[i] != "" ==> b[i][0] != '[' || b[i][|b[i]| - 1] != ']'
    requires r != [] ==> r[0] != "" && r[0][0] == '[' && r[0][|r[0]| - 1] == ']'
    requires IsSection(name, replacement)
    ensures CleanText(Upsert(content, name, replacement)) == p + CleanText(replacement) + r
    ensures CleanText(Remove(content, name)) == p + r
  {
    var h, body := Header(name), SectionBody(replacement);
    assert NoHeaders(b) && StartsSection(r) && h == "[" + name + "]";
    HeaderIsHeader(name);
    hide *;
    UpsertRefinesPut(content, name, replacement);
    RemoveRefinesCut(content, name);
    PutAt(p, h, b, r, body);
    SectionLines(name, replacement);
    Regroup([h], body, r);
    Regroup(p, [h] + body, r);
  }

  lemma Regroup(a: seq<string>, b: seq<string>, c: seq<string>)
    ensures (a + b) + c == a + (b + c)
  {
  }

  lemma SectionLines(name: string, replacement: string)
    requires IsSection(name, replacement)
    ensures CleanText(replacement) == [Header(name)] + SectionBody(replacement)
  {
    hide CleanText, Header, NoHeaders;
  }

  // ---- Runs of edits ---------------------------------------------------------------------------

  datatype Edit = Update(name: string, replacement: string) | Delete(name: string)

  predicate WellFormed(e: Edit) {
    e.Update? ==> IsSection(e.name, e.replacement)
  }

  function Edited(content: string, e: Edit): string {
    match e
    case Update(name, replacement) => Upsert(content, name, replacement)
    case Delete(name) => Remove(content, name)
  }

  function EditedMap(m: map<string, seq<string>>, e: Edit): map<string, seq<string>>
    requires WellFormed(e)
  {
    match e
    case Update(name, replacement) => m[Header(name) := SectionBody(replacement)]
    case Delete(name) => m - {Header(name)}
  }

  function RunFile(content: string, edits: seq<Edit>): string {
    if edits == [] then content else Edited(RunFile(content, edits[..|edits| - 1]), edits[|edits| - 1])
  }

  function RunMap(m: map<string, seq<string>>, edits: seq<Edit>): map<string, seq<string>>
    requires forall i :: 0 <= i < |edits| ==> WellFormed(edits[i])
  {
    if edits == [] then m else EditedMap(RunMap(m, edits[..|edits| - 1]), edits[|edits| - 1])
  }

  /** One edit changes the map of sections as it should, keeps headers unique and keeps the lines before
      the first section. */
  lemma EditRefines(content: string, e: Edit)
    requires WellFormed(e) && UniqueHeaders(CleanText(content))
    ensures
      var cl := CleanText(content);
      var cl' := CleanText(Edited(content, e));
      UniqueHeaders(cl') && BodyOf(cl') == BodyOf(cl) && Sections(cl') == EditedMap(Sections(cl), e)
  {
    hide Upsert, Remove, CleanText, UniqueHeaders, BodyOf, Sections, Put, Cut, NoHeaders;
    var h := Header(e.name);
    HeaderIsHeader(e.name);
    hide Header, IsHeader;
    match e {
      case Update(name, replacement) =>
        UpsertRefinesPut(content, name, replacement);
        PutSections(CleanText(content), h, SectionBody(replacement));
        PutUnique(CleanText(content), h, SectionBody(replacement));
      case Delete(name) =>
        RemoveRefinesCut(content, name);
        CutSections(CleanText(content), h);
        CutUnique(CleanText(content), h);
    }
  }

  /** Any run of edits refines the same run on the map of sections. */
  lemma {:induction false} EditsRefineMap(content: string, edits: seq<Edit>)
    requires UniqueHeaders(CleanText(content))
    requires forall i :: 0 <= i < |edits| ==> WellFormed(edits[i])
    ensures
      var cl := CleanText(content);
      var cl' := CleanText(RunFile(content, edits));
      UniqueHeaders(cl') && BodyOf(cl') == BodyOf(cl) && Sections(cl') == RunMap(Sections(cl), edits)
  {
    hide Edited, EditedMap, CleanText, UniqueHeaders, BodyOf, Sections;
    if edits != [] {
      var init := edits[..|edits| - 1];
      EditsRefineMap(content, init);
      EditRefines(RunFile(content, init), edits[|edits| - 1]);
    }
  }

  /** From a blank file, the file holds exactly the sections of the map and nothing else. */
  lemma EditsFromEmpty(edits: seq<Edit>)
    requires forall i :: 0 <= i < |edits| ==> WellFormed(edits[i])
    ensures
      var cl := CleanText(RunFile("", edits));
      UniqueHeaders(cl) && BodyOf(cl) == [] && Sections(cl) == RunMap(map[], edits)
  {
    EmptyText();
    EditsRefineMap("", edits);
    hide RunFile, RunMap, WellFormed, CleanText;
  }

  /** Removing a section just added to a file that lacked it gives the file back. */
  lemma RemoveUndoesUpsert(content: string, name: string, replacement: string)
    requires IsSection(name, replacement) && UniqueHeaders(CleanText(content)) && Header(name) !in CleanText(content)
    ensures CleanText(Remove(Upsert(content, name, replacement), name)) == CleanText(content)
  {
    hide Upsert, Remove, CleanText, UniqueHeaders, Put, Cut, NoHeaders;
    HeaderIsHeader(name);
    hide Header, IsHeader;
    var cl, h, body := CleanText(content), Header(name), SectionBody(replacement);
    UpsertRefinesPut(content, name, replacement);
    PutUnique(cl, h, body);
    RemoveRefinesCut(Upsert(content, name, replacement), name);
    CutUndoesPut(cl, h, body);
  }

  /** Repeating an upsert changes no line. */
  lemma UpsertTwice(content: string, name: string, replacement: string)
    requires IsSection(name, replacement) && UniqueHeaders(CleanText(content))
    ensures
      var once := Upsert(content, name, replacement);
      CleanText(Upsert(once, name, replacement)) == CleanText(once)
  {
    hide Upsert, CleanText, UniqueHeaders, Put, NoHeaders;
    HeaderIsHeader(name);
    hide Header, IsHeader;
    var cl, h, body := CleanText(content), Header(name), SectionBody(replacement);
    UpsertRefinesPut(content, name, replacement);
    PutUnique(cl, h, body);
    UpsertRefinesPut(Upsert(content, name, replacement), name, replacement);
    PutTwice(cl, h, body, body);
  }
}
