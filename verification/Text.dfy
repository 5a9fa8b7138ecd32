/** The string operations the modelled code takes from its standard library: trimming,
    lower-casing, splitting, joining and printing a decimal number. */
module Text {
  import opened Wrappers

  /** White space as the Go standard library's unicode.IsSpace defines it. */
  predicate IsSpace(c: char) {
    c in "\t\n\U{000B}\U{000C}\r \U{0085}\U{00A0}\U{1680}\U{2028}\U{2029}\U{202F}\U{205F}\U{3000}"
    || '\U{2000}' <= c <= '\U{200A}'
  }

  function TrimLeft(s: string): (r: string)
    ensures r == "" || !IsSpace(r[0])
  {
    if s != "" && IsSpace(s[0]) then TrimLeft(s[1..]) else s
  }

  function TrimRight(s: string): (r: string)
    ensures r == "" || !IsSpace(r[|r| - 1])
    ensures r <= s
  {
    if s != "" && IsSpace(s[|s| - 1]) then TrimRight(s[..|s| - 1]) else s
  }

  function TrimSpace(s: string): string {
    TrimRight(TrimLeft(s))
  }

  /** ASCII lower case. */
  function ToLower(s: string): (r: string)
    ensures |r| == |s|
  {
    if s == "" then ""
    else [if 'A' <= s[0] <= 'Z' then s[0] - 'A' + 'a' else s[0]] + ToLower(s[1..])
  }

  // ---- Lines -----------------------------------------------------------------------------------

  predicate Without(s: string, c: char) {
    forall i :: 0 <= i < |s| ==> s[i] != c
  }

  /** The pieces of a text one character longer at the front. */
  function Push(c: char, sep: char, rest: seq<string>): (r: seq<string>)
    requires rest != []
    ensures r != []
  {
    if c == sep then [""] + rest else [[c] + rest[0]] + rest[1..]
  }

  /** The pieces of s between occurrences of a separator; one more than the occurrences. */
  function Split(s: string, sep: char): (r: seq<string>)
    ensures r != []
    ensures forall i :: 0 <= i < |r| ==> Without(r[i], sep)
  {
    if s == "" then [""] else Push(s[0], sep, Split(s[1..], sep))
  }

  function Join(lines: seq<string>, sep: char): string {
    if lines == [] then ""
    else if |lines| == 1 then lines[0]
    else lines[0] + [sep] + Join(lines[1..], sep)
  }

  lemma {:induction false} SplitConcat(a: string, sep: char, b: string)
    ensures Split(a + [sep] + b, sep) == Split(a, sep) + Split(b, sep)
  {
    hide IsSpace, Join;
    var s := a + [sep] + b;
    if a == "" {
      assert s[1..] == b;
    } else {
      hide Push;
      SplitConcat(a[1..], sep, b);
      assert s[1..] == a[1..] + [sep] + b;
      PushConcat(a[0], sep, Split(a[1..], sep), Split(b, sep));
    }
  }

  lemma PushConcat(c: char, sep: char, rest: seq<string>, tail: seq<string>)
    requires rest != []
    ensures Push(c, sep, rest + tail) == Push(c, sep, rest) + tail
  {
    assert (rest + tail)[1..] == rest[1..] + tail;
  }

  /** The pieces of a text one character longer at the end, when it is not a separator. */
  function Extend(lines: seq<string>, c: char): seq<string>
    requires lines != []
  {
    lines[..|lines| - 1] + [lines[|lines| - 1] + [c]]
  }

  lemma PushExtend(h: char, sep: char, rest: seq<string>, c: char)
    requires rest != []
    ensures Push(h, sep, Extend(rest, c)) == Extend(Push(h, sep, rest), c)
  {
    var n := |rest|;
    if h != sep && n == 1 {
      assert [h] + (rest[0] + [c]) == [h] + rest[0] + [c];
    }
  }

  lemma {:induction false} SplitExtend(s: string, sep: char, c: char)
    requires c != sep
    ensures Split(s + [c], sep) == Extend(Split(s, sep), c)
  {
    hide IsSpace, Join;
    if s == "" {
      assert s + [c] == [c] && [c][1..] == "" && Split("", sep) == [""];
      assert [c] + "" == [c] == "" + [c];
      assert Push(c, sep, [""]) == [[c]] + [];
    } else {
      SplitExtend(s[1..], sep, c);
      assert (s + [c])[1..] == s[1..] + [c];
      PushExtend(s[0], sep, Split(s[1..], sep), c);
      hide Push, Extend;
    }
  }

  lemma {:induction false} SplitPlain(a: string, sep: char)
    requires Without(a, sep)
    ensures Split(a, sep) == [a]
  {
    hide IsSpace, Join;
    if a != "" {
      SplitPlain(a[1..], sep);
      assert Split(a[1..], sep) == [a[1..]] && [a[1..]][1..] == [];
      assert [a[0]] + a[1..] == a;
    }
  }

  lemma {:induction false} SplitJoin(lines: seq<string>, sep: char)
    requires lines != [] && forall i :: 0 <= i < |lines| ==> Without(lines[i], sep)
    ensures Split(Join(lines, sep), sep) == lines
  {
    if |lines| == 1 {
      SplitPlain(lines[0], sep);
    } else {
      SplitJoin(lines[1..], sep);
      SplitPlain(lines[0], sep);
      SplitConcat(lines[0], sep, Join(lines[1..], sep));
      assert [lines[0]] + lines[1..] == lines;
    }
  }

  lemma {:induction false} JoinSplit(s: string, sep: char)
    ensures Join(Split(s, sep), sep) == s
  {
    hide IsSpace, Push;
    if s != "" {
      JoinSplit(s[1..], sep);
      JoinPush(s[0], sep, Split(s[1..], sep));
      assert s == [s[0]] + s[1..];
    }
  }

  lemma JoinPush(c: char, sep: char, rest: seq<string>)
    requires rest != []
    ensures Join(Push(c, sep, rest), sep) == [c] + Join(rest, sep)
  {
    hide IsSpace;
    if c == sep {
      assert ([""] + rest)[1..] == rest;
    } else {
      assert ([[c] + rest[0]] + rest[1..])[1..] == rest[1..];
    }
  }

  // ---- Trimming --------------------------------------------------------------------------------

  lemma TrimLeftSpace(c: char, s: string)
    requires IsSpace(c)
    ensures TrimSpace([c] + s) == TrimSpace(s)
  {
    assert ([c] + s)[1..] == s;
  }

  lemma {:induction false} TrimLeftAppend(s: string, c: char)
    requires IsSpace(c)
    ensures TrimLeft(s + [c]) == if TrimLeft(s) == "" then "" else TrimLeft(s) + [c]
  {
    if s == "" {
      assert (s + [c])[1..] == "";
    } else {
      assert (s + [c])[1..] == s[1..] + [c];
      if IsSpace(s[0]) {
        TrimLeftAppend(s[1..], c);
      }
    }
  }

  lemma TrimRightSpace(s: string, c: char)
    requires IsSpace(c)
    ensures TrimSpace(s + [c]) == TrimSpace(s)
  {
    TrimLeftAppend(s, c);
    var t := TrimLeft(s);
    assert (t + [c])[..|t + [c]| - 1] == t;
  }

  /** Of the first 128 characters, white space is the blank and the five control characters from the tab on. */
  lemma AsciiSpaces(c: char)
    requires c < '\U{0080}'
    ensures IsSpace(c) <==> c == ' ' || '\t' <= c <= '\r'
  {
  }

  /** Trimming cuts white space, and nothing else, from both ends, as far as it goes. */
  lemma TrimParts(s: string) returns (front: string, back: string)
    ensures s == front + TrimSpace(s) + back
    ensures forall i :: 0 <= i < |front| ==> IsSpace(front[i])
    ensures forall i :: 0 <= i < |back| ==> IsSpace(back[i])
    ensures var t := TrimSpace(s); t != "" ==> !IsSpace(t[0]) && !IsSpace(t[|t| - 1])
  {
    hide IsSpace;
    front := LeftParts(s);
    back := RightParts(TrimLeft(s));
  }

  lemma {:induction false} LeftParts(s: string) returns (front: string)
    ensures s == front + TrimLeft(s)
    ensures forall i :: 0 <= i < |front| ==> IsSpace(front[i])
  {
    front := "";
    if s != "" && IsSpace(s[0]) {
      var more := LeftParts(s[1..]);
      front := [s[0]] + more;
    }
  }

  lemma {:induction false} RightParts(s: string) returns (back: string)
    ensures s == TrimRight(s) + back
    ensures forall i :: 0 <= i < |back| ==> IsSpace(back[i])
  {
    back := "";
    if s != "" && IsSpace(s[|s| - 1]) {
      var more := RightParts(s[..|s| - 1]);
      back := more + [s[|s| - 1]];
    }
  }

  /** Lowering changes the capital letters, each to its small one, and no other character. */
  lemma {:induction false} ToLowerAt(s: string, i: nat)
    requires i < |s|
    ensures ToLower(s)[i] == if 'A' <= s[i] <= 'Z' then (s[i] as int + 32) as char else s[i]
  {
    if i > 0 { ToLowerAt(s[1..], i - 1); }
  }

  // ---- Decimal numbers -------------------------------------------------------------------------

  const DIGITS := "0123456789"

  function DigitOf(c: char): (r: Option<nat>)
    ensures r.Some? ==> r.value < 10
  {
    match c
    case '0' => Some(0) case '1' => Some(1) case '2' => Some(2) case '3' => Some(3) case '4' => Some(4)
    case '5' => Some(5) case '6' => Some(6) case '7' => Some(7) case '8' => Some(8) case '9' => Some(9)
    case _ => None
  }

  /** The value of a run of digits. */
  function Digits(s: string): Option<nat> {
    if s == "" then Some(0)
    else
      var d := DigitOf(s[|s| - 1]);
      var rest := Digits(s[..|s| - 1]);
      if d.Some? && rest.Some? then Some(10 * rest.value + d.value) else None
  }

  function Itoa(n: nat): string {
    if n < 10 then [DIGITS[n]] else Itoa(n / 10) + [DIGITS[n % 10]]
  }

  lemma DigitChar(n: nat)
    requires n < 10
    ensures DigitOf(DIGITS[n]) == Some(n) && DIGITS[n] != '$' && DIGITS[n] != '-' && DIGITS[n] != '+'
  {
  }

  lemma {:induction false} DigitsItoa(n: nat)
    ensures Digits(Itoa(n)) == Some(n) && Without(Itoa(n), '$')
    ensures Itoa(n) != "" && Itoa(n)[0] != '-' && Itoa(n)[0] != '+'
  {
    hide DigitOf;
    DigitChar(n % 10);
    var c := DIGITS[n % 10];
    if n < 10 {
      assert Itoa(n) == [c] && [c][..0] == "";
    } else {
      DigitsItoa(n / 10);
      assert (Itoa(n / 10) + [c])[..|Itoa(n / 10)|] == Itoa(n / 10);
    }
  }
}
