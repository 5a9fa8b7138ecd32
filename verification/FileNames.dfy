/** Paths as sequences of components, and the path functions the file operations use. */
module FileNames {
  import opened Wrappers
  import opened Text

  /** An absolute path without its separators; the empty sequence is the root of the file system. */
  type Path = seq<string>

  predicate IsComponent(c: string) {
    c != "" && c != "." && c != ".." && Without(c, '/')
  }

  /** What cleaning a path leaves: no empty, "." or ".." component. */
  predicate Clean(p: Path) {
    forall i :: 0 <= i < |p| ==> IsComponent(p[i])
  }

  function Parent(p: Path): Path {
    if p == [] then [] else p[..|p| - 1]
  }

  function BaseOf(p: Path): string {
    if p == [] then "/" else p[|p| - 1]
  }

  /** Appending parsed components to a cleaned path, cleaning as it goes. */
  function Resolve(dir: Path, parts: seq<string>): Path
    decreases |parts|
  {
    if parts == [] then dir
    else if parts[0] == "" || parts[0] == "." then Resolve(dir, parts[1..])
    else if parts[0] == ".." then Resolve(Parent(dir), parts[1..])
    else Resolve(dir + [parts[0]], parts[1..])
  }

  /** Joining a directory with a name that may itself hold separators. */
  function JoinPath(dir: Path, name: string): Path {
    Resolve(dir, Split(name, '/'))
  }

  lemma JoinComponent(dir: Path, name: string)
    requires IsComponent(name)
    ensures JoinPath(dir, name) == dir + [name]
  {
    SplitPlain(name, '/');
    var parts := [name];
    assert parts[1..] == [] && parts[0] == name;
    assert Resolve(dir, parts) == Resolve(dir + [name], parts[1..]);
  }

  lemma JoinSlash(dir: Path)
    ensures JoinPath(dir, "/") == dir
  {
    assert Split("", '/') == [""];
    assert "/"[1..] == "";
    assert Split("/", '/') == ["", ""];
    assert ["", ""][1..] == [""] && [""][1..] == [];
  }

  // ---- Base names ------------------------------------------------------------------------------

  function StripSlashes(s: string): (r: string)
    ensures r <= s && (r == "" || r[|r| - 1] != '/')
  {
    if s != "" && s[|s| - 1] == '/' then StripSlashes(s[..|s| - 1]) else s
  }

  /** What follows the last separator. */
  function AfterSlash(s: string): (r: string)
    ensures Without(r, '/') && |r| <= |s|
    ensures Without(s, '/') ==> r == s
  {
    if s == "" || s[|s| - 1] == '/' then "" else AfterSlash(s[..|s| - 1]) + [s[|s| - 1]]
  }

  /** The last element of a path written out; "." for the empty text, "/" for separators only. */
  function Base(s: string): string {
    if s == "" then "."
    else
      var t := StripSlashes(s);
      if t == "" then "/" else AfterSlash(t)
  }

  predicate ValidFileName(name: string) {
    name != "" && name != "." && name != ".." && name == Base(name)
  }

  /** A name passes the check exactly when it is a component, or is a single separator. */
  lemma ValidNames(name: string)
    ensures ValidFileName(name) <==> IsComponent(name) || name == "/"
  {
    if name == "/" {
      assert "/"[..0] == "" && StripSlashes("") == "";
      assert "/" != "." && "/" != "..";
    } else if name != "" && Without(name, '/') {
      assert name[|name| - 1] != '/';
    }
  }

  // ---- Extensions ------------------------------------------------------------------------------

  /** From the last dot on; empty without a dot. The name holds no separator. */
  function Ext(name: string): (r: string)
    ensures |r| <= |name| && name[|name| - |r|..] == r
  {
    if name == "" then ""
    else if name[|name| - 1] == '.' then "."
    else
      var rest := Ext(name[..|name| - 1]);
      if rest == "" then "" else rest + [name[|name| - 1]]
  }

  function Stem(name: string): string {
    name[..|name| - |Ext(name)|]
  }

  // ---- Relative paths --------------------------------------------------------------------------

  function Common(a: Path, b: Path): (n: nat)
    ensures n <= |a| && n <= |b| && a[..n] == b[..n]
    ensures n < |a| && n < |b| ==> a[n] != b[n]
  {
    if a == [] || b == [] || a[0] != b[0] then 0
    else
      var n := Common(a[1..], b[1..]);
      assert a[..n + 1] == [a[0]] + a[1..][..n] && b[..n + 1] == [b[0]] + b[1..][..n];
      n + 1
  }

  function Ups(n: nat): seq<string> {
    seq(n, i => "..")
  }

  function RelParts(base: Path, target: Path): seq<string> {
    var n := Common(base, target);
    Ups(|base| - n) + target[n..]
  }

  /** The relative path from base to target, written out. */
  function Rel(base: Path, target: Path): string {
    var parts := RelParts(base, target);
    if parts == [] then "." else Join(parts, '/')
  }

  predicate IsPathWithinRoot(root: Path, target: Path) {
    var rel := Rel(root, target);
    rel == "." || (rel != ".." && !("../" <= rel))
  }

  /** The check on the text of the relative path decides whether the root is a prefix of the path. */
  lemma WithinIsPrefix(root: Path, target: Path)
    requires Clean(root) && Clean(target)
    ensures IsPathWithinRoot(root, target) <==> root <= target
  {
    hide IsSpace, Split;
    var n := Common(root, target);
    var parts := RelParts(root, target);
    if n < |root| {
      assert parts[0] == "..";
      FirstPart(parts);
    } else {
      assert parts == target[|root|..] && root == target[..n];
      if parts != [] {
        assert IsComponent(target[n]) && parts[0] == target[n];
        FirstPart(parts);
      }
    }
  }

  /** How the text of a path begins tells its first component. */
  lemma FirstPart(parts: seq<string>)
    requires parts != [] && Without(parts[0], '/')
    ensures var rel := Join(parts, '/'); (rel == ".." || "../" <= rel) <==> parts[0] == ".."
    ensures Join(parts, '/') == "." ==> parts[0] == "."
  {
    var rel, c := Join(parts, '/'), parts[0];
    var more := |parts| > 1;
    if more {
      assert rel == c + ("/" + Join(parts[1..], '/'));
      assert rel[|c|] == '/';
    }
    assert c <= rel && (!more ==> rel == c);
    if "../" <= rel {
      assert rel[0] == '.' && rel[1] == '.' && rel[2] == '/';
      SlashAt(rel, c, 2, more);
    }
    if c == ".." && more {
      assert rel[..3] == "../";
    }
  }

  lemma SlashAt(rel: string, c: string, k: nat, more: bool)
    requires c <= rel && Without(c, '/') && k < |rel| && rel[k] == '/' && forall i :: 0 <= i < k ==> rel[i] != '/'
    requires if more then |c| < |rel| && rel[|c|] == '/' else rel == c
    ensures more && |c| == k && c == rel[..k]
  {
  }
}
