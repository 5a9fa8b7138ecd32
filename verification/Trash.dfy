/** Moving to the trash: folder, rename, record, and the way back when the record is refused. */
module Trash {
  import opened Wrappers
  import opened Text
  import opened FileNames
  import opened FileTree
  import opened FileOps
  import opened FileOpsProofs

  /** The rows of one storage: original paths are unique; each row keeps the path in the trash. Both are
      relative and written out. */
  type Records = map<string, string>

  datatype Day = Day(year: string, month: string, day: string)

  datatype DeleteError =
    | NotInRoot | AlreadyInTrash | Missing | Unreadable | NoTrashFolder | NotMoved | NotRecorded

  function TrashDir(root: Path, day: Day): Path {
    root + [TRASH, day.year, day.month, day.day]
  }

  function UniqueTrashName(id: string, name: string): string {
    id + "_" + Base(name)
  }

  function TrashPath(root: Path, day: Day, id: string, source: Path): Path {
    JoinPath(TrashDir(root, day), UniqueTrashName(id, BaseOf(source)))
  }

  /** `works` and `inserts` are false when the rename or the insert fails for an outside reason. */
  function Deleted(t: Tree, records: Records, root: Path, source: Path, day: Day, id: string, works: bool, inserts: bool)
    : (Tree, Records, Result<string, DeleteError>)
  {
    if !IsPathWithinRoot(root, source) then (t, records, Err(NotInRoot))
    else if IsPathWithinRoot(TrashRoot(root), source) then (t, records, Err(AlreadyInTrash))
    else if Stat(t, source).NotExist? then (t, records, Err(Missing))
    else if Stat(t, source).NotDir? then (t, records, Err(Unreadable))
    else
      var original := Rel(root, source);
      var (made, ok) := MadeAll(t, TrashDir(root, day));
      if !ok then (made, records, Err(NoTrashFolder))
      else
        var target := TrashPath(root, day, id, source);
        var moved := Renamed(made, source, target);
        if !works || moved.Err? then (made, records, Err(NotMoved))
        else
          var recycle := Rel(root, target);
          if inserts && original !in records then (moved.value, records[original := recycle], Ok(recycle))
          else
            var back := Renamed(moved.value, target, source);
            (if back.Ok? then back.value else moved.value, records, Err(NotRecorded))
  }

  class TrashHandler {
    const root: Path
    var tree: Tree
    var records: Records

    constructor (root: Path, tree: Tree, records: Records)
      ensures this.root == root && this.tree == tree && this.records == records
    {
      this.root, this.tree, this.records := root, tree, records;
    }

    method EnsureDir(p: Path) returns (ok: bool)
      modifies this`tree
      ensures (tree, ok) == MadeAll(old(tree), p)
      decreases |p|
    {
      if p in tree {
        return tree[p].Folder?;
      }
      if p == [] {
        return false;
      }
      ok := EnsureDir(Parent(p));
      if ok {
        tree := tree[p := Folder];
      }
    }

    method OsRename(source: Path, target: Path) returns (ok: bool)
      modifies this`tree
      ensures ok == Renamed(old(tree), source, target).Ok?
      ensures tree == if ok then Renamed(old(tree), source, target).value else old(tree)
    {
      hide Relocated, Removed;
      var r := Renamed(tree, source, target);
      ok := r.Ok?;
      if ok {
        tree := r.value;
      }
    }

    method AddRecycleBinItem(original: string, recycle: string, inserts: bool) returns (ok: bool)
      modifies this`records
      ensures ok == (inserts && original !in old(records))
      ensures records == if ok then old(records)[original := recycle] else old(records)
    {
      ok := inserts && original !in records;
      if ok {
        records := records[original := recycle];
      }
    }

    method HandleDelete(source: Path, day: Day, id: string, works: bool, inserts: bool) returns (r: Result<string, DeleteError>)
      modifies this
      ensures (tree, records, r) == Deleted(old(tree), old(records), root, source, day, id, works, inserts)
    {
      hide IsPathWithinRoot, Stat, Rel, MadeAll, TrashPath, TrashDir, Renamed;
      if !IsPathWithinRoot(root, source) {
        return Err(NotInRoot);
      }
      if IsPathWithinRoot(TrashRoot(root), source) {
        return Err(AlreadyInTrash);
      }
      var found := Stat(tree, source);
      if found.NotExist? {
        return Err(Missing);
      }
      if found.NotDir? {
        return Err(Unreadable);
      }
      var original := Rel(root, source);
      var made := EnsureDir(TrashDir(root, day));
      if !made {
        return Err(NoTrashFolder);
      }
      var target := TrashPath(root, day, id, source);
      if !works {
        return Err(NotMoved);
      }
      var moved := OsRename(source, target);
      if !moved {
        return Err(NotMoved);
      }
      var recycle := Rel(root, target);
      var added := AddRecycleBinItem(original, recycle, inserts);
      if !added {
        var back := OsRename(target, source);
        return Err(NotRecorded);
      }
      r := Ok(recycle);
    }
  }

  // ---- Relative paths lead back ----------------------------------------------------------------

  /** Joining the root with the relative path of something below it gives its path. */
  lemma RelJoins(root: Path, target: Path)
    requires Clean(root) && Clean(target) && root <= target
    ensures JoinPath(root, Rel(root, target)) == target
  {
    hide IsSpace, IsComponent, Split, Join, Resolve;
    var parts := target[|root|..];
    RelBelow(root, target);
    if parts == [] {
      JoinDot(root);
    } else {
      forall i | 0 <= i < |parts| ensures IsComponent(parts[i]) && Without(parts[i], '/') {
        assert parts[i] == target[|root| + i];
        ComponentFacts(parts[i]);
      }
      SplitJoin(parts, '/');
      ResolveClean(root, parts);
    }
    assert root + parts == target;
  }

  lemma RelBelow(root: Path, target: Path)
    requires root <= target
    ensures var parts := target[|root|..]; Rel(root, target) == if parts == [] then "." else Join(parts, '/')
  {
    hide Join;
    assert RelParts(root, target) == target[|root|..];
  }

  lemma ComponentFacts(c: string)
    requires IsComponent(c)
    ensures Without(c, '/')
  {
  }

  lemma JoinDot(root: Path)
    ensures JoinPath(root, ".") == root
  {
    SplitPlain(".", '/');
    assert ["."][1..] == [];
    assert Resolve(root, ["."]) == Resolve(root, []);
  }

  lemma {:induction false} ResolveClean(dir: Path, parts: seq<string>)
    requires forall i :: 0 <= i < |parts| ==> IsComponent(parts[i])
    ensures Resolve(dir, parts) == dir + parts
    decreases |parts|
  {
    if parts == [] {
      assert dir + parts == dir;
    } else {
      ResolveClean(dir + [parts[0]], parts[1..]);
      assert dir + [parts[0]] + parts[1..] == dir + parts;
    }
  }

  // ---- One delete ------------------------------------------------------------------------------

  ghost predicate TrashSetting(t: Tree, root: Path, source: Path, day: Day, id: string) {
    && WellFormed(t) && Clean(root) && Clean(source)
    && IsComponent(day.year) && IsComponent(day.month) && IsComponent(day.day)
    && Without(id, '/')
  }

  lemma TrashPathShape(root: Path, day: Day, id: string, source: Path)
    requires Clean(root) && Clean(source) && source != [] && Without(id, '/')
    requires IsComponent(day.year) && IsComponent(day.month) && IsComponent(day.day)
    ensures Clean(TrashDir(root, day))
    ensures TrashPath(root, day, id, source) == TrashDir(root, day) + [UniqueTrashName(id, BaseOf(source))]
    ensures Clean(TrashPath(root, day, id, source)) && TrashRoot(root) <= TrashPath(root, day, id, source)
  {
    hide IsSpace, JoinPath;
    var dir := TrashDir(root, day);
    TrashIsComponent();
    forall i | 0 <= i < |dir| ensures IsComponent(dir[i]) {
      if i < |root| { assert dir[i] == root[i]; }
    }
    assert IsComponent(BaseOf(source));
    TrashName(id, BaseOf(source));
    hide IsComponent, UniqueTrashName;
    var name := UniqueTrashName(id, BaseOf(source));
    JoinComponent(dir, name);
    assert TrashRoot(root) <= dir + [name];
  }

  lemma TrashIsComponent()
    ensures IsComponent(TRASH)
  {
  }

  lemma TrashName(id: string, name: string)
    requires Without(id, '/') && IsComponent(name)
    ensures IsComponent(UniqueTrashName(id, name))
  {
    ValidNames(name);
    var n := UniqueTrashName(id, name);
    assert n == id + "_" + name && n[|id|] == '_';
    forall i | 0 <= i < |n| ensures n[i] != '/' {
      assert n[i] == if i < |id| then id[i] else if i == |id| then '_' else name[i - |id| - 1];
    }
  }

  /** A delete that gets past its checks and makes its folder can rename, and can rename back. */
  lemma DeleteMoves(t: Tree, root: Path, source: Path, day: Day, id: string)
    requires TrashSetting(t, root, source, day, id) && TrashPath(root, day, id, source) !in t
    requires source in t && root < source && !(TrashRoot(root) <= source)
    ensures
      var (made, ok) := MadeAll(t, TrashDir(root, day));
      var target := TrashPath(root, day, id, source);
      && WellFormed(made)
      && (ok ==>
            && Renamed(made, source, target) == Ok(Relocated(made, source, target))
            && Renamed(Relocated(made, source, target), target, source) == Ok(made)
            && Relocates(made, Relocated(made, source, target), source, target)
            && WellFormed(Relocated(made, source, target))
            && JoinPath(root, Rel(root, target)) == target)
  {
    hide Rel, JoinPath, MadeAll, Renamed, Relocated, Relocates, WellFormed, Clean, IsComponent, UniqueTrashName,
      TrashPath;
    TrashPathShape(root, day, id, source);
    MadeAllFacts(t, TrashDir(root, day));
    var (made, ok) := MadeAll(t, TrashDir(root, day));
    var target := TrashPath(root, day, id, source);
    TrashApart(root, source, target);
    assert target !in made by { assert !(target <= TrashDir(root, day)); }
    assert Parent(target) == TrashDir(root, day);
    if ok {
      FreeMove(made, source, target);
      FreeMoveBack(made, source, target);
      RelJoins(root, target);
    }
  }

  /** What is in the storage but not in its trash shares no path with what is in the trash. */
  lemma TrashApart(root: Path, source: Path, target: Path)
    requires root < source && !(TrashRoot(root) <= source) && TrashRoot(root) <= target
    ensures !(source <= target) && !(target <= source) && root <= target
  {
    assert source <= target ==> TrashRoot(root) == source[..|root| + 1];
  }

  lemma DeleteChecks(t: Tree, root: Path, source: Path)
    requires Clean(root) && Clean(source)
    ensures IsPathWithinRoot(root, source) <==> root <= source
    ensures IsPathWithinRoot(TrashRoot(root), source) <==> TrashRoot(root) <= source
    ensures Stat(t, source).Found? <==> source in t
  {
    hide IsPathWithinRoot;
    TrashRootClean(root);
    WithinIsPrefix(root, source);
    WithinIsPrefix(TrashRoot(root), source);
  }

  /** Whatever happens, a delete ends in one of two ways, on the tree with the day's folder made as far as
      it can be: the subtree is in the trash, whole, under a recorded path that leads to it and whose
      original path was free in the records; or tree and records are as before. */
  lemma DeleteIsAllOrNothing(
      t: Tree, records: Records, root: Path, source: Path, day: Day, id: string, works: bool, inserts: bool)
    requires TrashSetting(t, root, source, day, id)
    requires TrashPath(root, day, id, source) !in t
    ensures
      var (t', records', r) := Deleted(t, records, root, source, day, id, works, inserts);
      var target := TrashPath(root, day, id, source);
      var (made, ok) := MadeAll(t, TrashDir(root, day));
      && (r.Ok? ==>
            && works && inserts && source in t && root < source && !(TrashRoot(root) <= source)
            && Rel(root, source) !in records && records' == records[Rel(root, source) := r.value]
            && JoinPath(root, r.value) == target && Relocates(made, t', source, target))
      && (r.Err? ==> records' == records && (t' == t || t' == made))
      && WellFormed(t')
      && (source in t && root < source && !(TrashRoot(root) <= source) && ok ==>
            (r.Ok? <==> works && inserts && Rel(root, source) !in records))
  {
    hide Rel, JoinPath, MadeAll, TrashPath, TrashDir, Renamed, Relocated, Relocates, WellFormed, Clean,
      IsPathWithinRoot, IsComponent, Stat;
    DeleteChecks(t, root, source);
    if source in t && root <= source && !(TrashRoot(root) <= source) {
      if source != root {
        DeleteMoves(t, root, source, day, id);
      } else {
        RootStays(t, root, day, id);
      }
    }
  }

  /** The root itself passes the checks but cannot be moved below itself. */
  lemma RootStays(t: Tree, root: Path, day: Day, id: string)
    requires TrashSetting(t, root, root, day, id)
    ensures var made := MadeAll(t, TrashDir(root, day)).0;
      WellFormed(made) && Renamed(made, root, TrashPath(root, day, id, root)).Err?
  {
    hide MadeAll, WellFormed, Relocated, Removed, Relocates, IsComponent, JoinPath, UniqueTrashName;
    TrashDirClean(root, day);
    MadeAllFacts(t, TrashDir(root, day));
    if root == [] {
      TrashOfTop(day, id);
    } else {
      TrashPathShape(root, day, id, root);
      assert root <= TrashPath(root, day, id, root);
    }
    hide Clean, TrashPath;
  }

  lemma TrashDirClean(root: Path, day: Day)
    requires Clean(root) && IsComponent(day.year) && IsComponent(day.month) && IsComponent(day.day)
    ensures Clean(TrashDir(root, day))
  {
    TrashIsComponent();
    hide IsComponent;
    var dir := TrashDir(root, day);
    forall i | 0 <= i < |dir| ensures IsComponent(dir[i]) {
      if i < |root| { assert dir[i] == root[i]; }
    }
  }

  lemma TrashOfTop(day: Day, id: string)
    requires Without(id, '/')
    ensures TrashPath([], day, id, []) != []
  {
    hide IsSpace;
    assert "/"[..0] == "" && StripSlashes("") == "" && Base("/") == "/";
    var c := id + "_";
    assert UniqueTrashName(id, "/") == c + ['/'] + "";
    assert c[|c| - 1] == '_';
    SplitConcat(c, '/', "");
    SplitPlain(c, '/');
    assert Split("", '/') == [""] && Split(c + ['/'] + "", '/') == [c, ""];
    hide Split, IsComponent, Without;
    var dir := TrashDir([], day);
    assert [c, ""][1..] == [""] && [""][1..] == [];
    assert Resolve(dir, [c, ""]) == Resolve(dir + [c], [""]) == Resolve(dir + [c], []);
  }
}
