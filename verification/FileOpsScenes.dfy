/** Requests that pass every check and do what a storage should not allow: leaving the root, and removing
    the source with the target. */
module FileOpsScenes {
  import opened Wrappers
  import opened Text
  import opened FileNames
  import opened FileTree
  import opened FileOps
  import opened FileOpsProofs

  // ---- Out of the root -------------------------------------------------------------------------

  /** Naming the root under the rename policy gets past every check and out of the root, for any source that
      may be moved at all, as long as one of the alternative names beside the root is free. */
  lemma EscapePlan(t: Tree, root: Path, req: Request)
    requires Setting(t, root, req) && root != [] && NamesRoot(root, req) && NormalizePolicy(req.policy) == Some(KeepBoth)
    requires CheckSource(t, root, req.source).None?
    ensures req.source in t
    ensures
      var next := FirstFree(t, root, t[req.source].Folder?, 1);
      Plan(t, root, req) == if next.Some? then Ok((next.value, false)) else Err(InvalidTarget)
    ensures Plan(t, root, req).Ok? ==> !(root <= Plan(t, root, req).value.0)
  {
    hide IsPathWithinRoot, NormalizePolicy, NameOf, Clean, WellFormed, JoinPath, ValidFileName, FirstFree, GoodPlan;
    SourceFacts(t, root, req.source);
    RootChecks(t, root, req);
    var next := FirstFree(t, root, t[req.source].Folder?, 1);
    if next.Some? {
      FreeNext(t, root, t[req.source].Folder?);
      WithinIsPrefix(req.source, next.value);
      assert |next.value| == |root|;
    }
    if Plan(t, root, req).Ok? {
      PlanIsGood(t, root, req);
    }
    hide CheckSource, TrashRoot, Parent;
  }

  /** The root passes as a target folder, and as a target that exists. */
  lemma RootChecks(t: Tree, root: Path, req: Request)
    requires Setting(t, root, req) && NamesRoot(root, req) && root < req.source
    ensures CheckParent(t, root, req.parent).None? && ValidFileName(NameOf(req))
    ensures JoinPath(req.parent, NameOf(req)) == root && TargetBaseOk(root, req.source, root) && Stat(t, root).Found?
  {
    hide IsPathWithinRoot, NameOf, Clean, WellFormed, JoinPath, ValidFileName;
    ValidNames("/");
    JoinSlash(root);
    TrashRootClean(root);
    WithinIsPrefix(root, root);
    WithinIsPrefix(TrashRoot(root), root);
    hide TrashRoot;
  }

  // ---- Onto a folder that holds the source -----------------------------------------------------

  /** So does overwriting a folder above the source. */
  lemma HolderPlan(t: Tree, root: Path, req: Request)
    requires Setting(t, root, req) && NormalizePolicy(req.policy) == Some(Overwrite)
    requires CheckSource(t, root, req.source).None? && root <= req.parent && req.parent + [NameOf(req)] < req.source
    ensures Plan(t, root, req) == Ok((req.parent + [NameOf(req)], true))
  {
    hide IsPathWithinRoot, NormalizePolicy, NameOf, WellFormed, JoinPath, ValidFileName, IsComponent;
    var name := NameOf(req);
    var target := req.parent + [name];
    SourceFacts(t, root, req.source);
    assert req.source[|req.parent|] == name;
    ValidNames(name);
    JoinComponent(req.parent, name);
    PrefixIsFolder(t, req.source, req.parent);
    PrefixIsFolder(t, req.source, target);
    CleanPlus(req.parent, name);
    TrashRootClean(root);
    WithinIsPrefix(root, req.parent);
    WithinIsPrefix(TrashRoot(root), req.parent);
    WithinIsPrefix(root, target);
    WithinIsPrefix(TrashRoot(root), target);
    WithinIsPrefix(req.source, target);
    hide CheckSource, TrashRoot, Clean;
  }

  /** Such a request, moved, leaves neither the source nor the target. */
  lemma HolderMoveLosesBoth(t: Tree, root: Path, req: Request, works: bool)
    requires Setting(t, root, req) && NormalizePolicy(req.policy) == Some(Overwrite)
    requires CheckSource(t, root, req.source).None? && root <= req.parent && req.parent + [NameOf(req)] < req.source
    ensures var (t', r) := Moved(t, root, req, works); r.Err? && req.source !in t' && req.parent + [NameOf(req)] !in t'
  {
    hide CheckSource, NormalizePolicy, NameOf, Plan, Moved, WellFormed, Clean, TrashRoot;
    HolderPlan(t, root, req);
    OverwritingMove(t, root, req, works);
    var (t', r) := Moved(t, root, req, works);
    assert r.Err? && t' == Removed(t, req.parent + [NameOf(req)]);
  }

  // ---- One storage -----------------------------------------------------------------------------

  const ROOT := ["s"]
  const FOLDER := ["s", "a"]
  const FILE := ["s", "a", "b"]

  /** A storage with one folder and a file in it. */
  const SMALL: Tree := map[[] := Folder, ROOT := Folder, FOLDER := Folder, FILE := File([])]

  lemma SmallIsSetting(req: Request)
    requires req.source == FILE && req.parent == ROOT
    ensures Setting(SMALL, ROOT, req) && CheckSource(SMALL, ROOT, req.source).None?
  {
    hide IsPathWithinRoot, WellFormed, Clean;
    SmallClean();
    SmallWellFormed();
    TrashRootClean(ROOT);
    WithinIsPrefix(ROOT, FILE);
    WithinIsPrefix(TrashRoot(ROOT), FILE);
    assert ROOT <= FILE && TrashRoot(ROOT)[1] != FILE[1];
  }

  lemma SmallClean()
    ensures Clean([]) && Clean(ROOT) && Clean(FOLDER) && Clean(FILE)
  {
    assert IsComponent("s") && IsComponent("a") && IsComponent("b");
    hide IsComponent;
  }

  lemma SmallWellFormed()
    ensures WellFormed(SMALL)
  {
    hide Clean;
    SmallClean();
    assert Parent(FILE) == FOLDER && Parent(FOLDER) == ROOT && Parent(ROOT) == [];
    assert SMALL[FOLDER] == Folder && SMALL[ROOT] == Folder && SMALL[[]] == Folder;
    hide Parent;
  }

  lemma {:induction false} LowerStays(s: string)
    requires forall i :: 0 <= i < |s| ==> !('A' <= s[i] <= 'Z')
    ensures ToLower(s) == s
  {
    if s != "" { LowerStays(s[1..]); }
  }

  lemma TightStays(s: string)
    requires s != "" && !IsSpace(s[0]) && !IsSpace(s[|s| - 1])
    ensures TrimSpace(s) == s
  {
  }

  /** Small letters and the separator are no white space. */
  lemma PlainChar(c: char)
    requires 'a' <= c <= 'z' || c == '/'
    ensures !IsSpace(c) && !('A' <= c <= 'Z')
  {
  }

  lemma PlainWord(s: string)
    requires s != "" && forall i :: 0 <= i < |s| ==> 'a' <= s[i] <= 'z' || s[i] == '/'
    ensures TrimSpace(s) == s && ToLower(s) == s
  {
    hide IsSpace, TrimSpace;
    forall i | 0 <= i < |s| ensures !IsSpace(s[i]) && !('A' <= s[i] <= 'Z') { PlainChar(s[i]); }
    LowerStays(s);
    TightStays(s);
  }

  lemma Policies()
    ensures NormalizePolicy("rename") == Some(KeepBoth) && NormalizePolicy("overwrite") == Some(Overwrite)
  {
    hide TrimSpace, ToLower;
    PlainWord("rename");
    PlainWord("overwrite");
  }

  lemma ShortNames()
    ensures TrimSpace("/") == "/" && TrimSpace("a") == "a"
  {
    hide TrimSpace, ToLower;
    PlainWord("/");
    PlainWord("a");
  }

  /** Moving the file to the name "/" in the root, under the rename policy, puts it beside the root. */
  lemma FileLeavesRoot()
    ensures Plan(SMALL, ROOT, Request(FILE, ROOT, "/", "rename")) == Ok((["s (1)"], false))
  {
    hide Plan, NormalizePolicy, FirstFree, CheckSource, Setting, TrimSpace, BaseOf;
    var req := Request(FILE, ROOT, "/", "rename");
    Policies();
    ShortNames();
    SmallIsSetting(req);
    FirstBeside();
    assert NamesRoot(ROOT, req) && SMALL[FILE] == File([]);
    EscapePlan(SMALL, ROOT, req);
  }

  lemma FirstIsFree(t: Tree, target: Path, folder: bool, i: nat)
    requires i <= MAX_TRIES && Stat(t, Candidate(target, folder, i)).NotExist?
    ensures FirstFree(t, target, folder, i) == Some(Candidate(target, folder, i))
  {
    hide Candidate;
  }

  lemma FirstBeside()
    ensures FirstFree(SMALL, ROOT, false, 1) == Some(["s (1)"])
  {
    hide FirstFree;
    NumberedRoot();
    FirstIsFree(SMALL, ROOT, false, 1);
    hide Candidate;
  }

  /** The first alternative to a name without a dot, at the top. */
  lemma NumberedTop(name: string)
    requires IsComponent(name) && Ext(name) == ""
    ensures Candidate([name], false, 1) == [name + " (1)"]
  {
    hide JoinPath, IsComponent, Ext;
    assert Itoa(1) == "1" && Stem(name) == name;
    ComponentPlain(name);
    NumberedName(name, 1, "");
    assert name + " (" + "1" + ")" + "" == name + " (1)";
    JoinComponent([], name + " (1)");
    assert [] + [name + " (1)"] == [name + " (1)"];
  }

  lemma NumberedRoot()
    ensures Candidate(ROOT, false, 1) == ["s (1)"] && Stat(SMALL, ["s (1)"]).NotExist?
  {
    hide Candidate, Ext, Stat;
    OneLetter('s');
    assert "s" + " (1)" == "s (1)";
    NumberedTop("s");
    FreeTop("s (1)");
  }

  lemma OneLetter(c: char)
    requires c != '.' && c != '/'
    ensures Ext([c]) == "" && IsComponent([c])
  {
    assert [c][..0] == "";
  }

  lemma FreeTop(name: string)
    requires |name| > 1
    ensures Stat(SMALL, [name]).NotExist?
  {
    assert [name] != ROOT by { assert [name][0] != ROOT[0]; }
    assert |[name]| != |FOLDER| && |[name]| != |FILE| && Parent([name]) == [];
    assert !FileAbove(SMALL, []) && SMALL[[]] == Folder;
  }

  /** Moving the file over its own folder removes both. */
  lemma FileAndFolderLost(works: bool)
    ensures
      var (t', r) := Moved(SMALL, ROOT, Request(FILE, ROOT, "a", "overwrite"), works);
      r.Err? && FILE !in t' && FOLDER !in t'
  {
    hide Moved, NormalizePolicy, CheckSource, Setting, TrimSpace, BaseOf;
    var req := Request(FILE, ROOT, "a", "overwrite");
    Policies();
    ShortNames();
    SmallIsSetting(req);
    assert NameOf(req) == "a" && ROOT + ["a"] == FOLDER;
    HolderMoveLosesBoth(SMALL, ROOT, req, works);
  }
}
