/** Which request gets which answer, in terms of prefixes of paths, nodes of the tree and the words of the
    request. */
module FileAnswers {
  import opened Wrappers
  import opened Text
  import opened FileNames
  import opened FileTree
  import opened FileOps
  import opened FileOpsProofs
  import opened Trash

  // ---- Missing nodes ---------------------------------------------------------------------------

  predicate FileOnTheWay(t: Tree, p: Path) {
    exists n :: 0 <= n < |p| && p[..n] in t && t[p[..n]].File?
  }

  /** A look at a path fails with something else than "not there" exactly when a file lies on the way. */
  lemma {:induction false} FileAboveIff(t: Tree, p: Path)
    ensures FileAbove(t, p) <==> FileOnTheWay(t, p)
    decreases |p|
  {
    if p != [] {
      var q := Parent(p);
      FileAboveIff(t, q);
      forall n | 0 <= n <= |q| ensures q[..n] == p[..n] {}
      assert q[..|q|] == q;
      if FileOnTheWay(t, p) {
        var n :| 0 <= n < |p| && p[..n] in t && t[p[..n]].File?;
        assert n < |q| ==> q[..n] in t && t[q[..n]].File?;
      }
      if FileAbove(t, p) && !FileAbove(t, q) {
        assert p[..|q|] == q;
      } else if FileAbove(t, p) {
        var n :| 0 <= n < |q| && q[..n] in t && t[q[..n]].File?;
        assert p[..n] in t && t[p[..n]].File?;
      }
    }
  }

  function Absent(t: Tree, p: Path, missing: Error): Error {
    if FileOnTheWay(t, p) then StatFailed else missing
  }

  // ---- Checks ----------------------------------------------------------------------------------

  ghost function SourceAnswer(t: Tree, root: Path, source: Path): Option<Error> {
    if !(root <= source) then Some(OutOfRange)
    else if source == root then Some(RootForbidden)
    else if root + [".trash"] <= source then Some(InTrash)
    else if source !in t then Some(Absent(t, source, NotFound))
    else None
  }

  ghost function ParentAnswer(t: Tree, root: Path, parent: Path): Option<Error> {
    if !(root <= parent) then Some(ParentOutOfRange)
    else if root + [".trash"] <= parent then Some(TrashTarget)
    else if parent !in t then Some(Absent(t, parent, ParentNotFound))
    else if t[parent].File? then Some(ParentNotFolder)
    else None
  }

  lemma SourceIsAnswered(t: Tree, root: Path, source: Path)
    requires Clean(root) && Clean(source)
    ensures CheckSource(t, root, source) == SourceAnswer(t, root, source)
  {
    hide IsPathWithinRoot, FileOnTheWay, FileAbove, Clean;
    TrashRootClean(root);
    WithinIsPrefix(root, source);
    WithinIsPrefix(TrashRoot(root), source);
    FileAboveIff(t, source);
  }

  lemma ParentIsAnswered(t: Tree, root: Path, parent: Path)
    requires Clean(root) && Clean(parent)
    ensures CheckParent(t, root, parent) == ParentAnswer(t, root, parent)
  {
    hide IsPathWithinRoot, FileOnTheWay, FileAbove, Clean;
    TrashRootClean(root);
    WithinIsPrefix(root, parent);
    WithinIsPrefix(TrashRoot(root), parent);
    FileAboveIff(t, parent);
  }

  // ---- Alternatives ----------------------------------------------------------------------------

  /** The number goes before the last dot of a file's name, and behind a folder's name or a name without
      a dot. */
  lemma CandidateName(target: Path, folder: bool, i: nat, base: string, ext: string)
    requires Clean(target) && target != [] && target[|target| - 1] == base + ext
    requires folder ==> ext == ""
    requires !folder ==> if ext == "" then Without(base, '.') else ext[0] == '.' && Without(ext[1..], '.')
    ensures Candidate(target, folder, i) == target[..|target| - 1] + [base + " (" + Itoa(i) + ")" + ext]
  {
    hide IsSpace, Itoa, IsComponent, JoinPath, Clean, Ext;
    CleanParent(target);
    var name := BaseOf(target);
    assert name == base + ext;
    ComponentPlain(name);
    PartsWithout(base, ext, '/');
    NumberedName(base, i, ext);
    assert name[..|base|] == base;
    if ext == "" {
      assert name == base;
      if !folder { NoExt(base); }
    } else {
      LastExt(base, ext);
    }
    JoinComponent(Parent(target), base + " (" + Itoa(i) + ")" + ext);
  }

  lemma {:induction false} NoExt(name: string)
    requires Without(name, '.')
    ensures Ext(name) == ""
  {
    if name != "" { NoExt(name[..|name| - 1]); }
  }

  lemma {:induction false} LastExt(base: string, ext: string)
    requires ext != "" && ext[0] == '.' && Without(ext[1..], '.')
    ensures Ext(base + ext) == ext
    decreases |ext|
  {
    hide Without;
    if |ext| == 1 {
      assert ext == ".";
    } else {
      var name, shorter, c := base + ext, ext[..|ext| - 1], ext[|ext| - 1];
      assert ext == shorter + [c] && name == base + shorter + [c] && name[..|name| - 1] == base + shorter;
      assert ext[1..] == shorter[1..] + [c];
      PartsWithout(shorter[1..], [c], '.');
      LastExt(base, shorter);
      assert c != '.' by { NotIn(c, '.'); }
    }
  }

  lemma NotIn(d: char, c: char)
    requires Without([d], c)
    ensures d != c
  {
    assert [d][0] == d;
  }

  /** The k-th alternative is the first that is not there, among ten thousand. */
  predicate IsFirstFree(t: Tree, target: Path, folder: bool, k: nat) {
    && 1 <= k <= 10000 && Candidate(target, folder, k) !in t
    && forall j :: 1 <= j < k ==> Candidate(target, folder, j) in t
  }

  lemma {:induction false} FirstFreeSearch(t: Tree, target: Path, folder: bool, i: nat, k: nat)
    requires WellFormed(t) && Clean(target) && IsFolder(t, Parent(target))
    requires 1 <= i <= k && IsFirstFree(t, target, folder, k)
    ensures FirstFree(t, target, folder, i) == Some(Candidate(target, folder, k))
    decreases k - i
  {
    hide Candidate, Clean, WellFormed, FileAbove;
    CandidateShape(target, folder, i);
    NoFileAbove(t, Candidate(target, folder, i));
    if i < k {
      FirstFreeSearch(t, target, folder, i + 1, k);
    }
  }

  lemma FirstFreeIff(t: Tree, target: Path, folder: bool)
    requires WellFormed(t) && Clean(target) && IsFolder(t, Parent(target))
    ensures FirstFree(t, target, folder, 1).Some? <==> exists k :: IsFirstFree(t, target, folder, k)
    ensures forall k :: IsFirstFree(t, target, folder, k) ==> FirstFree(t, target, folder, 1) == Some(Candidate(target, folder, k))
  {
    hide Candidate, Clean, WellFormed, FirstFree;
    FirstFreeIsFree(t, target, folder, 1);
    if FirstFree(t, target, folder, 1).Some? {
      var k :| 1 <= k <= MAX_TRIES && FirstFree(t, target, folder, 1).value == Candidate(target, folder, k)
               && forall j :: 1 <= j < k ==> Candidate(target, folder, j) in t;
      assert IsFirstFree(t, target, folder, k);
    }
    forall k | IsFirstFree(t, target, folder, k)
      ensures FirstFree(t, target, folder, 1) == Some(Candidate(target, folder, k))
    {
      FirstFreeSearch(t, target, folder, 1, k);
    }
  }

  // ---- Move and copy ---------------------------------------------------------------------------

  /** Where a request for a wanted target ends up: there if it is free, there again under "overwrite", at
      the first free alternative under "rename". */
  ghost predicate Lands(t: Tree, folder: bool, wanted: Path, word: string, target: Path, over: bool) {
    if wanted !in t then target == wanted && !over
    else if word == "overwrite" then target == wanted && over
    else word == "rename" && !over && exists k :: IsFirstFree(t, wanted, folder, k) && target == Candidate(wanted, folder, k)
  }

  ghost predicate TargetAnswer(t: Tree, source: Path, wanted: Path, word: string, plan: Result<(Path, bool), Error>)
    requires source in t
  {
    && (forall target, over :: Lands(t, t[source].Folder?, wanted, word, target, over) ==>
          plan == if source <= target then Err(IntoSelf) else Ok((target, over)))
    && ((forall target, over :: !Lands(t, t[source].Folder?, wanted, word, target, over)) ==> plan == Err(InvalidTarget))
  }

  /** The answer of the checks of move and copy, for every request: the first of the listed refusals that
      applies, or the target. The policy is the word sent, trimmed and in small letters; no word means
      "error". */
  lemma PlanAnswers(t: Tree, root: Path, req: Request)
    requires Setting(t, root, req)
    ensures
      var plan := Plan(t, root, req);
      var source, parent := SourceAnswer(t, root, req.source), ParentAnswer(t, root, req.parent);
      if source.Some? then plan == Err(source.value)
      else if parent.Some? then plan == Err(parent.value)
      else
        var name := if TrimSpace(req.name) == "" then req.source[|req.source| - 1] else TrimSpace(req.name);
        var word := TrimSpace(ToLower(req.policy));
        var wanted := if name == "/" then req.parent else req.parent + [name];
        if !IsComponent(name) && name != "/" then plan == Err(InvalidName)
        else if word !in ["", "error", "overwrite", "rename"] then plan == Err(InvalidPolicy)
        else if wanted == req.source || root + [".trash"] <= wanted then plan == Err(InvalidTarget)
        else TargetAnswer(t, req.source, wanted, word, plan)
  {
    hide CheckSource, CheckParent, SourceAnswer, ParentAnswer, ValidFileName, JoinPath, TargetBaseOk, IsComponent, TrimSpace,
      ToLower, TargetAnswer, ConflictTarget, IsPathWithinRoot, WellFormed, Clean, NormalizePolicy;
    SourceIsAnswered(t, root, req.source);
    ParentIsAnswered(t, root, req.parent);
    ValidNames(NameOf(req));
    if CheckSource(t, root, req.source).None? && CheckParent(t, root, req.parent).None? {
      SourceFacts(t, root, req.source);
      ParentFacts(t, root, req.parent);
      PolicyWords(req.policy);
      if ValidFileName(NameOf(req)) && NormalizePolicy(req.policy).Some? {
        WantedTarget(req);
        var wanted := JoinPath(req.parent, NameOf(req));
        assert root <= wanted && (IsFolder(t, wanted) || IsFolder(t, Parent(wanted)));
        BaseIsAnswered(root, req.source, wanted);
        if TargetBaseOk(root, req.source, wanted) {
          TargetIsAnswered(t, root, req.source, wanted, req.policy, Plan(t, root, req));
        } else {
          BadTarget(t, root, req.source, wanted, NormalizePolicy(req.policy).value);
        }
      }
    }
  }

  lemma PolicyWords(policy: string)
    ensures NormalizePolicy(policy).Some? <==> TrimSpace(ToLower(policy)) in ["", "error", "overwrite", "rename"]
  {
    hide TrimSpace, ToLower;
  }

  lemma BadTarget(t: Tree, root: Path, source: Path, wanted: Path, policy: Policy)
    requires !TargetBaseOk(root, source, wanted)
    ensures ConflictTarget(t, root, source, wanted, policy) == None
  {
  }

  lemma TargetIsAnswered(t: Tree, root: Path, source: Path, wanted: Path, policy: string, plan: Result<(Path, bool), Error>)
    requires WellFormed(t) && Clean(wanted) && Clean(source) && source in t
    requires IsFolder(t, wanted) || IsFolder(t, Parent(wanted))
    requires NormalizePolicy(policy).Some? && TargetBaseOk(root, source, wanted)
    requires
      var c := ConflictTarget(t, root, source, wanted, NormalizePolicy(policy).value);
      plan == if c.None? then Err(InvalidTarget) else if IsPathWithinRoot(source, c.value.0) then Err(IntoSelf) else Ok(c.value)
    ensures TargetAnswer(t, source, wanted, TrimSpace(ToLower(policy)), plan)
  {
    hide TargetBaseOk, IsPathWithinRoot, TrimSpace, ToLower, FileAbove, FirstFree, Candidate, Clean, IsFirstFree;
    var folder, word := t[source].Folder?, TrimSpace(ToLower(policy));
    WithinIsPrefix(source, wanted);
    if wanted !in t {
      NoFileAbove(t, wanted);
    } else if word == "rename" {
      assert NodeOk(t, wanted) && IsFolder(t, Parent(wanted));
      FirstFreeIff(t, wanted, folder);
      forall k | IsFirstFree(t, wanted, folder, k)
        ensures IsPathWithinRoot(source, Candidate(wanted, folder, k)) <==> source <= Candidate(wanted, folder, k)
      {
        CandidateShape(wanted, folder, k);
        WithinIsPrefix(source, Candidate(wanted, folder, k));
      }
      if k :| IsFirstFree(t, wanted, folder, k) {
        assert Lands(t, folder, wanted, word, Candidate(wanted, folder, k), false);
      }
    }
    hide WellFormed, NormalizePolicy;
  }

  lemma BaseIsAnswered(root: Path, source: Path, wanted: Path)
    requires Clean(root) && Clean(wanted) && root <= wanted
    ensures TargetBaseOk(root, source, wanted) <==> wanted != source && !(root + [".trash"] <= wanted)
  {
    hide IsPathWithinRoot, Clean;
    TrashRootClean(root);
    WithinIsPrefix(root, wanted);
    WithinIsPrefix(TrashRoot(root), wanted);
  }

  // ---- Rename ----------------------------------------------------------------------------------

  /** The answer to a rename, for every name: a free name in the source's own folder is taken exactly if it
      is one component and, in the root folder, not the trash's. */
  lemma RenameAnswers(t: Tree, root: Path, source: Path, newName: string, works: bool)
    requires WellFormed(t) && IsFolder(t, root) && Clean(root) && Clean(source)
    ensures
      var answer := RenamedTo(t, root, source, newName, works).1;
      var check, name := SourceAnswer(t, root, source), TrimSpace(newName);
      if check.Some? then answer == Err(check.value)
      else if !IsComponent(name) && name != "/" then answer == Err(InvalidName)
      else
        var target := source[..|source| - 1] + [name];
        if name == "/" || target in t || root + [".trash"] <= target then answer == Err(InvalidTarget)
        else answer == if works then Ok(target) else Err(OperationFailed)
  {
    hide CheckSource, SourceAnswer, ValidFileName, JoinPath, TargetBaseOk, IsComponent, TrimSpace, Clean, Renamed, Stat,
      Relocated, Relocates, WellFormed;
    SourceIsAnswered(t, root, source);
    var name := TrimSpace(newName);
    ValidNames(name);
    if CheckSource(t, root, source).None? && ValidFileName(name) {
      SourceFacts(t, root, source);
      var dir := Parent(source);
      CleanParent(source);
      PrefixIsFolder(t, source, dir);
      if name == "/" {
        JoinSlash(dir);
        StatFacts(t, dir);
      } else {
        var target := dir + [name];
        JoinComponent(dir, name);
        CleanPlus(dir, name);
        BaseIsAnswered(root, source, target);
        StatFacts(t, target);
        if target !in t && TargetBaseOk(root, source, target) {
          FreeMove(t, source, target);
        }
      }
    }
  }

  lemma StatFacts(t: Tree, p: Path)
    requires WellFormed(t) && (p in t || IsFolder(t, Parent(p)))
    ensures Stat(t, p).NotExist? <==> p !in t
  {
    hide WellFormed, FileAbove;
    if p !in t { NoFileAbove(t, p); }
  }

  // ---- Delete ----------------------------------------------------------------------------------

  lemma {:induction false} FolderCanBeMade(t: Tree, p: Path)
    requires WellFormed(t)
    ensures MadeAll(t, p).1 <==> !FileAbove(t, p) && !(p in t && t[p].File?)
    decreases |p|
  {
    hide Clean;
    if p in t {
      assert NodeOk(t, p);
      NoFileAbove(t, p);
    } else if p != [] {
      FolderCanBeMade(t, Parent(p));
    }
  }

  lemma TrashDirIs(root: Path, day: Day)
    ensures TrashDir(root, day) == root + [".trash", day.year, day.month, day.day]
  {
  }

  lemma TrashNameIs(id: string, source: Path)
    requires Clean(source) && source != []
    ensures UniqueTrashName(id, BaseOf(source)) == id + "_" + source[|source| - 1]
  {
    hide IsSpace;
    assert IsComponent(BaseOf(source));
    ValidNames(BaseOf(source));
  }

  /** The answer to a delete: the first of the listed refusals that applies, or the path in the trash, which
      is made of the day, the identifier and the source's own name. */
  lemma DeleteAnswers(
      t: Tree, records: Records, root: Path, source: Path, day: Day, id: string, works: bool, inserts: bool)
    requires TrashSetting(t, root, source, day, id) && TrashPath(root, day, id, source) !in t
    ensures
      var answer := Deleted(t, records, root, source, day, id, works, inserts).2;
      var dir := root + [".trash", day.year, day.month, day.day];
      if !(root <= source) then answer == Err(NotInRoot)
      else if root + [".trash"] <= source then answer == Err(AlreadyInTrash)
      else if source !in t then answer == Err(if FileOnTheWay(t, source) then Unreadable else Missing)
      else if FileOnTheWay(t, dir) || (dir in t && t[dir].File?) then answer == Err(NoTrashFolder)
      else if !works || source == root then answer == Err(NotMoved)
      else if !inserts || Rel(root, source) in records then answer == Err(NotRecorded)
      else answer == Ok(Rel(root, dir + [id + "_" + source[|source| - 1]]))
  {
    hide Rel, JoinPath, MadeAll, TrashPath, TrashDir, Renamed, Relocated, Relocates, WellFormed, Clean,
      IsPathWithinRoot, IsComponent, FileAbove, FileOnTheWay;
    DeleteChecks(t, root, source);
    FileAboveIff(t, source);
    var dir := root + [".trash", day.year, day.month, day.day];
    TrashDirIs(root, day);
    FolderCanBeMade(t, dir);
    FileAboveIff(t, dir);
    if source in t && root <= source && !(TrashRoot(root) <= source) {
      if source != root {
        DeleteMoves(t, root, source, day, id);
        TrashPathShape(root, day, id, source);
        TrashNameIs(id, source);
      } else {
        RootStays(t, root, day, id);
      }
    }
  }
}
