/** What move, copy and rename keep, for every tree, storage root and request. */
module FileOpsProofs {
  import opened Wrappers
  import opened Text
  import opened FileNames
  import opened FileTree
  import opened FileOps

  /** A storage: its root is a folder of a well-formed tree, and requests name cleaned paths. */
  ghost predicate Setting(t: Tree, root: Path, req: Request) {
    WellFormed(t) && IsFolder(t, root) && Clean(root) && Clean(req.source) && Clean(req.parent)
  }

  /** The request asks for the storage root itself as its target: the name is a bare separator, the target
      folder is the root. */
  predicate NamesRoot(root: Path, req: Request) {
    NameOf(req) == "/" && req.parent == root
  }

  // ---- Targets ---------------------------------------------------------------------------------

  lemma CleanPlus(p: Path, c: string)
    requires Clean(p) && IsComponent(c)
    ensures Clean(p + [c]) && Parent(p + [c]) == p
  {
    hide IsComponent;
  }

  lemma CleanParent(p: Path)
    requires Clean(p)
    ensures Clean(Parent(p)) && (p != [] ==> IsComponent(BaseOf(p)) && p == Parent(p) + [BaseOf(p)])
  {
    hide IsComponent;
  }

  lemma TrashRootClean(root: Path)
    requires Clean(root)
    ensures Clean(TrashRoot(root))
  {
    CleanPlus(root, TRASH);
  }

  lemma PartsWithout(a: string, b: string, c: char)
    ensures Without(a + b, c) <==> Without(a, c) && Without(b, c)
  {
    if Without(a + b, c) {
      forall i | 0 <= i < |a| ensures a[i] != c { assert (a + b)[i] == a[i]; }
      forall i | 0 <= i < |b| ensures b[i] != c { assert (a + b)[|a| + i] == b[i]; }
    }
  }

  /** Text around a number in brackets is a component other than the trash when its parts hold no
      separator. */
  lemma NumberedName(base: string, i: nat, ext: string)
    requires Without(base, '/') && Without(ext, '/')
    ensures var name := base + " (" + Itoa(i) + ")" + ext; IsComponent(name) && name != TRASH
  {
    hide IsSpace, Itoa;
    DigitsItoa(i);
    var name := base + " (" + Itoa(i) + ")" + ext;
    ItoaPlain(i);
    PartsWithout(base, " (", '/');
    PartsWithout(base + " (", Itoa(i), '/');
    PartsWithout(base + " (" + Itoa(i), ")", '/');
    PartsWithout(base + " (" + Itoa(i) + ")", ext, '/');
    assert name[|base| + 1] == '(';
    assert forall k :: 0 <= k < |TRASH| ==> TRASH[k] != '(';
    assert |name| >= 3;
  }

  lemma {:induction false} ItoaPlain(n: nat)
    ensures Without(Itoa(n), '/')
  {
    SlashNoDigit(n % 10);
    if n >= 10 {
      ItoaPlain(n / 10);
    }
  }

  lemma SlashNoDigit(n: nat)
    requires n < 10
    ensures DIGITS[n] != '/'
  {
  }

  /** Every alternative to a target is a new component in the target's folder, never the trash. */
  lemma CandidateShape(target: Path, folder: bool, i: nat)
    requires Clean(target)
    ensures var c := Candidate(target, folder, i);
      c != [] && Parent(c) == Parent(target) && Clean(c) && BaseOf(c) != TRASH
  {
    if target == [] {
      CandidateAtTop(folder, i);
    } else {
      CandidateInFolder(target, folder, i);
    }
    hide Candidate, Clean;
  }

  lemma CandidateInFolder(target: Path, folder: bool, i: nat)
    requires Clean(target) && target != []
    ensures var c := Candidate(target, folder, i);
      c != [] && Parent(c) == Parent(target) && Clean(c) && BaseOf(c) != TRASH
  {
    hide IsSpace, Itoa, IsComponent, JoinPath, Ext, Clean;
    CleanParent(target);
    var name, dir := BaseOf(target), Parent(target);
    ComponentPlain(name);
    var ext := if folder then "" else Ext(name);
    var base := if folder then name else Stem(name);
    NumberedName(base, i, ext);
    JoinComponent(dir, base + " (" + Itoa(i) + ")" + ext);
    CleanPlus(dir, base + " (" + Itoa(i) + ")" + ext);
  }

  lemma CandidateAtTop(folder: bool, i: nat)
    ensures var c := Candidate([], folder, i);
      c != [] && Parent(c) == [] && Clean(c) && BaseOf(c) != TRASH
  {
    hide IsSpace, Itoa, IsComponent, JoinPath, Clean;
    assert Ext("/") == "" by { assert "/"[..0] == "" && Ext("") == ""; }
    hide Ext;
    NumberedName("", i, "");
    var c := "" + " (" + Itoa(i) + ")" + "";
    assert "/" + " (" + Itoa(i) + ")" + "" == "/" + c;
    assert Stem("/") == "/";
    JoinAfterSlash(c);
    assert Clean([]) by { EmptyClean(); }
    CleanPlus([], c);
    assert [] + [c] == [c];
  }

  lemma EmptyClean()
    ensures Clean([])
  {
  }

  lemma ComponentPlain(name: string)
    requires IsComponent(name)
    ensures Without(name, '/')
  {
  }

  lemma JoinAfterSlash(c: string)
    requires IsComponent(c)
    ensures JoinPath([], "/" + c) == [c]
  {
    hide IsSpace;
    assert ("/" + c)[1..] == c;
    SplitPlain(c, '/');
    assert Split("/" + c, '/') == ["", c];
    assert ["", c][1..] == [c] && [c][1..] == [] && [] + [c] == [c];
    assert Resolve([], ["", c]) == Resolve([], [c]) == Resolve([c], []);
  }

  // ---- Plans -----------------------------------------------------------------------------------

  /** The wanted target: a new name in the target folder, or the folder itself for a bare separator. */
  lemma WantedTarget(req: Request)
    requires Clean(req.parent) && ValidFileName(NameOf(req))
    ensures var wanted := JoinPath(req.parent, NameOf(req));
      && Clean(wanted)
      && (if NameOf(req) == "/" then wanted == req.parent else wanted == req.parent + [NameOf(req)])
  {
    hide IsComponent, NameOf, JoinPath, ValidFileName;
    var name := NameOf(req);
    ValidNames(name);
    if name == "/" {
      JoinSlash(req.parent);
    } else {
      JoinComponent(req.parent, name);
      CleanPlus(req.parent, name);
    }
  }

  /** What a plan has checked about source and target. */
  ghost predicate GoodPlan(t: Tree, root: Path, req: Request, target: Path, over: bool) {
    && req.source in t && root < req.source && !(TrashRoot(root) <= req.source)
    && Clean(target) && !(req.source <= target) && !(TrashRoot(root) <= target)
    && (target in t <==> over)
    && (!over ==> target != [] && IsFolder(t, Parent(target)))
    && (over ==> NormalizePolicy(req.policy) == Some(Overwrite))
  }

  lemma SourceFacts(t: Tree, root: Path, source: Path)
    requires Clean(root) && Clean(source) && CheckSource(t, root, source).None?
    ensures source in t && root < source && !(TrashRoot(root) <= source)
  {
    hide IsPathWithinRoot;
    WithinIsPrefix(root, source);
    TrashRootClean(root);
    WithinIsPrefix(TrashRoot(root), source);
  }

  lemma ParentFacts(t: Tree, root: Path, parent: Path)
    requires Clean(root) && Clean(parent) && CheckParent(t, root, parent).None?
    ensures IsFolder(t, parent) && root <= parent && !(TrashRoot(root) <= parent)
  {
    hide IsPathWithinRoot;
    WithinIsPrefix(root, parent);
    TrashRootClean(root);
    WithinIsPrefix(TrashRoot(root), parent);
  }

  lemma TargetFacts(root: Path, source: Path, target: Path)
    requires Clean(root) && Clean(target) && TargetBaseOk(root, source, target)
    ensures root <= target && source != target && !(TrashRoot(root) <= target)
  {
    hide IsPathWithinRoot;
    WithinIsPrefix(root, target);
    TrashRootClean(root);
    WithinIsPrefix(TrashRoot(root), target);
  }

  lemma FreeNext(t: Tree, wanted: Path, folder: bool)
    requires Clean(wanted) && FirstFree(t, wanted, folder, 1).Some?
    ensures var next := FirstFree(t, wanted, folder, 1).value;
      next !in t && next != [] && Clean(next) && Parent(next) == Parent(wanted) && BaseOf(next) != TRASH
  {
    hide Candidate, FirstFree, IsComponent, Clean;
    FirstFreeIsFree(t, wanted, folder, 1);
    var k :| 1 <= k <= MAX_TRIES && FirstFree(t, wanted, folder, 1).value == Candidate(wanted, folder, k);
    CandidateShape(wanted, folder, k);
  }

  /** A path beside another that is in the root and out of the trash. */
  lemma Beside(root: Path, wanted: Path, next: Path)
    requires root <= wanted && !(TrashRoot(root) <= wanted) && next != [] && next != root
    requires Parent(next) == Parent(wanted) && BaseOf(next) != TRASH
    ensures !(TrashRoot(root) <= next)
    ensures root <= next <==> !(wanted == root && root != [])
  {
    assert next == Parent(next) + [BaseOf(next)];
    assert |next| > |root| + 1 && TrashRoot(root) <= next ==> TrashRoot(root) <= Parent(wanted);
    assert |next| == |root| + 1 && TrashRoot(root) <= next ==> next == TrashRoot(root);
    if wanted != root {
      assert root <= Parent(wanted) <= next;
    } else if root != [] {
      assert |Parent(next)| == |root| - 1;
    }
  }

  /** An alternative name lies beside the wanted target, out of the trash; inside the root unless the
      wanted target is the root. */
  lemma BesideFacts(t: Tree, root: Path, wanted: Path, folder: bool)
    requires WellFormed(t) && IsFolder(t, root) && Clean(wanted) && wanted in t
    requires root <= wanted && !(TrashRoot(root) <= wanted) && FirstFree(t, wanted, folder, 1).Some?
    ensures var next := FirstFree(t, wanted, folder, 1).value;
      && next !in t && next != [] && Clean(next) && IsFolder(t, Parent(next)) && !(TrashRoot(root) <= next)
      && (root <= next <==> !(wanted == root && root != []))
  {
    hide FirstFree, Clean, TrashRoot, BaseOf;
    FreeNext(t, wanted, folder);
    PrefixIsFolder(t, wanted, Parent(wanted));
    hide WellFormed;
    Beside(root, wanted, FirstFree(t, wanted, folder, 1).value);
  }

  lemma PlanIsGood(t: Tree, root: Path, req: Request)
    requires Setting(t, root, req) && Plan(t, root, req).Ok?
    ensures var (target, over) := Plan(t, root, req).value;
      && GoodPlan(t, root, req, target, over)
      && (root <= target <==> !(NamesRoot(root, req) && root != [] && NormalizePolicy(req.policy) == Some(KeepBoth)))
      && (over ==> target == JoinPath(req.parent, NameOf(req)) && (target == root <==> NamesRoot(root, req)))
  {
    hide IsPathWithinRoot, CheckSource, CheckParent, NameOf, ValidFileName, NormalizePolicy, JoinPath,
      ConflictTarget, Plan, Clean, TargetBaseOk, TrashRoot, WellFormed, Parent, NamesRoot;
    PlanParts(t, root, req);
    var (target, over) := Plan(t, root, req).value;
    var wanted := JoinPath(req.parent, NameOf(req));
    var policy := NormalizePolicy(req.policy).value;
    SourceFacts(t, root, req.source);
    ParentFacts(t, root, req.parent);
    WantedTarget(req);
    TargetFacts(root, req.source, wanted);
    WantedInFolder(req, root, wanted);
    ConflictCases(t, root, req.source, wanted, policy, target, over);
    WithinIsPrefix(req.source, target);
  }

  lemma PlanParts(t: Tree, root: Path, req: Request)
    requires Plan(t, root, req).Ok?
    ensures
      var (target, over) := Plan(t, root, req).value;
      var wanted := JoinPath(req.parent, NameOf(req));
      && CheckSource(t, root, req.source).None? && CheckParent(t, root, req.parent).None?
      && ValidFileName(NameOf(req)) && NormalizePolicy(req.policy).Some?
      && ConflictTarget(t, root, req.source, wanted, NormalizePolicy(req.policy).value) == Some((target, over))
      && TargetBaseOk(root, req.source, wanted) && !IsPathWithinRoot(req.source, target)
  {
    hide IsPathWithinRoot, CheckSource, CheckParent, NameOf, ValidFileName, NormalizePolicy, JoinPath, Stat,
      FirstFree, TargetBaseOk;
  }

  lemma WantedInFolder(req: Request, root: Path, wanted: Path)
    requires root <= req.parent && wanted == if NameOf(req) == "/" then req.parent else req.parent + [NameOf(req)]
    ensures wanted == root <==> NamesRoot(root, req)
    ensures wanted != req.parent ==> wanted != [] && Parent(wanted) == req.parent
  {
    hide NameOf;
    if NameOf(req) != "/" { assert |wanted| > |root|; }
  }

  /** The three ways a target is settled. */
  lemma ConflictCases(t: Tree, root: Path, source: Path, wanted: Path, policy: Policy, target: Path, over: bool)
    requires WellFormed(t) && IsFolder(t, root) && Clean(wanted) && root <= wanted && !(TrashRoot(root) <= wanted) && source in t
    requires ConflictTarget(t, root, source, wanted, policy) == Some((target, over))
    ensures Clean(target) && !(TrashRoot(root) <= target) && (target in t <==> over)
    ensures over ==> target == wanted && policy == Overwrite
    ensures !over ==> target == wanted || (target != [] && IsFolder(t, Parent(target)))
    ensures root <= target <==> !(wanted == root && root != [] && policy == KeepBoth)
  {
    hide TargetBaseOk, FirstFree, Clean, TrashRoot, WellFormed;
    if wanted in t {
      if policy == KeepBoth {
        BesideFacts(t, root, wanted, t[source].Folder?);
      }
    } else {
      assert wanted != root;
    }
  }

  // ---- Move and copy ---------------------------------------------------------------------------

  /** Unless it may overwrite, a move either changes nothing or relocates the source one to one to a place
      that was free, keeping the tree well formed; it fails only for its checks or for outside reasons.
      The target is never in the trash, and it is inside the storage unless the request names the root
      itself and asks for another name. */
  lemma MoveRelocates(t: Tree, root: Path, req: Request, works: bool)
    requires Setting(t, root, req) && NormalizePolicy(req.policy) != Some(Overwrite)
    ensures var (t', r) := Moved(t, root, req, works);
      && (r.Ok? <==> works && Plan(t, root, req).Ok?)
      && (r.Err? ==> t' == t)
      && (r.Ok? ==> && r.value !in t && Relocates(t, t', req.source, r.value) && WellFormed(t')
                    && !(TrashRoot(root) <= r.value)
                    && (root <= r.value <==> !(NamesRoot(root, req) && root != [] && NormalizePolicy(req.policy) == Some(KeepBoth))))
  {
    hide Plan, NameOf, NormalizePolicy, Clean, Relocates, WellFormed, Renamed, Relocated, Removed, TrashRoot,
      NamesRoot;
    if Plan(t, root, req).Ok? {
      PlanIsGood(t, root, req);
      FreeMove(t, req.source, Plan(t, root, req).value.0);
    }
  }

  /** An overwriting move that gets past its checks to a target that exists first removes the target. It
      then relocates the source one to one, exactly when the target did not hold the source; a target that
      holds the source takes it along, and nothing is left of either. */
  lemma OverwritingMove(t: Tree, root: Path, req: Request, works: bool)
    requires Setting(t, root, req) && Plan(t, root, req).Ok? && Plan(t, root, req).value.1
    ensures
      var target := Plan(t, root, req).value.0;
      var cleared := Removed(t, target);
      var (t', r) := Moved(t, root, req, works);
      && (r.Ok? <==> works && !(target <= req.source))
      && (r.Ok? ==> r.value == target && Relocates(cleared, t', req.source, target) && WellFormed(t'))
      && (r.Err? ==> t' == cleared && (req.source in t' <==> !(target <= req.source)))
  {
    hide Plan, NameOf, NormalizePolicy, Clean, Relocates, WellFormed, Relocated, TrashRoot, NamesRoot;
    PlanIsGood(t, root, req);
    var target := Plan(t, root, req).value.0;
    if target <= req.source {
      assert req.source !in Removed(t, target);
    } else {
      assert target != [];
      ClearedFacts(t, req.source, target);
      FreeMove(Removed(t, target), req.source, target);
      hide Removed, Renamed;
    }
  }

  lemma ClearedFacts(t: Tree, source: Path, target: Path)
    requires WellFormed(t) && target in t && target != [] && source in t && !(target <= source)
    ensures var cleared := Removed(t, target);
      WellFormed(cleared) && target !in cleared && source in cleared && IsFolder(cleared, Parent(target))
  {
    RemovedWellFormed(t, target);
    assert NodeOk(t, target);
    ParentBelow(target, target);
  }

  /** A copy, whatever its policy, works exactly if its checks pass, the command ends well and the target it
      may have to clear does not hold the source. Everything outside the cleared target stays as it was, the
      source included. What is new lies below the target: all of the source's subtree after a success, after
      a failure some part of it, with folders as folders and files as files. */
  lemma CopyAdds(t: Tree, root: Path, req: Request, end: CopyEnd)
    requires Setting(t, root, req)
    ensures
      var (t', r) := CopiedTo(t, root, req, end);
      var plan := Plan(t, root, req);
      && (plan.Err? ==> r == Err(plan.error) && t' == t)
      && (plan.Ok? ==>
            var (target, over) := plan.value;
            var cleared := if over then Removed(t, target) else t;
            && (r.Ok? <==> end.Whole? && !(over && target <= req.source)) && (r.Ok? ==> r.value == target)
            && (target != [] ==> WellFormed(t')) && (target in t <==> over)
            && (forall p :: p in cleared ==> p in t' && t'[p] == cleared[p])
            && (forall q :: q in t' && q !in cleared ==>
                  && target <= q && Under(target, req.source, q) in cleared
                  && (t'[q].Folder? <==> cleared[Under(target, req.source, q)].Folder?))
            && (r.Ok? ==> forall q :: target <= q && Under(target, req.source, q) in cleared ==>
                  q in t' && q !in cleared && t'[q] == cleared[Under(target, req.source, q)])
            && !(TrashRoot(root) <= target)
            && (root <= target <==> !(NamesRoot(root, req) && root != [] && NormalizePolicy(req.policy) == Some(KeepBoth))))
  {
    hide Plan, NameOf, NormalizePolicy, Placed, Clean, CopyDone, TrashRoot, NamesRoot;
    if Plan(t, root, req).Ok? {
      PlanIsGood(t, root, req);
      var (target, over) := Plan(t, root, req).value;
      if !over {
        CopyDoneFacts(t, req.source, target, end);
      } else if target <= req.source {
        NoSource(Removed(t, target), req.source, target, end);
      } else {
        ClearedFacts(t, req.source, target);
        CopyDoneFacts(Removed(t, target), req.source, target, end);
      }
    }
    hide WellFormed, Removed;
  }

  lemma NoSource(t: Tree, src: Path, dst: Path, end: CopyEnd)
    requires src !in t
    ensures CopyDone(t, src, dst, end) == (t, false)
  {
  }

  /** A rename relocates the source one to one to a free name in its own folder, or changes nothing. */
  lemma RenameRelocates(t: Tree, root: Path, source: Path, newName: string, works: bool)
    requires WellFormed(t) && IsFolder(t, root) && Clean(root) && Clean(source)
    ensures var (t', r) := RenamedTo(t, root, source, newName, works);
      && (r.Err? ==> t' == t)
      && (r.Ok? ==> && r.value == Parent(source) + [TrimSpace(newName)] && r.value !in t
                    && Relocates(t, t', source, r.value) && WellFormed(t')
                    && root <= r.value && !(TrashRoot(root) <= r.value) && !(TrashRoot(root) <= source))
  {
    hide CheckSource, TargetBaseOk, ValidFileName, TrimSpace, JoinPath, Clean, Relocates, Stat, WellFormed,
      Renamed, TrashRoot;
    var (t', r) := RenamedTo(t, root, source, newName, works);
    if r.Ok? {
      SourceFacts(t, root, source);
      var name := TrimSpace(newName);
      RenameTarget(t, root, source, name);
      var target := Parent(source) + [name];
      assert Parent(target) == Parent(source);
      assert source <= target ==> source == target;
      FreeMove(t, source, target);
    }
  }

  lemma RenameTarget(t: Tree, root: Path, source: Path, name: string)
    requires WellFormed(t) && Clean(root) && Clean(source) && source != [] && source in t && ValidFileName(name)
    requires var target := JoinPath(Parent(source), name); TargetBaseOk(root, source, target) && Stat(t, target).NotExist?
    ensures var target := JoinPath(Parent(source), name);
      && target == Parent(source) + [name] && Clean(target) && target !in t && IsFolder(t, Parent(source))
      && root <= target && source != target && !(TrashRoot(root) <= target)
  {
    hide TargetBaseOk, ValidFileName, JoinPath, IsComponent, Clean;
    assert NodeOk(t, source);
    CleanParent(source);
    ValidNames(name);
    if name == "/" {
      JoinSlash(Parent(source));
    } else {
      JoinComponent(Parent(source), name);
      CleanPlus(Parent(source), name);
    }
    TargetFacts(root, source, JoinPath(Parent(source), name));
    hide WellFormed;
  }
}
