/** Rename, move and copy inside one storage: the checks, the choice of a target, and the change. */
module FileOps {
  import opened Wrappers
  import opened Text
  import opened FileNames
  import opened FileTree

  const TRASH := ".trash"
  const MAX_TRIES := 10000

  datatype Error =
    | OutOfRange | RootForbidden | InTrash | NotFound | StatFailed
    | ParentOutOfRange | TrashTarget | ParentNotFound | ParentNotFolder
    | InvalidName | InvalidPolicy | InvalidTarget | IntoSelf | OperationFailed

  datatype Policy = Fail | Overwrite | KeepBoth

  /** A move or copy: the source and the target folder as decoded from the request, the wanted name and
      the conflict policy as sent. */
  datatype Request = Request(source: Path, parent: Path, name: string, policy: string)

  function TrashRoot(root: Path): Path {
    root + [TRASH]
  }

  // ---- Checks ----------------------------------------------------------------------------------

  function CheckSource(t: Tree, root: Path, source: Path): Option<Error> {
    if !IsPathWithinRoot(root, source) then Some(OutOfRange)
    else if source == root then Some(RootForbidden)
    else if IsPathWithinRoot(TrashRoot(root), source) then Some(InTrash)
    else
      match Stat(t, source)
      case Found(_) => None
      case NotExist => Some(NotFound)
      case NotDir => Some(StatFailed)
  }

  function CheckParent(t: Tree, root: Path, parent: Path): Option<Error> {
    if !IsPathWithinRoot(root, parent) then Some(ParentOutOfRange)
    else if IsPathWithinRoot(TrashRoot(root), parent) then Some(TrashTarget)
    else
      match Stat(t, parent)
      case Found(node) => if node.Folder? then None else Some(ParentNotFolder)
      case NotExist => Some(ParentNotFound)
      case NotDir => Some(StatFailed)
  }

  predicate TargetBaseOk(root: Path, source: Path, target: Path) {
    IsPathWithinRoot(root, target) && source != target && !IsPathWithinRoot(TrashRoot(root), target)
  }

  function NormalizePolicy(policy: string): Option<Policy> {
    var p := TrimSpace(ToLower(policy));
    if p == "" || p == "error" then Some(Fail)
    else if p == "overwrite" then Some(Overwrite)
    else if p == "rename" then Some(KeepBoth)
    else None
  }

  // ---- Free names ------------------------------------------------------------------------------

  /** The i-th alternative to a target: a number before the extension, or at the end for a folder. */
  function Candidate(target: Path, folder: bool, i: nat): Path {
    var name := BaseOf(target);
    var ext := if folder then "" else Ext(name);
    var base := if folder then name else Stem(name);
    JoinPath(Parent(target), base + " (" + Itoa(i) + ")" + ext)
  }

  function FirstFree(t: Tree, target: Path, folder: bool, i: nat): Option<Path>
    decreases MAX_TRIES + 1 - i
  {
    if i > MAX_TRIES then None
    else
      var candidate := Candidate(target, folder, i);
      match Stat(t, candidate)
      case NotExist => Some(candidate)
      case NotDir => None
      case Found(_) => FirstFree(t, target, folder, i + 1)
  }

  method NextAvailablePath(t: Tree, source: Path, target: Path) returns (r: Option<Path>)
    ensures r == if source in t then FirstFree(t, target, t[source].Folder?, 1) else None
  {
    hide Candidate;
    if source !in t {
      return None;
    }
    for i := 1 to MAX_TRIES + 1
      invariant FirstFree(t, target, t[source].Folder?, 1) == FirstFree(t, target, t[source].Folder?, i)
    {
      var candidate := Candidate(target, t[source].Folder?, i);
      var found := Stat(t, candidate);
      if found.NotExist? {
        return Some(candidate);
      } else if found.NotDir? {
        return None;
      }
    }
    r := None;
  }

  /** Where the operation goes, and whether what is there is removed first. */
  function ConflictTarget(t: Tree, root: Path, source: Path, target: Path, policy: Policy): Option<(Path, bool)> {
    if !TargetBaseOk(root, source, target) then None
    else
      match Stat(t, target)
      case NotExist => Some((target, false))
      case NotDir => None
      case Found(_) =>
        match policy
        case Fail => None
        case Overwrite => Some((target, true))
        case KeepBoth =>
          var next := if source in t then FirstFree(t, target, t[source].Folder?, 1) else None;
          if next.Some? then Some((next.value, false)) else None
  }

  function NameOf(req: Request): string {
    var name := TrimSpace(req.name);
    if name == "" then BaseOf(req.source) else name
  }

  /** All that comes before the file system is touched; the same for move and copy. */
  function Plan(t: Tree, root: Path, req: Request): Result<(Path, bool), Error> {
    var source := CheckSource(t, root, req.source);
    if source.Some? then Err(source.value)
    else
      var parent := CheckParent(t, root, req.parent);
      if parent.Some? then Err(parent.value)
      else if !ValidFileName(NameOf(req)) then Err(InvalidName)
      else
        var policy := NormalizePolicy(req.policy);
        if policy.None? then Err(InvalidPolicy)
        else
          var target := ConflictTarget(t, root, req.source, JoinPath(req.parent, NameOf(req)), policy.value);
          if target.None? then Err(InvalidTarget)
          else if IsPathWithinRoot(req.source, target.value.0) then Err(IntoSelf)
          else Ok(target.value)
  }

  // ---- Effects ---------------------------------------------------------------------------------

  /** After a plan to a target that may have to be cleared first. */
  function Cleared(t: Tree, target: (Path, bool)): Tree {
    if target.1 then Removed(t, target.0) else t
  }

  /** The tree and the answer after a move; `works` is false when the rename fails for a reason outside
      the model. */
  function Moved(t: Tree, root: Path, req: Request, works: bool): (Tree, Result<Path, Error>) {
    match Plan(t, root, req)
    case Err(e) => (t, Err(e))
    case Ok(target) =>
      var cleared := Cleared(t, target);
      var r := Renamed(cleared, req.source, target.0);
      if works && r.Ok? then (r.value, Ok(target.0)) else (cleared, Err(OperationFailed))
  }

  /** The tree and the answer after a copy. A copy into a folder that exists would land inside it. */
  function CopiedTo(t: Tree, root: Path, req: Request, end: CopyEnd): (Tree, Result<Path, Error>) {
    match Plan(t, root, req)
    case Err(e) => (t, Err(e))
    case Ok(target) =>
      var (t', ok) := CopyDone(Cleared(t, target), req.source, target.0, end);
      (t', if ok then Ok(target.0) else Err(OperationFailed))
  }

  function RenamedTo(t: Tree, root: Path, source: Path, newName: string, works: bool): (Tree, Result<Path, Error>) {
    var check := CheckSource(t, root, source);
    var name := TrimSpace(newName);
    if check.Some? then (t, Err(check.value))
    else if !ValidFileName(name) then (t, Err(InvalidName))
    else
      var target := JoinPath(Parent(source), name);
      if !TargetBaseOk(root, source, target) || !Stat(t, target).NotExist? then (t, Err(InvalidTarget))
      else
        var r := Renamed(t, source, target);
        if works && r.Ok? then (r.value, Ok(target)) else (t, Err(OperationFailed))
  }

  /** The handlers of one storage, with the tree they change. */
  class FileHandler {
    const root: Path
    var tree: Tree

    constructor (root: Path, tree: Tree)
      ensures this.root == root && this.tree == tree
    {
      this.root, this.tree := root, tree;
    }

    method RemovePath(target: Path)
      modifies this
      ensures tree == Removed(old(tree), target)
    {
      tree := Removed(tree, target);
    }

    method MovePath(source: Path, target: Path, works: bool) returns (ok: bool)
      modifies this
      ensures ok == (works && Renamed(old(tree), source, target).Ok?)
      ensures tree == if ok then Renamed(old(tree), source, target).value else old(tree)
    {
      hide Relocated, Removed;
      var r := Renamed(tree, source, target);
      ok := works && r.Ok?;
      if ok {
        tree := r.value;
      }
    }

    /** Nothing is cleaned up after a copy that failed. */
    method CopyPath(source: Path, target: Path, end: CopyEnd) returns (ok: bool)
      requires target !in tree
      modifies this
      ensures (tree, ok) == CopyDone(old(tree), source, target, end)
    {
      hide Copied, Leftover;
      if source !in tree || !IsFolder(tree, Parent(target)) {
        return false;
      }
      ok := end.Whole?;
      tree := if ok then Copied(tree, source, target) else tree + Leftover(tree, source, target, end.kept);
    }

    method ResolveConflictTarget(source: Path, target: Path, policy: Policy) returns (r: Option<(Path, bool)>)
      ensures r == ConflictTarget(tree, root, source, target, policy)
    {
      hide IsPathWithinRoot, FirstFree;
      if !TargetBaseOk(root, source, target) {
        return None;
      }
      match Stat(tree, target) {
        case NotExist => return Some((target, false));
        case NotDir => return None;
        case Found(_) =>
      }
      match policy {
        case Fail => return None;
        case Overwrite => return Some((target, true));
        case KeepBoth =>
          var next := NextAvailablePath(tree, source, target);
          r := if next.Some? then Some((next.value, false)) else None;
      }
    }

    /** The checks both handlers run, in their order. */
    method Prepare(req: Request) returns (r: Result<(Path, bool), Error>)
      ensures r == Plan(tree, root, req)
    {
      hide CheckSource, CheckParent, NameOf, ValidFileName, NormalizePolicy, ConflictTarget, IsPathWithinRoot,
        JoinPath;
      var source := CheckSource(tree, root, req.source);
      if source.Some? {
        return Err(source.value);
      }
      var parent := CheckParent(tree, root, req.parent);
      if parent.Some? {
        return Err(parent.value);
      }
      var name := NameOf(req);
      if !ValidFileName(name) {
        return Err(InvalidName);
      }
      var policy := NormalizePolicy(req.policy);
      if policy.None? {
        return Err(InvalidPolicy);
      }
      var target := ResolveConflictTarget(req.source, JoinPath(req.parent, name), policy.value);
      if target.None? {
        return Err(InvalidTarget);
      }
      if IsPathWithinRoot(req.source, target.value.0) {
        return Err(IntoSelf);
      }
      r := Ok(target.value);
    }

    method HandleMove(req: Request, works: bool) returns (r: Result<Path, Error>)
      modifies this
      ensures (tree, r) == Moved(old(tree), root, req, works)
    {
      hide Plan, Renamed, Removed;
      var plan := Prepare(req);
      if plan.Err? {
        return Err(plan.error);
      }
      var (target, overwrite) := plan.value;
      if overwrite {
        RemovePath(target);
      }
      var ok := MovePath(req.source, target, works);
      r := if ok then Ok(target) else Err(OperationFailed);
    }

    method HandleCopy(req: Request, end: CopyEnd) returns (r: Result<Path, Error>)
      modifies this
      ensures (tree, r) == CopiedTo(old(tree), root, req, end)
    {
      hide Renamed, CopyDone;
      var plan := Prepare(req);
      if plan.Err? {
        return Err(plan.error);
      }
      var (target, overwrite) := plan.value;
      PlanTargetIsFree(tree, root, req);
      hide Plan;
      if overwrite {
        RemovePath(target);
      }
      var ok := CopyPath(req.source, target, end);
      r := if ok then Ok(target) else Err(OperationFailed);
    }

    method HandleRename(source: Path, newName: string, works: bool) returns (r: Result<Path, Error>)
      modifies this
      ensures (tree, r) == RenamedTo(old(tree), root, source, newName, works)
    {
      hide CheckSource, ValidFileName, TrimSpace, TargetBaseOk, Renamed, JoinPath;
      var check := CheckSource(tree, root, source);
      if check.Some? {
        return Err(check.value);
      }
      var name := TrimSpace(newName);
      if !ValidFileName(name) {
        return Err(InvalidName);
      }
      var target := JoinPath(Parent(source), name);
      if !TargetBaseOk(root, source, target) || !Stat(tree, target).NotExist? {
        return Err(InvalidTarget);
      }
      var ok := MovePath(source, target, works);
      r := if ok then Ok(target) else Err(OperationFailed);
    }
  }

  lemma {:induction false} FirstFreeIsFree(t: Tree, target: Path, folder: bool, i: nat)
    ensures var r := FirstFree(t, target, folder, i);
      r.Some? ==> r.value !in t && exists k :: i <= k <= MAX_TRIES && r.value == Candidate(target, folder, k)
                                            && forall j :: i <= j < k ==> Candidate(target, folder, j) in t
    decreases MAX_TRIES + 1 - i
  {
    hide Candidate;
    if i <= MAX_TRIES {
      FirstFreeIsFree(t, target, folder, i + 1);
    }
  }

  /** Whatever the policy, the target is free once it has been cleared. */
  lemma PlanTargetIsFree(t: Tree, root: Path, req: Request)
    ensures var plan := Plan(t, root, req); plan.Ok? ==> plan.value.0 !in Cleared(t, plan.value)
  {
    hide CheckSource, CheckParent, NameOf, ValidFileName, NormalizePolicy, IsPathWithinRoot, JoinPath,
      FirstFree, Candidate;
    if req.source in t {
      FirstFreeIsFree(t, JoinPath(req.parent, NameOf(req)), t[req.source].Folder?, 1);
    }
  }
}
