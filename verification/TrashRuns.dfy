/** Any sequence of renames, moves, copies and deletes in one storage: what is in the trash stays there. */
module TrashRuns {
  import opened Wrappers
  import opened Text
  import opened FileNames
  import opened FileTree
  import opened FileOps
  import opened FileOpsProofs
  import opened Trash

  datatype State = State(tree: Tree, records: Records)

  datatype Event =
    | Rename(source: Path, name: string, works: bool)
    | Move(req: Request, works: bool)
    | Copy(req: Request, end: CopyEnd)
    | Delete(source: Path, day: Day, id: string, works: bool, inserts: bool)

  function Next(root: Path, s: State, e: Event): State {
    match e
    case Rename(source, name, works) => s.(tree := RenamedTo(s.tree, root, source, name, works).0)
    case Move(req, works) => s.(tree := Moved(s.tree, root, req, works).0)
    case Copy(req, end) => s.(tree := CopiedTo(s.tree, root, req, end).0)
    case Delete(source, day, id, works, inserts) =>
      var (t, records, r) := Deleted(s.tree, s.records, root, source, day, id, works, inserts);
      State(t, records)
  }

  /** The request would overwrite the storage root itself. */
  predicate OverwritesRoot(root: Path, req: Request) {
    NormalizePolicy(req.policy) == Some(Overwrite) && NamesRoot(root, req)
  }

  /** Paths are cleaned, no request overwrites the root, and identifiers in the trash never repeat. */
  predicate Fair(root: Path, s: State, e: Event) {
    match e
    case Rename(source, _, _) => Clean(source)
    case Move(req, _) => Clean(req.source) && Clean(req.parent) && !OverwritesRoot(root, req)
    case Copy(req, _) => Clean(req.source) && Clean(req.parent) && !OverwritesRoot(root, req)
    case Delete(source, day, id, _, _) =>
      && Clean(source) && IsComponent(day.year) && IsComponent(day.month) && IsComponent(day.day)
      && Without(id, '/') && TrashPath(root, day, id, source) !in s.tree
  }

  function RunAll(root: Path, s: State, es: seq<Event>): State {
    if es == [] then s else Next(root, RunAll(root, s, es[..|es| - 1]), es[|es| - 1])
  }

  predicate AllFair(root: Path, s: State, es: seq<Event>) {
    forall i :: 0 <= i < |es| ==> Fair(root, RunAll(root, s, es[..i]), es[i])
  }

  // ---- What every operation keeps --------------------------------------------------------------

  /** The path is the root or lies in the trash. */
  predicate Protected(root: Path, p: Path) {
    p == root || TrashRoot(root) <= p
  }

  /** Root and trash are still there, node by node. */
  ghost predicate Keeps(root: Path, t: Tree, t': Tree) {
    forall p :: p in t && Protected(root, p) ==> p in t' && t'[p] == t[p]
  }

  /** A path in the storage but neither its root nor in its trash is above nothing protected. */
  lemma AboveNothing(root: Path, q: Path, p: Path)
    requires root < q && !(TrashRoot(root) <= q) && Protected(root, p)
    ensures !(q <= p)
  {
    var top := q[..|root| + 1];
    assert top != TrashRoot(root) && top <= q;
    assert TrashRoot(root) <= p && top <= p ==> top == TrashRoot(root);
  }

  lemma RelocationKeeps(t: Tree, root: Path, src: Path, dst: Path)
    requires WellFormed(t) && dst !in t && root < src && !(TrashRoot(root) <= src)
    ensures Keeps(root, t, Relocated(t, src, dst))
  {
    forall p | p in t && Protected(root, p) ensures !(src <= p) && !(dst <= p) {
      AboveNothing(root, src, p);
      NotBelow(t, dst, p);
    }
    hide WellFormed, Protected;
  }

  lemma RemovalKeeps(t: Tree, root: Path, target: Path)
    requires root < target && !(TrashRoot(root) <= target)
    ensures Keeps(root, t, Removed(t, target))
  {
    forall p | p in t && Protected(root, p) ensures !(target <= p) {
      AboveNothing(root, target, p);
    }
    hide Protected;
  }

  /** Clearing the target of a plan that spares the root keeps root and trash, and leaves the target free
      in a folder. */
  lemma ClearingKeeps(t: Tree, root: Path, req: Request)
    requires Setting(t, root, req) && Plan(t, root, req).Ok? && !OverwritesRoot(root, req)
    ensures
      var (target, over) := Plan(t, root, req).value;
      var cleared := Cleared(t, (target, over));
      && Keeps(root, t, cleared) && WellFormed(cleared) && target !in cleared && target != [] && Clean(target)
      && IsFolder(cleared, Parent(target)) && !(req.source <= target)
      && root < req.source && !(TrashRoot(root) <= req.source)
  {
    hide Plan, NameOf, NormalizePolicy, Clean, WellFormed, NamesRoot, Protected, Removed, JoinPath, TrashRoot;
    PlanIsGood(t, root, req);
    var (target, over) := Plan(t, root, req).value;
    if over {
      assert root < target;
      RemovalKeeps(t, root, target);
      RemovedWellFormed(t, target);
      ClearedTarget(t, target);
    }
  }

  lemma ClearedTarget(t: Tree, target: Path)
    requires WellFormed(t) && target in t && target != []
    ensures var cleared := Removed(t, target); target !in cleared && IsFolder(cleared, Parent(target))
  {
    assert NodeOk(t, target);
    ParentBelow(target, target);
  }

  lemma MoveKeeps(t: Tree, root: Path, req: Request, works: bool)
    requires Setting(t, root, req) && !OverwritesRoot(root, req)
    ensures var t' := Moved(t, root, req, works).0; Keeps(root, t, t') && WellFormed(t')
  {
    hide Plan, OverwritesRoot, Clean, WellFormed, Protected, Cleared, Relocates, Relocated, Renamed, TrashRoot;
    if Plan(t, root, req).Ok? {
      ClearingKeeps(t, root, req);
      var plan := Plan(t, root, req).value;
      var cleared := Cleared(t, plan);
      assert plan == (plan.0, plan.1);
      if req.source in cleared {
        FreeMove(cleared, req.source, plan.0);
        RelocationKeeps(cleared, root, req.source, plan.0);
      } else {
        GoneFails(cleared, req.source, plan.0);
      }
    }
  }

  lemma GoneFails(t: Tree, src: Path, dst: Path)
    requires src !in t
    ensures Renamed(t, src, dst).Err?
  {
  }

  lemma CopyRunKeeps(t: Tree, root: Path, req: Request, end: CopyEnd)
    requires Setting(t, root, req) && !OverwritesRoot(root, req)
    ensures var t' := CopiedTo(t, root, req, end).0; Keeps(root, t, t') && WellFormed(t')
  {
    hide Plan, OverwritesRoot, Clean, WellFormed, Protected, Cleared, CopyDone, TrashRoot;
    if Plan(t, root, req).Ok? {
      ClearingKeeps(t, root, req);
      var plan := Plan(t, root, req).value;
      assert plan == (plan.0, plan.1);
      CopyDoneFacts(Cleared(t, plan), req.source, plan.0, end);
    }
  }

  lemma RenameKeeps(t: Tree, root: Path, source: Path, newName: string, works: bool)
    requires WellFormed(t) && IsFolder(t, root) && Clean(root) && Clean(source)
    ensures var t' := RenamedTo(t, root, source, newName, works).0; Keeps(root, t, t') && WellFormed(t')
  {
    hide RenamedTo, CheckSource, Clean, WellFormed, Relocates, Protected, TrashRoot, TrimSpace;
    RenameRelocates(t, root, source, newName, works);
    var (t', r) := RenamedTo(t, root, source, newName, works);
    if r.Ok? {
      RenameChecked(t, root, source, newName, works);
      SourceFacts(t, root, source);
      RelocatesKeeps(t, t', root, source, r.value);
    }
  }

  lemma RenameChecked(t: Tree, root: Path, source: Path, newName: string, works: bool)
    requires RenamedTo(t, root, source, newName, works).1.Ok?
    ensures CheckSource(t, root, source).None?
  {
    hide CheckSource, ValidFileName, TrimSpace, JoinPath, TargetBaseOk, Stat, Renamed;
  }

  lemma RelocatesKeeps(t: Tree, t': Tree, root: Path, src: Path, dst: Path)
    requires Relocates(t, t', src, dst) && root < src && !(TrashRoot(root) <= src)
    ensures Keeps(root, t, t')
  {
    forall p | p in t && Protected(root, p) ensures p in t' && t'[p] == t[p] {
      AboveNothing(root, src, p);
      assert Image(src, dst, p) == p;
    }
  }

  /** Every record leads to something in the trash. */
  ghost predicate RecordsLead(root: Path, s: State) {
    forall o :: o in s.records ==> JoinPath(root, s.records[o]) in s.tree && TrashRoot(root) <= JoinPath(root, s.records[o])
  }

  lemma DeleteKeeps(t: Tree, records: Records, root: Path, source: Path, day: Day, id: string, works: bool, inserts: bool)
    requires TrashSetting(t, root, source, day, id) && TrashPath(root, day, id, source) !in t
    requires RecordsLead(root, State(t, records))
    ensures
      var (t', records', r) := Deleted(t, records, root, source, day, id, works, inserts);
      Keeps(root, t, t') && WellFormed(t') && RecordsLead(root, State(t', records'))
  {
    hide Deleted, Rel, JoinPath, MadeAll, TrashPath, TrashDir, Relocates, WellFormed, Clean, IsComponent,
      Protected, TrashRoot;
    DeleteIsAllOrNothing(t, records, root, source, day, id, works, inserts);
    TrashDirClean(root, day);
    MadeAllFacts(t, TrashDir(root, day));
    var (t', records', r) := Deleted(t, records, root, source, day, id, works, inserts);
    var made := MadeAll(t, TrashDir(root, day)).0;
    if r.Ok? {
      TrashPathShape(root, day, id, source);
      RelocatesKeeps(made, t', root, source, TrashPath(root, day, id, source));
      Arrived(made, t', source, TrashPath(root, day, id, source));
      RecordsKept(root, State(t, records), t', records', Rel(root, source), r.value);
    }
  }

  lemma RecordsKept(root: Path, s: State, t': Tree, records': Records, original: string, recycle: string)
    requires RecordsLead(root, s) && Keeps(root, s.tree, t')
    requires records' == s.records[original := recycle]
    requires JoinPath(root, recycle) in t' && TrashRoot(root) <= JoinPath(root, recycle)
    ensures RecordsLead(root, State(t', records'))
  {
    hide JoinPath, TrashRoot;
    forall o | o in records' ensures JoinPath(root, records'[o]) in t' && TrashRoot(root) <= JoinPath(root, records'[o]) {
      if o != original { assert Protected(root, JoinPath(root, s.records[o])); }
    }
  }

  lemma Arrived(t: Tree, t': Tree, src: Path, dst: Path)
    requires Relocates(t, t', src, dst) && src in t
    ensures dst in t'
  {
    assert Image(src, dst, src) == dst + [] == dst;
  }

  // ---- Runs ------------------------------------------------------------------------------------

  ghost predicate Inv(root: Path, s: State) {
    WellFormed(s.tree) && IsFolder(s.tree, root) && Clean(root) && RecordsLead(root, s)
  }

  lemma StepKeeps(root: Path, s: State, e: Event)
    requires Inv(root, s) && Fair(root, s, e)
    ensures Inv(root, Next(root, s, e)) && Keeps(root, s.tree, Next(root, s, e).tree)
  {
    hide RenamedTo, Moved, CopiedTo, Deleted, OverwritesRoot, Clean, WellFormed, IsComponent, TrashPath,
      JoinPath, TrashRoot;
    match e {
      case Rename(source, name, works) => RenameKeeps(s.tree, root, source, name, works);
      case Move(req, works) => MoveKeeps(s.tree, root, req, works);
      case Copy(req, end) => CopyRunKeeps(s.tree, root, req, end);
      case Delete(source, day, id, works, inserts) =>
        DeleteKeeps(s.tree, s.records, root, source, day, id, works, inserts);
    }
  }

  /** Over any run, every record's path leads to a node in the trash, and whatever was in the trash at the
      start is still there, unchanged. */
  lemma {:induction false} TrashStays(root: Path, s: State, es: seq<Event>)
    requires Inv(root, s) && AllFair(root, s, es)
    ensures var s' := RunAll(root, s, es); Inv(root, s') && Keeps(root, s.tree, s'.tree)
  {
    hide Inv, Next, Fair;
    if es != [] {
      var init, e := es[..|es| - 1], es[|es| - 1];
      assert AllFair(root, s, init) by {
        forall i | 0 <= i < |init| ensures Fair(root, RunAll(root, s, init[..i]), init[i]) {
          assert init[..i] == es[..i] && Fair(root, RunAll(root, s, es[..i]), es[i]);
        }
      }
      TrashStays(root, s, init);
      assert es[..|es| - 1] == init && Fair(root, RunAll(root, s, es[..|es| - 1]), es[|es| - 1]);
      StepKeeps(root, RunAll(root, s, init), e);
    }
  }

  /** Naming the root to overwrite it gets past every check, for any source that may be moved at all. */
  lemma WipePlan(t: Tree, root: Path, req: Request)
    requires Setting(t, root, req) && OverwritesRoot(root, req) && CheckSource(t, root, req.source).None?
    ensures Plan(t, root, req) == Ok((root, true))
  {
    hide IsPathWithinRoot, NormalizePolicy, NameOf, Clean, WellFormed, JoinPath, ValidFileName;
    SourceFacts(t, root, req.source);
    ValidNames("/");
    JoinSlash(root);
    TrashRootClean(root);
    WithinIsPrefix(root, root);
    WithinIsPrefix(TrashRoot(root), root);
    WithinIsPrefix(req.source, root);
    hide CheckSource, TrashRoot;
  }

  /** The exception is real: an overwriting move that names the root removes everything in the storage,
      trash and source included, and then fails. */
  lemma OverwritingRootWipes(t: Tree, root: Path, req: Request, works: bool)
    requires Setting(t, root, req) && OverwritesRoot(root, req) && CheckSource(t, root, req.source).None?
    ensures var (t', r) := Moved(t, root, req, works); r.Err? && forall p :: root <= p ==> p !in t'
  {
    hide Plan, Moved, CheckSource, NormalizePolicy, NameOf, Clean, WellFormed, JoinPath, TrashRoot, NamesRoot;
    SourceFacts(t, root, req.source);
    WipePlan(t, root, req);
    OverwritingMove(t, root, req, works);
    assert root <= req.source;
    var (t', r) := Moved(t, root, req, works);
    assert r.Err? && t' == Removed(t, root);
  }
}
