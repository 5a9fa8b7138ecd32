/** The file system as a finite map from paths to nodes, and the operations of the operating system on it. */
module FileTree {
  import opened Wrappers
  import opened FileNames

  datatype Node = File(bytes: seq<bv8>) | Folder

  type Tree = map<Path, Node>

  predicate IsFolder(t: Tree, p: Path) {
    p in t && t[p].Folder?
  }

  /** Every node but the top one lies in a folder. */
  ghost predicate WellFormed(t: Tree) {
    && IsFolder(t, [])
    && (forall p :: p in t ==> NodeOk(t, p))
  }

  predicate NodeOk(t: Tree, p: Path) {
    Clean(p) && (p != [] ==> IsFolder(t, Parent(p)))
  }

  lemma {:induction false} PrefixIsFolder(t: Tree, p: Path, q: Path)
    requires WellFormed(t) && p in t && q <= p
    ensures q in t && (q != p ==> IsFolder(t, q))
    decreases |p|
  {
    if q != p {
      assert NodeOk(t, p);
      assert q <= Parent(p);
      PrefixIsFolder(t, Parent(p), q);
    }
  }

  // ---- Looking ---------------------------------------------------------------------------------

  datatype Lookup = Found(node: Node) | NotExist | NotDir

  predicate FileAbove(t: Tree, p: Path)
    decreases |p|
  {
    p != [] && ((Parent(p) in t && t[Parent(p)].File?) || FileAbove(t, Parent(p)))
  }

  function Stat(t: Tree, p: Path): Lookup {
    if p in t then Found(t[p]) else if FileAbove(t, p) then NotDir else NotExist
  }

  /** In a folder that exists, a name is either there or free. */
  lemma {:induction false} NoFileAbove(t: Tree, p: Path)
    requires WellFormed(t) && IsFolder(t, Parent(p))
    ensures !FileAbove(t, p)
    decreases |p|
  {
    if p != [] {
      var q := Parent(p);
      assert NodeOk(t, q);
      if q != [] {
        NoFileAbove(t, q);
      }
    }
  }

  // ---- Changing --------------------------------------------------------------------------------

  function Removed(t: Tree, top: Path): Tree {
    map p | p in t && !(top <= p) :: t[p]
  }

  /** A path below src, moved to the same place below dst. */
  function Under(src: Path, dst: Path, p: Path): (q: Path)
    requires src <= p
    ensures dst <= q && q[|dst|..] == p[|src|..]
  {
    dst + p[|src|..]
  }

  lemma UnderBack(src: Path, dst: Path, p: Path)
    requires src <= p
    ensures Under(dst, src, Under(src, dst, p)) == p
  {
    assert p == src + p[|src|..];
  }

  /** A copy of the subtree at src, placed at dst. */
  function Placed(t: Tree, src: Path, dst: Path): (r: Tree)
    ensures forall q :: q in r <==> dst <= q && Under(dst, src, q) in t
    ensures forall q :: q in r ==> r[q] == t[Under(dst, src, q)]
  {
    var keys := set p | p in t && src <= p :: Under(src, dst, p);
    assert forall p :: p in t && src <= p ==> Under(dst, src, Under(src, dst, p)) == p by {
      forall p | p in t && src <= p ensures Under(dst, src, Under(src, dst, p)) == p { UnderBack(src, dst, p); }
    }
    assert forall q :: dst <= q ==> Under(src, dst, Under(dst, src, q)) == q by {
      forall q | dst <= q ensures Under(src, dst, Under(dst, src, q)) == q { UnderBack(dst, src, q); }
    }
    assert forall q :: dst <= q && Under(dst, src, q) in t ==> q in keys by {
      forall q | dst <= q && Under(dst, src, q) in t ensures q in keys {
        assert Under(src, dst, Under(dst, src, q)) == q;
      }
    }
    map q | q in keys :: t[Under(dst, src, q)]
  }

  function Relocated(t: Tree, src: Path, dst: Path): Tree {
    Removed(t, src) + Placed(t, src, dst)
  }

  function Copied(t: Tree, src: Path, dst: Path): Tree {
    t + Placed(t, src, dst)
  }

  /** How the copy command ends: with the whole subtree, or stopped on its way, with some of the paths made
      and whatever bytes by then in the files. */
  datatype CopyEnd = Whole | Stopped(kept: map<Path, seq<bv8>>)

  /** The path and all folders above it, from the target of the copy down, were made. */
  predicate Reached(kept: map<Path, seq<bv8>>, dst: Path, q: Path) {
    q in kept && forall n :: |dst| <= n <= |q| ==> q[..n] in kept
  }

  /** The part of a copy a stopped command leaves: folders before what lies in them. */
  function Leftover(t: Tree, src: Path, dst: Path, kept: map<Path, seq<bv8>>): Tree {
    map q | q in Placed(t, src, dst) && Reached(kept, dst, q) :: if Placed(t, src, dst)[q].Folder? then Folder else File(kept[q])
  }

  /** The copy command, to a target that is free. */
  function CopyDone(t: Tree, src: Path, dst: Path, end: CopyEnd): (Tree, bool) {
    if src !in t || !IsFolder(t, Parent(dst)) then (t, false)
    else
      match end
      case Whole => (Copied(t, src, dst), true)
      case Stopped(kept) => (t + Leftover(t, src, dst, kept), false)
  }

  /** What the operating system and the library allow a rename to do; only a file may be replaced. */
  function Renamed(t: Tree, src: Path, dst: Path): Result<Tree, string> {
    if src !in t then Err("no such file")
    else if dst != src && IsFolder(t, dst) then Err("file exists")
    else if dst == src then Ok(t)
    else if src <= dst then Err("invalid argument")
    else if dst == [] || !IsFolder(t, Parent(dst)) then Err("no such directory")
    else if dst in t && t[src].Folder? then Err("not a directory")
    else Ok(Relocated(Removed(t, dst), src, dst))
  }

  /** Makes the missing folders of a path, from the top; stops at a file. */
  function MadeAll(t: Tree, p: Path): (Tree, bool)
    decreases |p|
  {
    if p in t then (t, t[p].Folder?)
    else if p == [] then (t, false)
    else
      var (above, ok) := MadeAll(t, Parent(p));
      if ok then (above[p := Folder], true) else (above, false)
  }

  // ---- Well-formedness -------------------------------------------------------------------------

  lemma ParentBelow(q: Path, p: Path)
    ensures q <= Parent(p) ==> q <= p
    ensures p != [] ==> !(p <= Parent(p))
  {
  }

  lemma RemovedWellFormed(t: Tree, top: Path)
    requires WellFormed(t) && top != []
    ensures WellFormed(Removed(t, top))
  {
    var t' := Removed(t, top);
    forall p | p in t' ensures NodeOk(t', p) {
      assert NodeOk(t, p);
      ParentBelow(top, p);
    }
  }

  lemma PlacedWellFormed(t: Tree, base: Tree, src: Path, dst: Path)
    requires WellFormed(t) && WellFormed(base) && dst != [] && Clean(dst) && IsFolder(base, Parent(dst)) && dst !in base
    ensures WellFormed(base + Placed(t, src, dst))
  {
    var placed := Placed(t, src, dst);
    var t' := base + placed;
    forall p | p in t' ensures NodeOk(t', p) {
      if p in placed {
        PlacedNodeOk(t, base, src, dst, p);
      } else {
        assert NodeOk(base, p);
        if p != [] && Parent(p) in placed {
          PrefixIsFolder(base, p, dst);
        }
      }
    }
  }

  lemma PlacedNodeOk(t: Tree, base: Tree, src: Path, dst: Path, p: Path)
    requires WellFormed(t) && WellFormed(base) && dst != [] && Clean(dst) && IsFolder(base, Parent(dst))
    requires p in Placed(t, src, dst)
    ensures NodeOk(base + Placed(t, src, dst), p)
  {
    assert NodeOk(t, Under(dst, src, p));
    PlacedClean(src, dst, p);
    hide Clean, WellFormed, Placed;
    if p == dst {
      assert Parent(dst) !in Placed(t, src, dst) by { ParentBelow(dst, dst); }
    } else {
      PlacedParent(src, dst, p);
      assert IsFolder(Placed(t, src, dst), Parent(p));
    }
  }

  lemma PlacedParent(src: Path, dst: Path, p: Path)
    requires dst <= p && p != dst
    ensures dst <= Parent(p) && Under(dst, src, p) != [] && Under(dst, src, Parent(p)) == Parent(Under(dst, src, p))
  {
    assert |Under(dst, src, p)| > |src|;
  }

  lemma PlacedClean(src: Path, dst: Path, p: Path)
    requires dst <= p && Clean(dst) && Clean(Under(dst, src, p))
    ensures Clean(p)
  {
    var q := Under(dst, src, p);
    hide IsComponent;
    forall i | 0 <= i < |p| ensures IsComponent(p[i]) {
      if i < |dst| { assert p[i] == dst[i]; } else { assert p[i] == q[|src| + (i - |dst|)]; }
    }
  }

  lemma RelocatedWellFormed(t: Tree, src: Path, dst: Path)
    requires WellFormed(t) && src != [] && src in t && dst !in t && !(src <= dst) && Clean(dst) && IsFolder(t, Parent(dst))
    ensures WellFormed(Relocated(t, src, dst))
  {
    hide Placed, Clean;
    var base := Removed(t, src);
    RemovedWellFormed(t, src);
    assert dst != [];
    ParentBelow(src, dst);
    assert IsFolder(base, Parent(dst));
    PlacedWellFormed(t, base, src, dst);
  }

  lemma CopiedWellFormed(t: Tree, src: Path, dst: Path)
    requires WellFormed(t) && dst !in t && Clean(dst) && IsFolder(t, Parent(dst))
    ensures WellFormed(Copied(t, src, dst))
  {
    hide Placed;
    PlacedWellFormed(t, t, src, dst);
  }

  lemma LeftoverWellFormed(t: Tree, src: Path, dst: Path, kept: map<Path, seq<bv8>>)
    requires WellFormed(t) && dst !in t && dst != [] && Clean(dst) && IsFolder(t, Parent(dst))
    ensures WellFormed(t + Leftover(t, src, dst, kept))
  {
    var t' := t + Leftover(t, src, dst, kept);
    forall p | p in t' ensures NodeOk(t', p) {
      if p in Leftover(t, src, dst, kept) {
        LeftoverNodeOk(t, src, dst, kept, p);
      } else {
        OldNodeOk(t, src, dst, kept, p);
      }
    }
    LeftoverAbove(t, src, dst, kept, []);
    hide Leftover, NodeOk;
  }

  lemma LeftoverNodeOk(t: Tree, src: Path, dst: Path, kept: map<Path, seq<bv8>>, p: Path)
    requires WellFormed(t) && dst !in t && dst != [] && Clean(dst) && IsFolder(t, Parent(dst)) && p in Leftover(t, src, dst, kept)
    ensures NodeOk(t + Leftover(t, src, dst, kept), p)
  {
    hide Placed, Reached, WellFormed;
    PlacedNodeOk(t, t, src, dst, p);
    if p == dst {
      LeftoverAbove(t, src, dst, kept, Parent(dst));
      ParentBelow(dst, dst);
    } else {
      ReachedParent(t, src, dst, kept, p);
    }
  }

  lemma OldNodeOk(t: Tree, src: Path, dst: Path, kept: map<Path, seq<bv8>>, p: Path)
    requires WellFormed(t) && dst !in t && p in t
    ensures NodeOk(t + Leftover(t, src, dst, kept), p)
  {
    assert NodeOk(t, p);
    NotBelow(t, dst, p);
    ParentBelow(dst, p);
    LeftoverAbove(t, src, dst, kept, Parent(p));
    hide Leftover;
  }

  lemma LeftoverAbove(t: Tree, src: Path, dst: Path, kept: map<Path, seq<bv8>>, p: Path)
    ensures p in Leftover(t, src, dst, kept) ==> dst <= p
  {
    hide Reached;
  }

  lemma ReachedParent(t: Tree, src: Path, dst: Path, kept: map<Path, seq<bv8>>, p: Path)
    requires WellFormed(t) && dst !in t && p in Leftover(t, src, dst, kept) && p != dst && NodeOk(t + Placed(t, src, dst), p)
    ensures Parent(p) in Leftover(t, src, dst, kept) && Leftover(t, src, dst, kept)[Parent(p)].Folder?
  {
    hide Placed, WellFormed, Clean, Reached;
    var up := Parent(p);
    assert dst <= up;
    if up in t { NotBelow(t, dst, up); }
    ReachedAbove(kept, dst, p);
  }

  lemma ReachedAbove(kept: map<Path, seq<bv8>>, dst: Path, p: Path)
    requires Reached(kept, dst, p) && dst <= Parent(p) && p != []
    ensures Reached(kept, dst, Parent(p))
  {
    var up := Parent(p);
    forall n | |dst| <= n <= |up| ensures up[..n] in kept { assert up[..n] == p[..n]; }
    assert up[..|up|] == up;
  }

  /** Whichever way it ends, a copy to a free place leaves all that was there before, and what is new lies
      where the whole copy would have put it, folders as folders and files as files. */
  lemma CopyDoneFacts(t: Tree, src: Path, dst: Path, end: CopyEnd)
    requires WellFormed(t) && dst !in t && dst != [] && Clean(dst)
    ensures
      var (t', ok) := CopyDone(t, src, dst, end);
      && WellFormed(t')
      && (forall p :: p in t ==> p in t' && t'[p] == t[p])
      && (forall q :: q in t' && q !in t ==>
            dst <= q && Under(dst, src, q) in t && (t'[q].Folder? <==> t[Under(dst, src, q)].Folder?))
      && (ok ==> forall q :: dst <= q && Under(dst, src, q) in t ==> q in t' && q !in t && t'[q] == t[Under(dst, src, q)])
      && (ok <==> end.Whole? && src in t && IsFolder(t, Parent(dst)))
  {
    if src in t && IsFolder(t, Parent(dst)) {
      forall p | p in t ensures !(dst <= p) { NotBelow(t, dst, p); }
      match end
      case Whole => CopiedWellFormed(t, src, dst);
      case Stopped(kept) => LeftoverWellFormed(t, src, dst, kept);
    }
    hide WellFormed, Clean, Reached;
  }

  /** Making folders adds folders on the way to the path and changes nothing else. */
  lemma {:induction false} MadeAllFacts(t: Tree, p: Path)
    requires WellFormed(t) && Clean(p)
    ensures
      var (t', ok) := MadeAll(t, p);
      && WellFormed(t') && (ok ==> IsFolder(t', p))
      && (forall q :: q in t ==> q in t' && t'[q] == t[q])
      && (forall q :: q in t' && q !in t ==> q <= p && t'[q] == Folder)
    decreases |p|
  {
    if p !in t {
      MadeAllFacts(t, Parent(p));
      var (above, ok) := MadeAll(t, Parent(p));
      if ok {
        var t' := above[p := Folder];
        ParentBelow(p, p);
        assert p !in above;
        forall q | q in t' ensures NodeOk(t', q) {
          if q in above { assert NodeOk(above, q); }
        }
      }
    }
  }

  // ---- Relocation ------------------------------------------------------------------------------

  function Image(src: Path, dst: Path, p: Path): Path {
    if src <= p then Under(src, dst, p) else p
  }

  /** The new tree is the old one with the paths below src renamed: every node is kept, none is added and
      no two fall together. */
  ghost predicate Relocates(t: Tree, t': Tree, src: Path, dst: Path) {
    && (forall p :: p in t ==> Image(src, dst, p) in t' && t'[Image(src, dst, p)] == t[p])
    && (forall q :: q in t' ==> exists p :: p in t && Image(src, dst, p) == q)
    && (forall p, q :: p in t && q in t && Image(src, dst, p) == Image(src, dst, q) ==> p == q)
  }

  /** Relocating to a free place is a bijection on nodes. */
  lemma RelocationIsBijection(t: Tree, src: Path, dst: Path)
    requires WellFormed(t) && dst !in t
    ensures Relocates(t, Relocated(t, src, dst), src, dst)
  {
    var t' := Relocated(t, src, dst);
    forall p | p in t ensures Image(src, dst, p) in t' && t'[Image(src, dst, p)] == t[p] {
      if src <= p { UnderBack(src, dst, p); } else { NotBelow(t, dst, p); }
    }
    forall q | q in t' ensures exists p :: p in t && Image(src, dst, p) == q {
      if dst <= q && Under(dst, src, q) in t {
        UnderBack(dst, src, q);
        assert Image(src, dst, Under(dst, src, q)) == q;
      } else {
        assert Image(src, dst, q) == q;
      }
    }
    forall p, q | p in t && q in t && Image(src, dst, p) == Image(src, dst, q) ensures p == q {
      if src <= p { UnderBack(src, dst, p); } else { NotBelow(t, dst, p); }
      if src <= q { UnderBack(src, dst, q); } else { NotBelow(t, dst, q); }
    }
  }

  /** Nothing lies below a free place. */
  lemma NotBelow(t: Tree, dst: Path, p: Path)
    requires WellFormed(t) && dst !in t && p in t
    ensures !(dst <= p)
  {
    if dst <= p { PrefixIsFolder(t, p, dst); }
  }

  /** Moving to a free place and back changes nothing. */
  lemma RelocateBack(t: Tree, src: Path, dst: Path)
    requires WellFormed(t) && dst !in t && !(src <= dst)
    ensures Relocated(Relocated(t, src, dst), dst, src) == t
  {
    hide Relocated, WellFormed;
    var t2 := Relocated(Relocated(t, src, dst), dst, src);
    forall p ensures p in t <==> p in t2 {
      BackAndForth(t, src, dst, p);
    }
    forall p | p in t ensures t2[p] == t[p] {
      BackAndForth(t, src, dst, p);
    }
  }

  lemma BackAndForth(t: Tree, src: Path, dst: Path, p: Path)
    requires WellFormed(t) && dst !in t && !(src <= dst)
    ensures
      var t2 := Relocated(Relocated(t, src, dst), dst, src);
      (p in t <==> p in t2) && (p in t ==> t2[p] == t[p])
  {
    var t1 := Relocated(t, src, dst);
    if p in t { NotBelow(t, dst, p); }
    if src <= p {
      UnderBack(src, dst, p);
      assert p in Placed(t1, dst, src) <==> Under(src, dst, p) in t1;
      assert Under(src, dst, p) in t1 <==> p in t by {
        if Under(src, dst, p) in t { NotBelow(t, dst, Under(src, dst, p)); }
      }
    }
    hide WellFormed;
  }

  lemma RemovedNothing(t: Tree, target: Path)
    requires WellFormed(t) && target !in t
    ensures Removed(t, target) == t
  {
    forall p | p in t ensures p in Removed(t, target) {
      NotBelow(t, target, p);
    }
  }

  /** A rename to a free place in a folder works and relocates. */
  lemma FreeMove(t: Tree, src: Path, dst: Path)
    requires WellFormed(t) && src in t && src != [] && dst !in t && !(src <= dst) && Clean(dst) && IsFolder(t, Parent(dst))
    ensures Renamed(t, src, dst) == Ok(Relocated(t, src, dst))
    ensures Relocates(t, Relocated(t, src, dst), src, dst) && WellFormed(Relocated(t, src, dst))
  {
    hide Clean, Relocates, Relocated, Removed;
    RemovedNothing(t, dst);
    RelocationIsBijection(t, src, dst);
    RelocatedWellFormed(t, src, dst);
    assert IsFolder(t, []);
    hide WellFormed;
  }

  lemma RelocatedEnds(t: Tree, src: Path, dst: Path)
    requires WellFormed(t) && src in t && src != [] && !(src <= dst) && !(dst <= src)
    ensures var t' := Relocated(t, src, dst); dst in t' && src !in t' && IsFolder(t', Parent(src))
  {
    hide Clean;
    assert NodeOk(t, src);
    var up := Parent(src);
    ParentBelow(src, src);
    ParentBelow(dst, src);
    assert IsFolder(t, up) && !(src <= up) && !(dst <= up);
    assert Under(dst, src, dst) == src;
    hide WellFormed, NodeOk, Parent;
  }

  /** After such a rename, the rename back works and restores the tree. */
  lemma FreeMoveBack(t: Tree, src: Path, dst: Path)
    requires WellFormed(t) && src in t && src != [] && dst !in t && !(src <= dst) && !(dst <= src) && Clean(dst) && IsFolder(t, Parent(dst))
    ensures Renamed(Relocated(t, src, dst), dst, src) == Ok(t)
  {
    hide Clean, Relocates, Relocated, WellFormed, Removed, Parent;
    FreeMove(t, src, dst);
    RelocatedEnds(t, src, dst);
    RemovedNothing(Relocated(t, src, dst), src);
    RelocateBack(t, src, dst);
  }
}
