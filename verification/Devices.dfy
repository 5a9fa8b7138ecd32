/** Preparing block devices for a storage pool: what is unmounted, stopped and wiped, and in which order. */
module Devices {
  import opened Wrappers
  import opened Text

  datatype Device = Device(name: string, path: string, kind: string, mountpoint: Option<string>,
                           mountpoints: seq<string>, children: seq<Device>)

  // ---- Mountpoints of a device tree ------------------------------------------------------------

  predicate IsSystemMountpoint(m: string) {
    m == "/" || m == "/boot" || m == "/boot/efi"
  }

  /** The mountpoints that are not blank, trimmed. */
  function Trimmed(raw: seq<string>): seq<string> {
    if raw == [] then []
    else (if TrimSpace(raw[0]) == "" then [] else [TrimSpace(raw[0])]) + Trimmed(raw[1..])
  }

  function DeviceMountpoints(d: Device): seq<string> {
    Trimmed(if d.mountpoint.Some? then [d.mountpoint.value] + d.mountpoints else d.mountpoints)
  }

  /** All mountpoints of a device and of everything below it, in the order of the walk. */
  function AllMounts(d: Device): seq<string> {
    DeviceMountpoints(d) + AllMountsOf(d.children)
  }

  function AllMountsOf(ds: seq<Device>): seq<string> {
    if ds == [] then [] else AllMounts(ds[0]) + AllMountsOf(ds[1..])
  }

  predicate HasSystemMount(d: Device) {
    || (d.mountpoint.Some? && IsSystemMountpoint(TrimSpace(d.mountpoint.value)))
    || exists i :: 0 <= i < |d.mountpoints| && IsSystemMountpoint(TrimSpace(d.mountpoints[i]))
  }

  predicate IsSystemDisk(d: Device) {
    HasSystemMount(d) || AnySystemDisk(d.children)
  }

  predicate AnySystemDisk(ds: seq<Device>) {
    ds != [] && (IsSystemDisk(ds[0]) || AnySystemDisk(ds[1..]))
  }

  predicate AnySystem(ms: seq<string>) {
    exists i :: 0 <= i < |ms| && IsSystemMountpoint(ms[i])
  }

  lemma AnySystemConcat(a: seq<string>, b: seq<string>)
    ensures AnySystem(a + b) <==> AnySystem(a) || AnySystem(b)
  {
    hide IsSystemMountpoint;
    if AnySystem(a) {
      var i :| 0 <= i < |a| && IsSystemMountpoint(a[i]);
      assert (a + b)[i] == a[i];
    }
    if AnySystem(b) {
      var i :| 0 <= i < |b| && IsSystemMountpoint(b[i]);
      assert (a + b)[|a| + i] == b[i];
    }
  }

  lemma {:induction false} TrimmedSystem(raw: seq<string>)
    ensures AnySystem(Trimmed(raw)) <==> exists i :: 0 <= i < |raw| && IsSystemMountpoint(TrimSpace(raw[i]))
  {
    hide TrimSpace;
    if raw != [] {
      TrimmedSystem(raw[1..]);
      var first := if TrimSpace(raw[0]) == "" then [] else [TrimSpace(raw[0])];
      AnySystemConcat(first, Trimmed(raw[1..]));
      assert AnySystem(first) <==> IsSystemMountpoint(TrimSpace(raw[0])) by {
        if first != [] { assert first[0] == TrimSpace(raw[0]); }
      }
      if exists i :: 0 <= i < |raw| && IsSystemMountpoint(TrimSpace(raw[i])) {
        var i :| 0 <= i < |raw| && IsSystemMountpoint(TrimSpace(raw[i]));
        if i > 0 { assert raw[i] == raw[1..][i - 1]; }
      }
      if exists i :: 0 <= i < |raw[1..]| && IsSystemMountpoint(TrimSpace(raw[1..][i])) {
        var i :| 0 <= i < |raw[1..]| && IsSystemMountpoint(TrimSpace(raw[1..][i]));
        assert raw[i + 1] == raw[1..][i];
      }
    }
  }

  /** A device is judged a system disk exactly when some mountpoint in its tree is a system mountpoint. */
  lemma {:induction false} SystemDiskIff(d: Device)
    ensures IsSystemDisk(d) <==> AnySystem(AllMounts(d))
    decreases d
  {
    hide IsSystemMountpoint, TrimSpace;
    DeviceSystemIff(d);
    AnySystemDiskIff(d.children);
    AnySystemConcat(DeviceMountpoints(d), AllMountsOf(d.children));
    hide HasSystemMount, DeviceMountpoints, AnySystem;
  }

  lemma DeviceSystemIff(d: Device)
    ensures HasSystemMount(d) <==> AnySystem(DeviceMountpoints(d))
  {
    hide IsSystemMountpoint, TrimSpace, Trimmed, AnySystem;
    if d.mountpoint.Some? {
      var raw := [d.mountpoint.value] + d.mountpoints;
      TrimmedSystem(raw);
      if exists i :: 0 <= i < |raw| && IsSystemMountpoint(TrimSpace(raw[i])) {
        var i :| 0 <= i < |raw| && IsSystemMountpoint(TrimSpace(raw[i]));
        if i > 0 { assert raw[i] == d.mountpoints[i - 1]; }
      }
      if HasSystemMount(d) {
        if IsSystemMountpoint(TrimSpace(d.mountpoint.value)) {
          assert raw[0] == d.mountpoint.value;
        } else {
          var i :| 0 <= i < |d.mountpoints| && IsSystemMountpoint(TrimSpace(d.mountpoints[i]));
          assert raw[i + 1] == d.mountpoints[i];
        }
      }
    } else {
      TrimmedSystem(d.mountpoints);
    }
  }

  lemma {:induction false} AnySystemDiskIff(ds: seq<Device>)
    ensures AnySystemDisk(ds) <==> AnySystem(AllMountsOf(ds))
    decreases ds
  {
    hide IsSystemMountpoint;
    if ds != [] {
      SystemDiskIff(ds[0]);
      AnySystemDiskIff(ds[1..]);
      AnySystemConcat(AllMounts(ds[0]), AllMountsOf(ds[1..]));
    }
  }

  // ---- Collecting without repeats --------------------------------------------------------------

  /** The entries of a list not seen before, each where it first occurs. */
  function Fresh(seen: set<string>, ms: seq<string>): seq<string>
    decreases |ms|
  {
    if ms == [] then []
    else if ms[0] in seen then Fresh(seen, ms[1..])
    else [ms[0]] + Fresh(seen + {ms[0]}, ms[1..])
  }

  function NonSystem(ms: seq<string>): seq<string> {
    if ms == [] then []
    else (if IsSystemMountpoint(ms[0]) then [] else [ms[0]]) + NonSystem(ms[1..])
  }

  function Set(ms: seq<string>): set<string> {
    set m | m in ms
  }

  predicate NoRepeats(ms: seq<string>) {
    forall i, j :: 0 <= i < j < |ms| ==> ms[i] != ms[j]
  }

  lemma {:induction false} FreshConcat(seen: set<string>, a: seq<string>, b: seq<string>)
    ensures Fresh(seen, a + b) == Fresh(seen, a) + Fresh(seen + Set(a), b)
    decreases |a|
  {
    if a == [] {
      assert a + b == b && seen + Set(a) == seen;
    } else {
      var m, t := a[0], a[1..];
      assert (a + b)[1..] == t + b;
      assert Set(a) == {m} + Set(t);
      if m in seen {
        FreshConcat(seen, t, b);
        assert seen + Set(a) == seen + Set(t);
      } else {
        FreshConcat(seen + {m}, t, b);
        assert seen + Set(a) == seen + {m} + Set(t);
      }
    }
  }

  lemma SetConcat(a: seq<string>, b: seq<string>)
    ensures Set(a + b) == Set(a) + Set(b)
  {
  }

  lemma {:induction false} FreshIsSet(seen: set<string>, ms: seq<string>)
    ensures Set(Fresh(seen, ms)) == Set(ms) - seen
    ensures NoRepeats(Fresh(seen, ms))
    decreases |ms|
  {
    if ms != [] {
      var m, t := ms[0], ms[1..];
      assert Set(ms) == {m} + Set(t);
      if m in seen {
        FreshIsSet(seen, t);
      } else {
        FreshIsSet(seen + {m}, t);
        var r := Fresh(seen + {m}, t);
        SetConcat([m], r);
        assert m !in Set(r);
      }
    }
  }

  lemma Regroup(a: seq<string>, b: seq<string>, c: seq<string>)
    ensures (a + b) + c == a + (b + c)
  {
  }

  lemma NonSystemOne(m: string, t: seq<string>)
    ensures NonSystem([m] + t) == (if IsSystemMountpoint(m) then [] else [m]) + NonSystem(t)
  {
    hide IsSystemMountpoint;
    assert ([m] + t)[1..] == t;
  }

  lemma {:induction false} NonSystemConcat(a: seq<string>, b: seq<string>)
    ensures NonSystem(a + b) == NonSystem(a) + NonSystem(b)
  {
    hide IsSystemMountpoint;
    if a == [] {
      assert a + b == b;
    } else {
      var m, t := a[0], a[1..];
      NonSystemConcat(t, b);
      NonSystemOne(m, t);
      NonSystemOne(m, t + b);
      Regroup([m], t, b);
      Regroup(if IsSystemMountpoint(m) then [] else [m], NonSystem(t), NonSystem(b));
      assert a == [m] + t;
      hide NonSystem;
    }
  }

  lemma {:induction false} NonSystemSet(ms: seq<string>)
    ensures forall m :: m in NonSystem(ms) <==> m in ms && !IsSystemMountpoint(m)
  {
    hide IsSystemMountpoint;
    if ms != [] {
      NonSystemSet(ms[1..]);
    }
  }

  lemma VisitBoth(seen: set<string>, result: seq<string>, a: seq<string>, b: seq<string>)
    ensures
      var s := seen + Set(NonSystem(a));
      && s + Set(NonSystem(b)) == seen + Set(NonSystem(a + b))
      && result + Fresh(seen, NonSystem(a)) + Fresh(s, NonSystem(b)) == result + Fresh(seen, NonSystem(a + b))
  {
    hide NonSystem, Fresh;
    NonSystemConcat(a, b);
    FreshConcat(seen, NonSystem(a), NonSystem(b));
    SetConcat(NonSystem(a), NonSystem(b));
    hide Set;
  }

  lemma VisitNone(seen: set<string>, result: seq<string>)
    ensures seen + Set(NonSystem([])) == seen && result + Fresh(seen, NonSystem([])) == result
  {
  }

  /** The closure that walks a tree, with the variables it captures. */
  class MountCollector {
    var seen: set<string>
    var result: seq<string>

    constructor ()
      ensures seen == {} && result == []
    {
      seen, result := {}, [];
    }

    method Walk(node: Device)
      modifies this
      ensures seen == old(seen) + Set(NonSystem(AllMounts(node)))
      ensures result == old(result) + Fresh(old(seen), NonSystem(AllMounts(node)))
      decreases node, 1
    {
      hide Fresh, Set, NonSystem, DeviceMountpoints;
      ghost var s0, r0 := seen, result;
      var points := DeviceMountpoints(node);
      Visit(points);
      WalkAll(node.children);
      VisitBoth(s0, r0, points, AllMountsOf(node.children));
    }

    method WalkAll(nodes: seq<Device>)
      modifies this
      ensures seen == old(seen) + Set(NonSystem(AllMountsOf(nodes)))
      ensures result == old(result) + Fresh(old(seen), NonSystem(AllMountsOf(nodes)))
      decreases nodes, 0
    {
      ghost var s0, r0 := seen, result;
      VisitNone(s0, r0);
      hide Fresh, Set, NonSystem, AllMounts;
      if nodes != [] {
        Walk(nodes[0]);
        WalkAll(nodes[1..]);
        VisitBoth(s0, r0, AllMounts(nodes[0]), AllMountsOf(nodes[1..]));
      }
    }

    method Visit(points: seq<string>)
      modifies this
      ensures seen == old(seen) + Set(NonSystem(points))
      ensures result == old(result) + Fresh(old(seen), NonSystem(points))
    {
      hide IsSystemMountpoint;
      for i := 0 to |points|
        invariant seen == old(seen) + Set(NonSystem(points[..i]))
        invariant result == old(result) + Fresh(old(seen), NonSystem(points[..i]))
      {
        var m := points[i];
        assert points[..i + 1] == points[..i] + [m];
        NonSystemConcat(points[..i], [m]);
        FreshConcat(old(seen), NonSystem(points[..i]), NonSystem([m]));
        SetConcat(NonSystem(points[..i]), NonSystem([m]));
        if IsSystemMountpoint(m) {
          continue;
        }
        if m in seen {
          continue;
        }
        seen := seen + {m};
        result := result + [m];
      }
      assert points[..|points|] == points;
    }
  }

  // ---- Descending order ------------------------------------------------------------------------

  /** Lexicographic order on code points, which is the order of their UTF-8 bytes. */
  predicate Less(a: string, b: string) {
    b != "" && (a == "" || a[0] < b[0] || (a[0] == b[0] && Less(a[1..], b[1..])))
  }

  lemma {:induction false} LessTotal(a: string, b: string)
    ensures a == b || Less(a, b) || Less(b, a)
    ensures Less(a, b) ==> !Less(b, a)
  {
    if a != "" && b != "" && a[0] == b[0] {
      LessTotal(a[1..], b[1..]);
      assert a == [a[0]] + a[1..] && b == [b[0]] + b[1..];
    }
  }

  lemma {:induction false} LessTransitive(a: string, b: string, c: string)
    requires Less(a, b) && Less(b, c)
    ensures Less(a, c)
  {
    if a != "" && a[0] == b[0] && b[0] == c[0] {
      LessTransitive(a[1..], b[1..], c[1..]);
    }
  }

  lemma {:induction false} PrefixLess(a: string, b: string)
    requires a < b
    ensures Less(a, b)
  {
    if a != "" {
      assert a[1..] < b[1..];
      PrefixLess(a[1..], b[1..]);
    }
  }

  predicate Descending(ms: seq<string>) {
    forall i, j :: 0 <= i < j < |ms| ==> Less(ms[j], ms[i])
  }

  function Insert(m: string, ms: seq<string>): seq<string> {
    if ms == [] then [m]
    else if Less(ms[0], m) then [m] + ms
    else [ms[0]] + Insert(m, ms[1..])
  }

  /** The library's sort, with the comparison the program passes. */
  function SortDescending(ms: seq<string>): seq<string> {
    if ms == [] then [] else Insert(ms[0], SortDescending(ms[1..]))
  }

  lemma {:induction false} InsertSorted(m: string, ms: seq<string>)
    requires Descending(ms) && m !in ms
    ensures Descending(Insert(m, ms)) && Set(Insert(m, ms)) == Set(ms) + {m}
  {
    if ms == [] {
    } else {
      var x, t := ms[0], ms[1..];
      assert ms == [x] + t;
      SetConcat([x], t);
      if Less(x, m) {
        forall y | y in ms ensures Less(y, m) {
          if y != x { assert Less(y, x); LessTransitive(y, x, m); }
        }
        SetConcat([m], ms);
        hide Less;
      } else {
        LessTotal(x, m);
        InsertSorted(m, t);
        var r := Insert(m, t);
        SetConcat([x], r);
        hide Less;
        forall y | y in r ensures Less(y, x) {
          assert y in Set(r);
        }
      }
    }
  }

  lemma {:induction false} SortFacts(ms: seq<string>)
    requires NoRepeats(ms)
    ensures Descending(SortDescending(ms)) && Set(SortDescending(ms)) == Set(ms)
  {
    if ms != [] {
      var m, t := ms[0], ms[1..];
      SortFacts(t);
      assert m !in Set(t);
      InsertSorted(m, SortDescending(t));
      SetConcat([m], t);
      assert ms == [m] + t;
    }
  }

  // ---- What is unmounted -----------------------------------------------------------------------

  function UnmountList(d: Device): seq<string> {
    SortDescending(Fresh({}, NonSystem(AllMounts(d))))
  }

  method CollectNonSystemMountpoints(d: Device) returns (result: seq<string>)
    ensures result == UnmountList(d)
  {
    var walk := new MountCollector();
    walk.Walk(d);
    result := SortDescending(walk.result);
    assert [] + Fresh({}, NonSystem(AllMounts(d))) == Fresh({}, NonSystem(AllMounts(d)));
  }

  /** The unmount list of any device holds each mountpoint of its tree that is no system mountpoint, once,
      and puts what is mounted inside a mountpoint before it. */
  lemma UnmountListIsExact(d: Device)
    ensures forall m :: m in UnmountList(d) <==> m in AllMounts(d) && !IsSystemMountpoint(m)
    ensures NoRepeats(UnmountList(d))
    ensures forall i, j :: 0 <= i < |UnmountList(d)| && 0 <= j < |UnmountList(d)| && UnmountList(d)[j] < UnmountList(d)[i] ==> i < j
  {
    hide IsSystemMountpoint, AllMounts, NonSystem, Fresh, SortDescending;
    var ms := NonSystem(AllMounts(d));
    var once := Fresh({}, ms);
    NonSystemSet(AllMounts(d));
    FreshIsSet({}, ms);
    SortFacts(once);
    var r := UnmountList(d);
    forall m ensures m in r <==> m in ms {
      assert m in r <==> m in Set(r);
    }
    forall i, j | 0 <= i < j < |r| ensures r[i] != r[j] {
      LessTotal(r[j], r[i]);
    }
    forall i, j | 0 <= i < |r| && 0 <= j < |r| && r[j] < r[i] ensures i < j {
      PrefixLess(r[j], r[i]);
      LessTotal(r[j], r[i]);
    }
  }

  /** For a device not judged a system disk that is every mountpoint of the tree. */
  lemma DataDiskUnmountsAll(d: Device)
    requires !IsSystemDisk(d)
    ensures forall m :: m in UnmountList(d) <==> m in AllMounts(d)
    ensures forall m :: m in UnmountList(d) ==> !IsSystemMountpoint(m)
  {
    hide IsSystemMountpoint, AllMounts, UnmountList;
    SystemDiskIff(d);
    UnmountListIsExact(d);
    var all := AllMounts(d);
    forall m | m in all ensures !IsSystemMountpoint(m) {
      var i :| 0 <= i < |all| && all[i] == m;
    }
  }

  // ---- By the names ----------------------------------------------------------------------------

  /** The device reports this mountpoint, white space aside. */
  predicate Reports(d: Device, m: string) {
    || (d.mountpoint.Some? && TrimSpace(d.mountpoint.value) == m)
    || exists i :: 0 <= i < |d.mountpoints| && TrimSpace(d.mountpoints[i]) == m
  }

  /** The device or one below it does. */
  predicate MountedIn(d: Device, m: string) {
    Reports(d, m) || MountedInAny(d.children, m)
  }

  predicate MountedInAny(ds: seq<Device>, m: string) {
    ds != [] && (MountedIn(ds[0], m) || MountedInAny(ds[1..], m))
  }

  lemma {:induction false} TrimmedMembers(raw: seq<string>, m: string)
    ensures m in Trimmed(raw) <==> m != "" && exists i :: 0 <= i < |raw| && TrimSpace(raw[i]) == m
  {
    hide TrimSpace;
    if raw != [] {
      TrimmedMembers(raw[1..], m);
      if i :| 0 <= i < |raw| && TrimSpace(raw[i]) == m {
        if i > 0 { assert raw[1..][i - 1] == raw[i]; }
      }
      if i :| 0 <= i < |raw[1..]| && TrimSpace(raw[1..][i]) == m {
        assert raw[i + 1] == raw[1..][i];
      }
    }
  }

  lemma ReportsIsListed(d: Device, m: string)
    ensures m in DeviceMountpoints(d) <==> m != "" && Reports(d, m)
  {
    hide TrimSpace, Trimmed;
    if d.mountpoint.Some? {
      var raw := [d.mountpoint.value] + d.mountpoints;
      TrimmedMembers(raw, m);
      if i :| 0 <= i < |raw| && TrimSpace(raw[i]) == m {
        if i > 0 { assert raw[i] == d.mountpoints[i - 1]; }
      }
      if i :| 0 <= i < |d.mountpoints| && TrimSpace(d.mountpoints[i]) == m {
        assert raw[i + 1] == d.mountpoints[i];
      }
      assert raw[0] == d.mountpoint.value;
    } else {
      TrimmedMembers(d.mountpoints, m);
    }
  }

  /** The walk meets exactly what is mounted from the device and from everything below it. */
  lemma {:induction false} MountedIsListed(d: Device, m: string)
    ensures m in AllMounts(d) <==> m != "" && MountedIn(d, m)
    decreases d
  {
    hide TrimSpace;
    ReportsIsListed(d, m);
    MountedAnyIsListed(d.children, m);
    hide Reports, DeviceMountpoints;
  }

  lemma {:induction false} MountedAnyIsListed(ds: seq<Device>, m: string)
    ensures m in AllMountsOf(ds) <==> m != "" && MountedInAny(ds, m)
    decreases ds
  {
    if ds != [] {
      MountedIsListed(ds[0], m);
      MountedAnyIsListed(ds[1..], m);
    }
    hide AllMounts, MountedIn;
  }

  /** A device is part of the system disk exactly when "/", "/boot" or "/boot/efi" is mounted from it or from
      anything below it. */
  lemma SystemDiskByName(d: Device)
    ensures IsSystemDisk(d) <==> MountedIn(d, "/") || MountedIn(d, "/boot") || MountedIn(d, "/boot/efi")
  {
    hide AllMounts, MountedIn, IsSystemDisk;
    SystemDiskIff(d);
    MountedIsListed(d, "/");
    MountedIsListed(d, "/boot");
    MountedIsListed(d, "/boot/efi");
    var all := AllMounts(d);
    forall m | m in all ensures exists i :: 0 <= i < |all| && all[i] == m {
    }
  }

  /** Exactly the other mountpoints are unmounted. */
  lemma UnmountListByName(d: Device, m: string)
    ensures m in UnmountList(d) <==> MountedIn(d, m) && m != "" && m != "/" && m != "/boot" && m != "/boot/efi"
  {
    hide AllMounts, MountedIn, UnmountList;
    UnmountListIsExact(d);
    MountedIsListed(d, m);
  }

  // ---- RAID members ----------------------------------------------------------------------------

  predicate IsMDLike(d: Device) {
    "md" <= d.name || d.kind == "md" || "raid" <= d.kind
  }

  /** The paths of the RAID devices below a list of devices, each before what lies below it. */
  function MDPaths(ds: seq<Device>): seq<string> {
    if ds == [] then []
    else (if ds[0].path != "" && IsMDLike(ds[0]) then [ds[0].path] else []) + MDPaths(ds[0].children) + MDPaths(ds[1..])
  }

  function StopList(d: Device): seq<string> {
    Fresh({}, MDPaths(d.children))
  }

  class MDCollector {
    var seen: set<string>
    var result: seq<string>

    constructor ()
      ensures seen == {} && result == []
    {
      seen, result := {}, [];
    }

    method Walk(children: seq<Device>)
      modifies this
      ensures seen == old(seen) + Set(MDPaths(children))
      ensures result == old(result) + Fresh(old(seen), MDPaths(children))
    {
      ghost var s0, r0 := seen, result;
      CollectNone(s0, r0);
      if children == [] {
        return;
      }
      var child := children[0];
      hide Fresh, Set, IsMDLike;
      ghost var own := if child.path != "" && IsMDLike(child) then [child.path] else [];
      Note(child);
      if |child.children| > 0 {
        Walk(child.children);
      } else {
        CollectNone(seen, result);
        assert MDPaths(child.children) == [];
      }
      CollectBoth(s0, r0, own, MDPaths(child.children));
      Walk(children[1..]);
      CollectBoth(s0, r0, own + MDPaths(child.children), MDPaths(children[1..]));
    }

    method Note(child: Device)
      modifies this
      ensures
        var own := if child.path != "" && IsMDLike(child) then [child.path] else [];
        seen == old(seen) + Set(own) && result == old(result) + Fresh(old(seen), own)
    {
      hide IsMDLike;
      if child.path != "" && IsMDLike(child) {
        if child.path !in seen {
          seen := seen + {child.path};
          result := result + [child.path];
        }
      }
    }
  }

  lemma CollectBoth(seen: set<string>, result: seq<string>, a: seq<string>, b: seq<string>)
    ensures seen + Set(a) + Set(b) == seen + Set(a + b)
    ensures result + Fresh(seen, a) + Fresh(seen + Set(a), b) == result + Fresh(seen, a + b)
  {
    hide Fresh;
    FreshConcat(seen, a, b);
    SetConcat(a, b);
    hide Set;
  }

  lemma CollectNone(seen: set<string>, result: seq<string>)
    ensures seen + Set([]) == seen && result + Fresh(seen, []) == result
  {
  }

  method CollectChildMDDevices(d: Device) returns (result: seq<string>)
    ensures result == StopList(d)
  {
    var walk := new MDCollector();
    walk.Walk(d.children);
    result := walk.result;
    assert [] + Fresh({}, MDPaths(d.children)) == Fresh({}, MDPaths(d.children));
  }

  /** A device somewhere below a list of devices. */
  predicate Below(x: Device, ds: seq<Device>) {
    ds != [] && (ds[0] == x || Below(x, ds[0].children) || Below(x, ds[1..]))
  }

  /** The RAID devices stopped are exactly those below the device that have a path, each once. */
  lemma StopListIsExact(d: Device)
    ensures NoRepeats(StopList(d))
    ensures forall x :: Below(x, d.children) && x.path != "" && ("md" <= x.name || x.kind == "md" || "raid" <= x.kind) ==> x.path in StopList(d)
    ensures forall p :: p in StopList(d) ==>
              exists x :: Below(x, d.children) && ("md" <= x.name || x.kind == "md" || "raid" <= x.kind) && x.path == p && p != ""
  {
    hide Fresh, Below, MDPaths;
    FreshIsSet({}, MDPaths(d.children));
    forall p ensures p in StopList(d) <==> p in MDPaths(d.children) {
      assert p in StopList(d) <==> p in Set(StopList(d));
    }
    forall x | Below(x, d.children) && x.path != "" && IsMDLike(x) ensures x.path in StopList(d) {
      BelowListed(x, d.children);
    }
    forall p | p in StopList(d) ensures exists x :: Below(x, d.children) && IsMDLike(x) && x.path == p && p != "" {
      var x := ListedBelow(p, d.children);
    }
  }

  lemma {:induction false} BelowListed(x: Device, ds: seq<Device>)
    requires Below(x, ds) && x.path != "" && IsMDLike(x)
    ensures x.path in MDPaths(ds)
  {
    hide IsMDLike;
    if ds[0] == x {
    } else if Below(x, ds[0].children) {
      BelowListed(x, ds[0].children);
    } else {
      BelowListed(x, ds[1..]);
    }
  }

  lemma {:induction false} ListedBelow(p: string, ds: seq<Device>) returns (x: Device)
    requires p in MDPaths(ds)
    ensures Below(x, ds) && IsMDLike(x) && x.path == p && p != ""
  {
    hide IsMDLike;
    if ds[0].path == p && p != "" && IsMDLike(ds[0]) {
      x := ds[0];
    } else if p in MDPaths(ds[0].children) {
      x := ListedBelow(p, ds[0].children);
    } else {
      x := ListedBelow(p, ds[1..]);
    }
  }
}
