/** The preparation itself: which commands run, in which order, and what has been checked before a device
    is wiped. */
module DevicePrepare {
  import opened Wrappers
  import opened Devices

  datatype Command =
    | Unmount(mount: string)
    | StopArray(array: string)
    | ZeroSuperblock(path: string)
    | Wipe(path: string)

  /** What the preparation learns from outside: the pool database, the device listing, and how the n-th
      command ends. */
  datatype Environment = Environment(registered: string -> Option<bool>, load: string -> Option<Device>,
                                     succeeds: (nat, Command) -> bool)

  /** The device may be wiped: known to be unregistered, listed, and no part of the system disk. */
  predicate Allowed(env: Environment, path: string) {
    env.registered(path) == Some(false) && env.load(path).Some? && !IsSystemDisk(env.load(path).value)
  }

  function Unmounts(ms: seq<string>): (r: seq<Command>)
    ensures |r| == |ms| && forall i :: 0 <= i < |ms| ==> r[i] == Unmount(ms[i])
  {
    seq(|ms|, i requires 0 <= i < |ms| => Unmount(ms[i]))
  }

  function Stops(ps: seq<string>): (r: seq<Command>)
    ensures |r| == |ps| && forall i :: 0 <= i < |ps| ==> r[i] == StopArray(ps[i])
  {
    seq(|ps|, i requires 0 <= i < |ps| => StopArray(ps[i]))
  }

  function Commands(path: string, mounts: seq<string>, arrays: seq<string>): seq<Command> {
    Unmounts(mounts) + Stops(arrays) + [ZeroSuperblock(path)] + [Wipe(path)]
  }

  /** The commands for one device. */
  function PathCommands(path: string, d: Device): seq<Command> {
    Commands(path, UnmountList(d), StopList(d))
  }

  function AllCommands(env: Environment, paths: seq<string>): seq<Command>
    requires forall i :: 0 <= i < |paths| ==> Allowed(env, paths[i])
  {
    if paths == [] then []
    else
      var path := paths[|paths| - 1];
      assert Allowed(env, path);
      AllCommands(env, paths[..|paths| - 1]) + PathCommands(path, env.load(path).value)
  }

  lemma AllStep(env: Environment, paths: seq<string>, i: nat)
    requires i < |paths| && forall j :: 0 <= j <= i ==> Allowed(env, paths[j])
    ensures AllCommands(env, paths[..i + 1]) == AllCommands(env, paths[..i]) + PathCommands(paths[i], env.load(paths[i]).value)
  {
    hide Allowed, PathCommands;
    assert paths[..i + 1][..i] == paths[..i];
  }

  /** Every command but the last, and but the superblock ones, ended well. */
  predicate RanWell(env: Environment, log: seq<Command>) {
    forall i :: 0 <= i < |log| - 1 ==> log[i].ZeroSuperblock? || env.succeeds(i, log[i])
  }

  /** How far a preparation came: the devices before the k-th are done, and of the k-th a part. */
  predicate Reached(env: Environment, paths: seq<string>, k: nat, log: seq<Command>) {
    && k <= |paths| && (forall i :: 0 <= i < k ==> Allowed(env, paths[i]))
    && AllCommands(env, paths[..k]) <= log
    && (log != AllCommands(env, paths[..k]) ==>
          k < |paths| && Allowed(env, paths[k])
          && log <= AllCommands(env, paths[..k]) + PathCommands(paths[k], env.load(paths[k]).value))
  }

  lemma NothingDone(env: Environment)
    ensures AllCommands(env, []) == [] && RanWell(env, [])
  {
  }

  class Preparer {
    const env: Environment
    var log: seq<Command>

    constructor (env: Environment)
      ensures this.env == env && log == []
    {
      this.env, log := env, [];
    }

    method Run(c: Command) returns (ok: bool)
      modifies this
      ensures log == old(log) + [c] && ok == env.succeeds(|old(log)|, c)
    {
      ok := env.succeeds(|log|, c);
      log := log + [c];
    }

    method RunEach(cs: seq<Command>) returns (ok: bool)
      requires RanWell(env, log) && (log != [] ==> Settled(log[|log| - 1], |log| - 1))
      modifies this
      ensures RanWell(env, log) && old(log) <= log <= old(log) + cs
      ensures ok ==> log == old(log) + cs && (log != [] ==> Settled(log[|log| - 1], |log| - 1))
      ensures !ok ==> log != [] && !Settled(log[|log| - 1], |log| - 1)
    {
      for i := 0 to |cs|
        invariant log == old(log) + cs[..i]
        invariant RanWell(env, log) && (log != [] ==> Settled(log[|log| - 1], |log| - 1))
      {
        ok := Run(cs[i]);
        assert cs[..i + 1] == cs[..i] + [cs[i]];
        if !ok && !cs[i].ZeroSuperblock? {
          return false;
        }
      }
      assert cs[..|cs|] == cs;
      ok := true;
    }

    predicate Settled(c: Command, i: nat) {
      c.ZeroSuperblock? || env.succeeds(i, c)
    }

    /** Stops at the first device that may not be wiped and at the first command that fails; only the
        superblock command may fail. */
    method ForcePreparePoolDevices(paths: seq<string>) returns (ok: bool, ghost k: nat)
      requires log == []
      modifies this
      ensures Reached(env, paths, k, log) && RanWell(env, log)
      ensures ok <==> k == |paths|
      ensures !ok ==> !Allowed(env, paths[k]) || (log != [] && !Settled(log[|log| - 1], |log| - 1))
    {
      hide Commands, UnmountList, StopList, IsSystemDisk, RanWell, AllCommands;
      NothingDone(env);
      k := 0;
      for i := 0 to |paths|
        invariant k == i && (forall j :: 0 <= j < i ==> Allowed(env, paths[j]))
        invariant log == AllCommands(env, paths[..i])
        invariant RanWell(env, log) && (log != [] ==> Settled(log[|log| - 1], |log| - 1))
      {
        var path := paths[i];
        var registered := env.registered(path);
        if registered.None? || registered.value {
          return false, i;
        }
        var device := env.load(path);
        if device.None? {
          return false, i;
        }
        if IsSystemDisk(device.value) {
          return false, i;
        }
        var mounts := CollectNonSystemMountpoints(device.value);
        var arrays := CollectChildMDDevices(device.value);
        ok := RunEach(Commands(path, mounts, arrays));
        AllStep(env, paths, i);
        if !ok {
          return false, i;
        }
        k := i + 1;
      }
      assert paths[..|paths|] == paths;
      ok := true;
    }
  }

  // ---- What a wipe has behind it ---------------------------------------------------------------

  predicate EndedWell(env: Environment, log: seq<Command>, c: Command) {
    exists i :: 0 <= i < |log| && log[i] == c && env.succeeds(i, c)
  }

  /** Everything mounted from the device is unmounted and every array on it stopped by a command of the
      list that ended well. */
  ghost predicate Released(env: Environment, log: seq<Command>, d: Device) {
    && (forall m :: m != "" && MountedIn(d, m) ==> EndedWell(env, log, Unmount(m)))
    && (forall x :: Below(x, d.children) && x.path != "" && ("md" <= x.name || x.kind == "md" || "raid" <= x.kind) ==>
          EndedWell(env, log, StopArray(x.path)))
  }

  /** The commands of the n-th device are in the list, from a position on. */
  ghost predicate HoldsAt(env: Environment, paths: seq<string>, all: seq<Command>, n: nat, at: nat) {
    && n < |paths| && Allowed(env, paths[n])
    && var own := PathCommands(paths[n], env.load(paths[n]).value);
    at + |own| <= |all| && all[at..at + |own|] == own
  }

  /** Where a command of the list comes from. */
  lemma {:induction false} CommandOrigin(env: Environment, paths: seq<string>, k: nat, i: nat) returns (n: nat, at: nat)
    requires k <= |paths| && forall j :: 0 <= j < k ==> Allowed(env, paths[j])
    requires i < |AllCommands(env, paths[..k])|
    ensures HoldsAt(env, paths, AllCommands(env, paths[..k]), n, at)
    ensures at <= i < at + |PathCommands(paths[n], env.load(paths[n]).value)|
  {
    hide PathCommands, IsSystemDisk, AllCommands;
    NothingDone(env);
    assert paths[..0] == [];
    assert Allowed(env, paths[k - 1]);
    AllStep(env, paths, k - 1);
    var init, own := AllCommands(env, paths[..k - 1]), PathCommands(paths[k - 1], env.load(paths[k - 1]).value);
    var all := AllCommands(env, paths[..k]);
    assert all == init + own;
    if i < |init| {
      n, at := CommandOrigin(env, paths, k - 1, i);
      HoldsInLonger(env, paths, init, own, n, at);
    } else {
      n, at := k - 1, |init|;
      assert all[at..at + |own|] == own;
    }
  }

  lemma HoldsInLonger(env: Environment, paths: seq<string>, init: seq<Command>, more: seq<Command>, n: nat, at: nat)
    requires HoldsAt(env, paths, init, n, at)
    ensures HoldsAt(env, paths, init + more, n, at)
  {
    hide PathCommands, IsSystemDisk;
    var own := PathCommands(paths[n], env.load(paths[n]).value);
    assert (init + more)[at..at + |own|] == init[at..at + |own|];
  }

  /** A device may be wiped exactly if the database knows it to be unregistered, it is listed, and none of
      "/", "/boot" and "/boot/efi" is mounted from it or from anything below it. */
  lemma AllowedIff(env: Environment, path: string)
    ensures
      Allowed(env, path) <==>
        && env.registered(path) == Some(false) && env.load(path).Some?
        && var d := env.load(path).value;
        !MountedIn(d, "/") && !MountedIn(d, "/boot") && !MountedIn(d, "/boot/efi")
  {
    hide MountedIn, IsSystemDisk;
    if env.load(path).Some? { SystemDiskByName(env.load(path).value); }
  }

  /** Whatever commands a preparation got to run: none of them unmounts "/", "/boot" or "/boot/efi", and a
      device from which one of these is mounted is not wiped. */
  lemma SystemIsSpared(env: Environment, paths: seq<string>, k: nat, log: seq<Command>, i: nat)
    requires Reached(env, paths, k, log) && RanWell(env, log) && i < |log|
    ensures log[i].Unmount? ==> log[i].mount != "/" && log[i].mount != "/boot" && log[i].mount != "/boot/efi"
    ensures log[i].Wipe? ==>
              && env.load(log[i].path).Some?
              && var d := env.load(log[i].path).value;
              !MountedIn(d, "/") && !MountedIn(d, "/boot") && !MountedIn(d, "/boot/efi")
  {
    hide MountedIn, Allowed, Reached, RanWell, Released;
    WipesAreSafe(env, paths, k, log, i);
    if log[i].Wipe? { AllowedIff(env, log[i].path); }
  }

  /** Whatever commands a preparation got to run: none of them unmounts a system mountpoint, and a device
      is wiped only if it may be, after everything on it was released by commands that ended well. */
  lemma WipesAreSafe(env: Environment, paths: seq<string>, k: nat, log: seq<Command>, i: nat)
    requires Reached(env, paths, k, log) && RanWell(env, log) && i < |log|
    ensures log[i].Unmount? ==> !Devices.IsSystemMountpoint(log[i].mount)
    ensures log[i].Wipe? ==> log[i].path in paths && Allowed(env, log[i].path)
    ensures log[i].Wipe? ==> Released(env, log[..i], env.load(log[i].path).value)
  {
    hide Reached, PathCommands, Released, IsSystemDisk, Devices.IsSystemMountpoint;
    var n, at := StretchOrigin(env, paths, k, log, i);
    var d := env.load(paths[n]).value;
    CommandsOfPath(paths[n], d, i - at);
    if log[i].Wipe? {
      ReleasedBefore(env, paths[n], d, log, at, i);
    }
  }

  /** The commands run up to one of them, from where its device's begin, are the first of that device's. */
  lemma StretchOrigin(env: Environment, paths: seq<string>, k: nat, log: seq<Command>, i: nat) returns (n: nat, at: nat)
    requires Reached(env, paths, k, log) && i < |log|
    ensures n < |paths| && Allowed(env, paths[n]) && at <= i
    ensures
      var own := PathCommands(paths[n], env.load(paths[n]).value);
      i - at < |own| && log[at..i] == own[..i - at] && log[i] == own[i - at]
  {
    hide PathCommands, AllCommands, IsSystemDisk;
    var all := AllCommands(env, paths[..k]);
    if i < |all| {
      n, at := CommandOrigin(env, paths, k, i);
      SamePart(log, all, PathCommands(paths[n], env.load(paths[n]).value), at, i);
    } else {
      n, at := k, |all|;
      var own := PathCommands(paths[n], env.load(paths[n]).value);
      assert (all + own)[at..at + |own|] == own;
      SamePart(log, all + own, own, at, i);
    }
  }

  lemma SamePart(log: seq<Command>, all: seq<Command>, own: seq<Command>, at: nat, i: nat)
    requires at + |own| <= |all| && all[at..at + |own|] == own && at <= i < at + |own| && i < |log|
    requires log <= all || all <= log
    ensures log[at..i] == own[..i - at] && log[i] == own[i - at]
  {
    forall j | at <= j <= i ensures log[j] == own[j - at] {
      assert log[j] == all[j] == all[at..at + |own|][j - at];
    }
  }

  /** The commands of one device, by position. */
  lemma CommandsOfPath(path: string, d: Device, i: nat)
    requires i < |PathCommands(path, d)| && !IsSystemDisk(d)
    ensures
      var c := PathCommands(path, d)[i];
      && (c.Unmount? ==> !Devices.IsSystemMountpoint(c.mount))
      && (c.Wipe? ==> c.path == path && i == |UnmountList(d)| + |StopList(d)| + 1)
  {
    hide IsSystemDisk, UnmountList, StopList, Devices.IsSystemMountpoint;
    DataDiskUnmountsAll(d);
    var ms := UnmountList(d);
    if i < |ms| {
      assert PathCommands(path, d)[i] == Unmount(ms[i]) && ms[i] in ms;
    }
  }

  lemma ReleasedBefore(env: Environment, path: string, d: Device, log: seq<Command>, at: nat, i: nat)
    requires at <= i < |log| && RanWell(env, log) && !IsSystemDisk(d)
    requires i - at < |PathCommands(path, d)| && i - at == |UnmountList(d)| + |StopList(d)| + 1
    requires log[at..i] == PathCommands(path, d)[..i - at]
    ensures Released(env, log[..i], d)
  {
    hide IsSystemDisk, UnmountList, StopList, Devices.IsSystemMountpoint, AllMounts, MountedIn, Below;
    DataDiskUnmountsAll(d);
    StopListIsExact(d);
    var ms, ps := UnmountList(d), StopList(d);
    forall m | m != "" && MountedIn(d, m) ensures EndedWell(env, log[..i], Unmount(m)) {
      MountedIsListed(d, m);
      var x :| 0 <= x < |ms| && ms[x] == m;
      assert log[at..i][x] == PathCommands(path, d)[x] == Unmount(m);
      assert log[..i][at + x] == Unmount(m);
    }
    forall p | p in ps ensures EndedWell(env, log[..i], StopArray(p)) {
      var x :| 0 <= x < |ps| && ps[x] == p;
      assert log[at..i][|ms| + x] == PathCommands(path, d)[|ms| + x] == StopArray(p);
      assert log[..i][at + |ms| + x] == StopArray(p);
    }
  }
}
