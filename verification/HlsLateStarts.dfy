/** What can become of a finished stream: nothing, unless a request that looked before its manifest was
    there starts a job for the directory afterwards. */
module HlsLateStarts {
  import opened Wrappers
  import opened HlsCache
  import opened HlsStreams

  // ---- Requests that found no manifest ---------------------------------------------------------

  /** A step at which a request, from then on known by this id, looked and found no manifest. */
  ghost predicate LookedInVain(es: seq<Event>, i: nat, dir: string, r: RequestId) {
    && i < |es| && es[i] == Look(dir)
    && RunAll(EMPTY, es[..i]).nextRequest == r
    && MANIFEST !in Files(RunAll(EMPTY, es[..i]).disk, dir)
  }

  /** Every request about to start a job has looked in vain. */
  lemma {:induction false} PendingLooked(es: seq<Event>, r: RequestId) returns (i: nat)
    ensures
      var s := RunAll(EMPTY, es);
      r in s.requests ==> r < s.nextRequest && LookedInVain(es, i, s.requests[r], r)
  {
    i := 0;
    if es != [] {
      var init, e := es[..|es| - 1], es[|es| - 1];
      var s := RunAll(EMPTY, init);
      var k := PendingLooked(init, r);
      RequestStep(s, e, r);
      if r in s.requests {
        i := k;
        assert k < |init| ==> es[..k] == init[..k] && es[k] == init[k];
      } else {
        i := |init|;
      }
    }
    hide Next, RunAll;
  }

  lemma RequestStep(s: State, e: Event, r: RequestId)
    requires r in s.requests ==> r < s.nextRequest
    ensures
      var s' := Next(s, e);
      && s.nextRequest <= s'.nextRequest
      && (r in s'.requests && r in s.requests ==> s'.requests[r] == s.requests[r])
      && (r in s'.requests && r !in s.requests ==>
            e == Look(s'.requests[r]) && r == s.nextRequest < s'.nextRequest && MANIFEST !in Files(s.disk, s'.requests[r]))
  {
    hide Files, DiskAfter, JobAfter;
  }

  // ---- A directory without a registered job ----------------------------------------------------

  /** Nothing about the directory has moved: no new job, the same files, and no request waits to start one
      that did not wait before. */
  ghost predicate Quiet(s: State, s': State, dir: string) {
    && dir !in s'.registry && Files(s'.disk, dir) == Files(s.disk, dir)
    && s.next <= s'.next && (forall id :: s.next <= id ==> !Of(s'.jobs, dir, id))
    && (forall r :: r in s'.requests && s'.requests[r] == dir ==> r in s.requests && s.requests[r] == dir)
  }

  /** The first new job of the directory, started by a request that was waiting in s. */
  ghost predicate FirstNew(s: State, s': State, dir: string, id: JobId) {
    && s.next <= id && Of(s'.jobs, dir, id) && (forall older :: s.next <= older < id ==> !Of(s'.jobs, dir, older))
    && s'.jobs[id].starter in s.requests && s.requests[s'.jobs[id].starter] == dir
  }

  ghost predicate QuietOrStarted(s: State, s': State, dir: string) {
    Quiet(s, s', dir) || exists id :: FirstNew(s, s', dir, id)
  }

  lemma QuietStep(s: State, s1: State, e: Event, dir: string)
    requires Owned(s1) && MANIFEST in Files(s.disk, dir) && Quiet(s, s1, dir)
    ensures QuietOrStarted(s, Next(s1, e), dir)
  {
    var s' := Next(s1, e);
    OwnerTouches(s1, e, dir);
    if e.Start? && Enabled(s1, e) && s1.requests[e.r] == dir {
      forall older | s.next <= older < s1.next ensures !Of(s'.jobs, dir, older) { assert !Of(s1.jobs, dir, older); }
      assert FirstNew(s, s', dir, s1.next);
    } else {
      StillQuiet(s1, e, dir);
      assert Quiet(s, s', dir);
    }
    hide Owned, Next, Files, Enabled;
  }

  lemma StillQuiet(s: State, e: Event, dir: string)
    requires MANIFEST in Files(s.disk, dir) && dir !in s.registry
    requires e.Start? && Enabled(s, e) ==> s.requests[e.r] != dir
    ensures var s' := Next(s, e); dir !in s'.registry && s.next <= s'.next
    ensures forall id :: Of(Next(s, e).jobs, dir, id) ==> Of(s.jobs, dir, id)
    ensures forall r :: r in Next(s, e).requests && Next(s, e).requests[r] == dir ==> r in s.requests && s.requests[r] == dir
  {
    hide Files, DiskAfter, JobAfter;
  }

  lemma StartedStep(s: State, s1: State, e: Event, dir: string, id: JobId)
    requires Owned(s1) && FirstNew(s, s1, dir, id)
    ensures FirstNew(s, Next(s1, e), dir, id)
  {
    assert JobOk(s1, id);
    JobsStay(s1, e);
    forall older | s.next <= older < id ensures !Of(Next(s1, e).jobs, dir, older) { assert !Of(s1.jobs, dir, older); }
    hide Owned, Next;
  }

  lemma JobsStay(s: State, e: Event)
    ensures
      var s' := Next(s, e);
      && (forall id :: id in s.jobs && id != s.next ==>
            id in s'.jobs && s'.jobs[id].dir == s.jobs[id].dir && s'.jobs[id].starter == s.jobs[id].starter)
      && (forall id :: id in s'.jobs && id != s.next ==> id in s.jobs) && s.next <= s'.next
  {
    hide Files, DiskAfter, JobAfter;
  }

  lemma {:induction false} QuietRun(es: seq<Event>, more: seq<Event>, dir: string)
    requires var s := RunAll(EMPTY, es); dir !in s.registry && MANIFEST in Files(s.disk, dir)
    ensures QuietOrStarted(RunAll(EMPTY, es), RunAll(EMPTY, es + more), dir)
  {
    var s := RunAll(EMPTY, es);
    AlwaysOwned(es);
    if more == [] {
      assert es + more == es;
      NothingNewYet(s, dir);
    } else {
      var init, e := more[..|more| - 1], more[|more| - 1];
      QuietRun(es, init, dir);
      assert es + more == (es + init) + [e];
      RunOne(EMPTY, es + init, e);
      AlwaysOwned(es + init);
      var s1 := RunAll(EMPTY, es + init);
      if Quiet(s, s1, dir) {
        QuietStep(s, s1, e, dir);
      } else {
        var id :| FirstNew(s, s1, dir, id);
        StartedStep(s, s1, e, dir, id);
      }
    }
    hide RunAll, Next, Files, Owned, Quiet, FirstNew;
  }

  lemma NothingNewYet(s: State, dir: string)
    requires Owned(s) && dir !in s.registry
    ensures Quiet(s, s, dir)
  {
    forall id | id in s.jobs ensures id < s.next { assert JobOk(s, id); }
    hide Files, Ordered, Entry;
  }

  /** A directory with a manifest and no registered job stays as it is over every continuation, crashes
      included, while no request that looked in vain is left to start a job for it. */
  lemma StreamStays(es: seq<Event>, more: seq<Event>, dir: string)
    requires var s := RunAll(EMPTY, es); dir !in s.registry && MANIFEST in Files(s.disk, dir)
    requires var s := RunAll(EMPTY, es); forall r :: r in s.requests ==> s.requests[r] != dir
    ensures
      var s, s' := RunAll(EMPTY, es), RunAll(EMPTY, es + more);
      dir !in s'.registry && Files(s'.disk, dir) == Files(s.disk, dir)
  {
    QuietRun(es, more, dir);
    hide RunAll, Files;
  }

  // ---- Finished streams that are lost ----------------------------------------------------------

  /** A job that has left the registry does nothing more. */
  lemma {:induction false} DeadStay(es: seq<Event>, more: seq<Event>, id: JobId)
    requires var s := RunAll(EMPTY, es); id in s.jobs && !Live(s.jobs[id].phase)
    ensures
      var j, s' := RunAll(EMPTY, es).jobs[id], RunAll(EMPTY, es + more);
      id in s'.jobs && s'.jobs[id].dir == j.dir && s'.jobs[id].completed == j.completed && SameDeed(j, s'.jobs[id])
      && !Live(s'.jobs[id].phase)
  {
    if more == [] {
      assert es + more == es;
    } else {
      var init, e := more[..|more| - 1], more[|more| - 1];
      DeadStay(es, init, id);
      assert es + more == (es + init) + [e];
      RunOne(EMPTY, es + init, e);
      AlwaysOwned(es + init);
      DeadStep(RunAll(EMPTY, es + init), e, id);
    }
    hide RunAll, Next, Owned;
  }

  lemma DeadStep(s: State, e: Event, id: JobId)
    requires Owned(s) && id in s.jobs && !Live(s.jobs[id].phase)
    ensures
      var j, s' := s.jobs[id], Next(s, e);
      id in s'.jobs && s'.jobs[id].dir == j.dir && s'.jobs[id].completed == j.completed && SameDeed(j, s'.jobs[id])
      && !Live(s'.jobs[id].phase)
  {
    hide Files, Ordered, Entry, DiskAfter;
    assert JobOk(s, id);
  }

  /** A job that ended badly for the stream it found: it removed the directory, or a crash cut it off after
      it touched a file of that stream; and no later job of the directory has ended. */
  ghost predicate Ruins(s: State, dir: string, id: JobId) {
    && Of(s.jobs, dir, id) && !s.jobs[id].completed && Unrepaired(s, dir, id)
    && (s.jobs[id].wiped || (CutOff(s, dir, id) && forall stream :: Standing(s, dir, stream, id) ==> Disturbs(s, id, stream)))
  }

  lemma RuinedIsIncomplete(s: State, dir: string, id: JobId, stream: JobId)
    requires Owned(s) && Ruins(s, dir, id)
    ensures !Stream(s, dir, stream)
  {
    if Of(s.jobs, dir, stream) && s.jobs[stream].completed {
      assert SettledOf(s, dir, stream) && JobOk(s, stream) && JobOk(s, id);
      if s.jobs[id].wiped {
        assert Touches(s.jobs, dir, id, MANIFEST);
      } else if Standing(s, dir, stream, id) {
        var f :| f in s.jobs[stream].wrote && (f in s.jobs[id].wrote || f in s.jobs[id].removed);
        assert Touches(s.jobs, dir, id, f);
      } else {
        var between :| stream < between < id && SettledOf(s, dir, between);
        SettledTouches(s, dir, between);
      }
    }
    hide Ordered, Entry;
  }

  /** Where a completed stream was, and is no more, its newest job that ended removed it, or a job cut off
      later touched it. */
  lemma SomeRuin(s: State, dir: string, old_: JobId, n: JobId) returns (id: JobId)
    requires Owned(s) && dir !in s.registry && 0 <= old_ < n && Of(s.jobs, dir, old_) && s.jobs[old_].completed
    requires forall later, f :: old_ < later < n && f in s.jobs[old_].wrote ==> !Touches(s.jobs, dir, later, f)
    requires forall stream :: !Stream(s, dir, stream)
    ensures id >= n && Ruins(s, dir, id)
  {
    var newest := NewestSettled(s, dir, s.next);
    NothingBeyond(s, dir, newest);
    assert JobOk(s, old_) && SettledOf(s, dir, old_);
    assert newest >= old_;
    NewestIsNew(s, dir, old_, n, newest);
    if s.jobs[newest].wiped {
      id := newest;
    } else {
      assert !Stream(s, dir, newest);
      var later, f :| newest < later < s.next && f in s.jobs[newest].wrote && Touches(s.jobs, dir, later, f);
      NewestDecides(s, dir, newest, later, f);
      id := later;
    }
    hide Ordered, Entry;
  }

  lemma NewestIsNew(s: State, dir: string, old_: JobId, n: JobId, newest: JobId)
    requires Owned(s) && 0 <= old_ < n && Of(s.jobs, dir, old_) && s.jobs[old_].completed
    requires forall later, f :: old_ < later < n && f in s.jobs[old_].wrote ==> !Touches(s.jobs, dir, later, f)
    requires SettledOf(s, dir, newest)
    ensures newest <= old_ || newest >= n
  {
    assert JobOk(s, old_);
    SettledTouches(s, dir, newest);
    hide Ordered, Entry;
  }

  /** A finished stream is lost exactly if a job registered since ended badly for it; and then the first such
      job of the directory was started by a request that had found no manifest, at a step of the run before
      the stream was there, and waited to start its job until the stream's own job had left. */
  lemma StreamLostIff(es: seq<Event>, more: seq<Event>, dir: string)
    requires var s := RunAll(EMPTY, es); dir !in s.registry && Complete(s, dir)
    requires dir !in RunAll(EMPTY, es + more).registry
    ensures
      var s, s' := RunAll(EMPTY, es), RunAll(EMPTY, es + more);
      && (!Complete(s', dir) <==> exists id :: s.next <= id && Ruins(s', dir, id))
      && (!Complete(s', dir) ==> exists id, i :: FirstNew(s, s', dir, id) && LookedInVain(es, i, dir, s'.jobs[id].starter))
  {
    var s, s' := RunAll(EMPTY, es), RunAll(EMPTY, es + more);
    AlwaysOwned(es + more);
    CompleteIff(es + more, dir);
    if id :| s.next <= id && Ruins(s', dir, id) {
      forall stream ensures !Stream(s', dir, stream) { RuinedIsIncomplete(s', dir, id, stream); }
    }
    if !Complete(s', dir) {
      var _ := LostByRuin(es, more, dir);
      LostByLateStart(es, more, dir);
    }
    hide RunAll, Complete, Stream, Ruins, Owned, FirstNew, LookedInVain;
  }

  lemma LostByRuin(es: seq<Event>, more: seq<Event>, dir: string) returns (id: JobId)
    requires var s := RunAll(EMPTY, es); dir !in s.registry && Complete(s, dir)
    requires var s' := RunAll(EMPTY, es + more); dir !in s'.registry && forall stream :: !Stream(s', dir, stream)
    ensures RunAll(EMPTY, es).next <= id && Ruins(RunAll(EMPTY, es + more), dir, id)
  {
    var s, s' := RunAll(EMPTY, es), RunAll(EMPTY, es + more);
    AlwaysOwned(es);
    AlwaysOwned(es + more);
    CompleteIsStream(es, dir);
    var stream := Files(s.disk, dir)[MANIFEST];
    assert JobOk(s, stream);
    DeadJob(s, dir, stream);
    DeadStay(es, more, stream);
    forall later, f | stream < later < s.next && f in s'.jobs[stream].wrote ensures !Touches(s'.jobs, dir, later, f) {
      assert !Touches(s.jobs, dir, later, f);
      OldJob(es, more, dir, later, f);
    }
    id := SomeRuin(s', dir, stream, s.next);
    hide RunAll, Complete, Owned, Ruins, Files, Touches;
  }

  lemma DeadJob(s: State, dir: string, id: JobId)
    requires Owned(s) && dir !in s.registry && Of(s.jobs, dir, id)
    ensures !Live(s.jobs[id].phase)
  {
    assert JobOk(s, id);
  }

  lemma OldJob(es: seq<Event>, more: seq<Event>, dir: string, id: JobId, f: string)
    requires var s := RunAll(EMPTY, es); 0 <= id < s.next && dir !in s.registry && !Touches(s.jobs, dir, id, f)
    ensures !Touches(RunAll(EMPTY, es + more).jobs, dir, id, f)
  {
    var s := RunAll(EMPTY, es);
    AlwaysOwned(es);
    OldTable(es, more, id);
    if Of(s.jobs, dir, id) {
      DeadJob(s, dir, id);
      DeadStay(es, more, id);
    }
    hide RunAll, Owned;
  }

  /** Jobs registered before keep their directory; no others take their ids. */
  lemma {:induction false} OldTable(es: seq<Event>, more: seq<Event>, id: JobId)
    requires id < RunAll(EMPTY, es).next
    ensures
      var s, s' := RunAll(EMPTY, es), RunAll(EMPTY, es + more);
      s.next <= s'.next && (id in s'.jobs <==> id in s.jobs) && (id in s.jobs ==> s'.jobs[id].dir == s.jobs[id].dir)
  {
    hide RunAll, Next;
    if more == [] {
      assert es + more == es;
    } else {
      var init, e := more[..|more| - 1], more[|more| - 1];
      OldTable(es, init, id);
      assert es + more == (es + init) + [e];
      RunOne(EMPTY, es + init, e);
      JobsStay(RunAll(EMPTY, es + init), e);
    }
  }

  lemma LostByLateStart(es: seq<Event>, more: seq<Event>, dir: string)
    requires var s := RunAll(EMPTY, es); dir !in s.registry && Complete(s, dir)
    requires !Complete(RunAll(EMPTY, es + more), dir)
    ensures
      var s, s' := RunAll(EMPTY, es), RunAll(EMPTY, es + more);
      exists id, i :: FirstNew(s, s', dir, id) && LookedInVain(es, i, dir, s'.jobs[id].starter)
  {
    var s, s' := RunAll(EMPTY, es), RunAll(EMPTY, es + more);
    QuietRun(es, more, dir);
    if Quiet(s, s', dir) {
      var stream := Files(s.disk, dir)[MANIFEST];
      AlwaysOwned(es);
      DirectoriesAreSerial(es, dir);
      FileIsLastWriters(es, dir, MANIFEST, stream);
      DeadJob(s, dir, stream);
      DeadStay(es, more, stream);
    } else {
      var id :| FirstNew(s, s', dir, id);
      var i := PendingLooked(es, s'.jobs[id].starter);
      assert LookedInVain(es, i, dir, s'.jobs[id].starter);
    }
    hide RunAll, Owned, LookedInVain, Files;
  }

  // ---- Runs that lose a stream -----------------------------------------------------------------

  /** A job that has written its manifest when the server dies. */
  function CutRun(dir: string): seq<Event> {
    [Look(dir)] + [Start(0)] + [MakeDir(0, true)] + [Write(0, MANIFEST)] + [Crash]
  }

  /** A request looks, starts a job, and the job runs to its end, while a second request that looked too has
      not started one yet. */
  function GoodRun(dir: string): seq<Event> {
    [Look(dir)] + [Look(dir)] + [Start(0)] + [MakeDir(0, true)] + [Write(0, MANIFEST)] + [Exit(0, true)] + [RemoveAll(0)] + [Delete(0)]
  }

  /** Then the second request starts its job, whose transcoder fails. */
  function LateRun(): seq<Event> {
    [Start(1)] + [MakeDir(1, true)] + [Exit(1, false)] + [RemoveAll(1)] + [Delete(1)]
  }

  lemma CutRunState(dir: string)
    ensures
      RunAll(EMPTY, CutRun(dir)) ==
      State(map[], 1, map[0 := Job(dir, 0, Lost, false, false, {MANIFEST}, {}, false)], 1, map[], map[dir := map[MANIFEST := 0]])
  {
    var begin := [Look(dir)] + [Start(0)] + [MakeDir(0, true)];
    CutRunStart(dir);
    RunOne(EMPTY, begin, Write(0, MANIFEST));
    RunOne(EMPTY, begin + [Write(0, MANIFEST)], Crash);
    WriteAndCrash(RunAll(EMPTY, begin), dir);
    hide RunAll, Next;
  }

  lemma CutRunStart(dir: string)
    ensures
      RunAll(EMPTY, [Look(dir)] + [Start(0)] + [MakeDir(0, true)]) ==
      State(map[], 1, map[0 := NewJob(dir, 0).(phase := Transcode)], 1, map[dir := 0], map[dir := map[]])
  {
    RunTwo(EMPTY, [], Look(dir));
    RunOne(EMPTY, [Look(dir)], Start(0));
    RunOne(EMPTY, [Look(dir)] + [Start(0)], MakeDir(0, true));
    hide RunAll;
  }

  lemma WriteAndCrash(s: State, dir: string)
    requires s == State(map[], 1, map[0 := NewJob(dir, 0).(phase := Transcode)], 1, map[dir := 0], map[dir := map[]])
    ensures
      Next(Next(s, Write(0, MANIFEST)), Crash) ==
      State(map[], 1, map[0 := Job(dir, 0, Lost, false, false, {MANIFEST}, {}, false)], 1, map[], map[dir := map[MANIFEST := 0]])
  {
    assert Next(s, Write(0, MANIFEST)).jobs[0] == Job(dir, 0, Transcode, false, false, {MANIFEST}, {}, false);
  }

  /** A manifest left by a crash makes every later request take the part for the stream: whatever happens
      after, no job is ever started for the directory again. */
  lemma CrashFreezesPart(dir: string, more: seq<Event>)
    ensures
      var s := RunAll(EMPTY, CutRun(dir) + more);
      dir !in s.registry && Files(s.disk, dir) == map[MANIFEST := 0] && !Complete(s, dir)
  {
    CutRunState(dir);
    StreamStays(CutRun(dir), more, dir);
    DeadStay(CutRun(dir), more, 0);
    hide RunAll, CutRun;
  }

  lemma GoodRunState(dir: string)
    ensures
      var s := RunAll(EMPTY, GoodRun(dir));
      && s.requests == map[1 := dir] && s.registry == map[] && s.next == 1 && 1 !in s.jobs
      && s.disk == map[dir := map[MANIFEST := 0]] && Complete(s, dir)
  {
    var made := [Look(dir)] + [Look(dir)] + [Start(0)] + [MakeDir(0, true)];
    GoodRunStart(dir);
    RunOne(EMPTY, made, Write(0, MANIFEST));
    RunOne(EMPTY, made + [Write(0, MANIFEST)], Exit(0, true));
    RunOne(EMPTY, made + [Write(0, MANIFEST)] + [Exit(0, true)], RemoveAll(0));
    RunOne(EMPTY, made + [Write(0, MANIFEST)] + [Exit(0, true)] + [RemoveAll(0)], Delete(0));
    WriteAndEnd(RunAll(EMPTY, made), dir);
    hide RunAll, Next, Complete;
  }

  lemma WriteAndEnd(s: State, dir: string)
    requires s == State(map[1 := dir], 2, map[0 := NewJob(dir, 0).(phase := Transcode)], 1, map[dir := 0], map[dir := map[]])
    ensures
      var s' := Next(Next(Next(Next(s, Write(0, MANIFEST)), Exit(0, true)), RemoveAll(0)), Delete(0));
      && s'.requests == map[1 := dir] && s'.registry == map[] && s'.next == 1 && 1 !in s'.jobs
      && s'.disk == map[dir := map[MANIFEST := 0]] && Complete(s', dir)
  {
    assert Next(s, Write(0, MANIFEST)).jobs[0] == Job(dir, 0, Transcode, false, false, {MANIFEST}, {}, false);
  }

  lemma GoodRunStart(dir: string)
    ensures
      RunAll(EMPTY, [Look(dir)] + [Look(dir)] + [Start(0)] + [MakeDir(0, true)]) ==
      State(map[1 := dir], 2, map[0 := NewJob(dir, 0).(phase := Transcode)], 1, map[dir := 0], map[dir := map[]])
  {
    RunTwo(EMPTY, [], Look(dir));
    RunOne(EMPTY, [Look(dir)], Look(dir));
    RunOne(EMPTY, [Look(dir)] + [Look(dir)], Start(0));
    RunOne(EMPTY, [Look(dir)] + [Look(dir)] + [Start(0)], MakeDir(0, true));
    hide RunAll;
  }

  /** A finished stream that a late start removes. */
  lemma LateStartLosesStream(dir: string)
    ensures
      var s := RunAll(EMPTY, GoodRun(dir));
      dir !in s.registry && Complete(s, dir)
    ensures
      var s' := RunAll(EMPTY, GoodRun(dir) + LateRun());
      dir !in s'.registry && Files(s'.disk, dir) == map[]
  {
    GoodRunState(dir);
    LateRunEnd(RunAll(EMPTY, GoodRun(dir)), dir);
    RunConcat(EMPTY, GoodRun(dir), LateRun());
    hide RunAll, GoodRun, LateRun, Complete;
  }

  lemma LateRunEnd(s: State, dir: string)
    requires s.requests == map[1 := dir] && s.registry == map[] && s.next == 1 && 1 !in s.jobs
    ensures var s' := RunAll(s, LateRun()); dir !in s'.registry && dir !in s'.disk
  {
    hide Next;
    RunTwo(s, [], Start(1));
    RunOne(s, [Start(1)], MakeDir(1, true));
    RunOne(s, [Start(1)] + [MakeDir(1, true)], Exit(1, false));
    RunOne(s, [Start(1)] + [MakeDir(1, true)] + [Exit(1, false)], RemoveAll(1));
    RunOne(s, [Start(1)] + [MakeDir(1, true)] + [Exit(1, false)] + [RemoveAll(1)], Delete(1));
    StartAndMake(s, dir);
    FailAndRemove(Next(Next(s, Start(1)), MakeDir(1, true)), dir);
    hide RunAll;
  }

  lemma StartAndMake(s: State, dir: string)
    requires s.requests == map[1 := dir] && s.registry == map[] && s.next == 1 && 1 !in s.jobs
    ensures var s' := Next(Next(s, Start(1)), MakeDir(1, true));
      s'.registry == map[dir := 1] && 1 in s'.jobs && s'.jobs[1] == NewJob(dir, 1).(phase := Transcode)
  {
  }

  lemma FailAndRemove(s: State, dir: string)
    requires s.registry == map[dir := 1] && 1 in s.jobs && s.jobs[1] == NewJob(dir, 1).(phase := Transcode)
    ensures var s' := Next(Next(Next(s, Exit(1, false)), RemoveAll(1)), Delete(1)); dir !in s'.registry && dir !in s'.disk
  {
  }
}
