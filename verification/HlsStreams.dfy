/** What the stream cache keeps over every run, crashes included: who may touch a directory, what lies in
    it, and exactly when that is a complete stream. */
module HlsStreams {
  import opened Wrappers
  import opened HlsCache

  // ---- Who may touch a directory ---------------------------------------------------------------

  /** Registered or on its way to deregister: the job may still touch its directory. */
  predicate Live(p: Phase) {
    p == Prepare || p == Transcode || p == Cleanup || p == Deregister
  }

  predicate Settled(j: Job) {
    j.completed || j.wiped
  }

  predicate JobOk(s: State, id: JobId)
    requires id in s.jobs
  {
    var j := s.jobs[id];
    && 0 <= id < s.next
    && (Live(j.phase) ==> j.dir in s.registry && s.registry[j.dir] == id)
    && (j.phase == Prepare || j.phase == Transcode ==> !j.completed && j.removed == {})
    && (j.phase == Prepare || j.phase == Transcode || j.phase == Cleanup ==> !j.wiped)
    && (j.phase == Deregister || j.phase == Close || j.phase == Finished ==> Settled(j))
    && (j.completed ==> MANIFEST in j.wrote && j.removed == {} && !j.wiped)
  }

  /** A later job of the same directory was registered only after this one was deregistered. */
  predicate Ordered(s: State, id: JobId, later: JobId)
    requires id in s.jobs && later in s.jobs
  {
    id < later && s.jobs[id].dir == s.jobs[later].dir ==> !Live(s.jobs[id].phase)
  }

  predicate Entry(s: State, dir: string)
    requires dir in s.registry
  {
    s.registry[dir] in s.jobs && s.jobs[s.registry[dir]].dir == dir && Live(s.jobs[s.registry[dir]].phase)
  }

  ghost predicate Owned(s: State) {
    && s.next >= 0
    && (forall id :: id in s.jobs ==> JobOk(s, id))
    && (forall id, later :: id in s.jobs && later in s.jobs ==> Ordered(s, id, later))
    && (forall dir :: dir in s.registry ==> Entry(s, dir))
  }

  lemma OwnedStep(s: State, e: Event)
    requires Owned(s)
    ensures Owned(Next(s, e))
  {
    var s' := Next(s, e);
    if Enabled(s, e) {
      assert s'.next >= 0;
      forall id | id in s'.jobs ensures JobOk(s', id) {
        if id in s.jobs { assert JobOk(s, id); }
        if Inside(e) { assert JobOk(s, e.id); }
        JobKept(s, e, id);
      }
      forall id, later | id in s'.jobs && later in s'.jobs ensures Ordered(s', id, later) { OrderKept(s, e, id, later); }
      forall dir | dir in s'.registry ensures Entry(s', dir) { EntryKept(s, e, dir); }
      hide Next, JobOk, Ordered, Entry;
    }
  }

  lemma JobKept(s: State, e: Event, id: JobId)
    requires 0 <= s.next && (id in s.jobs ==> JobOk(s, id)) && Enabled(s, e) && (Inside(e) ==> JobOk(s, e.id)) && id in Next(s, e).jobs
    ensures JobOk(Next(s, e), id)
  {
    hide Files, DiskAfter;
  }

  lemma OrderKept(s: State, e: Event, id: JobId, later: JobId)
    requires Owned(s) && Enabled(s, e) && id in Next(s, e).jobs && later in Next(s, e).jobs
    ensures Ordered(Next(s, e), id, later)
  {
    hide Entry, Files, DiskAfter;
    if id in s.jobs {
      assert JobOk(s, id);
      if later in s.jobs { assert Ordered(s, id, later); }
    }
  }

  lemma EntryKept(s: State, e: Event, dir: string)
    requires Owned(s) && Enabled(s, e) && dir in Next(s, e).registry
    ensures Entry(Next(s, e), dir)
  {
    hide Ordered, Files, DiskAfter;
    if dir in s.registry { assert Entry(s, dir); }
    if Inside(e) { assert JobOk(s, e.id); }
  }

  lemma {:induction false} AlwaysOwned(es: seq<Event>)
    ensures Owned(RunAll(EMPTY, es))
  {
    if es != [] {
      AlwaysOwned(es[..|es| - 1]);
      OwnedStep(RunAll(EMPTY, es[..|es| - 1]), es[|es| - 1]);
    }
  }

  /** In every interleaving at most one job of a directory is at work, and it is the registered one. */
  lemma OneJobPerDirectory(es: seq<Event>, a: JobId, b: JobId)
    ensures
      var s := RunAll(EMPTY, es);
      a in s.jobs && b in s.jobs && Live(s.jobs[a].phase) && Live(s.jobs[b].phase) && s.jobs[a].dir == s.jobs[b].dir
      ==> a == b && s.jobs[a].dir in s.registry && s.registry[s.jobs[a].dir] == a
  {
    AlwaysOwned(es);
    var s := RunAll(EMPTY, es);
    if a in s.jobs && b in s.jobs {
      assert JobOk(s, a) && JobOk(s, b);
    }
  }

  predicate Touching(e: Event) {
    e.Write? || e.Remove? || e.RemoveAll?
  }

  /** Whatever a step removes or writes in a directory is removed or written by the job registered for it;
      no job registered later for that directory exists at that moment. */
  lemma OnlyOwnerTouches(es: seq<Event>, e: Event, dir: string)
    ensures
      var s := RunAll(EMPTY, es);
      var s' := Next(s, e);
      Files(s'.disk, dir) != Files(s.disk, dir) ==>
        && dir in s.registry && Touching(e) && e.id == s.registry[dir]
        && (forall later :: later in s.jobs && later > e.id ==> s.jobs[later].dir != dir)
  {
    AlwaysOwned(es);
    OwnerTouches(RunAll(EMPTY, es), e, dir);
  }

  lemma OwnerTouches(s: State, e: Event, dir: string)
    requires Owned(s)
    ensures
      Files(Next(s, e).disk, dir) != Files(s.disk, dir) ==>
        && dir in s.registry && Touching(e) && e.id == s.registry[dir]
        && (forall later :: later in s.jobs && later > e.id ==> s.jobs[later].dir != dir)
  {
    if Enabled(s, e) && Touching(e) {
      assert JobOk(s, e.id);
      forall later | later in s.jobs && later > e.id ensures s.jobs[later].dir != s.jobs[e.id].dir {
        assert Ordered(s, e.id, later);
      }
    }
    hide Ordered, Entry;
  }

  // ---- What lies in a directory ----------------------------------------------------------------

  predicate Of(jobs: map<JobId, Job>, dir: string, id: JobId) {
    id in jobs && jobs[id].dir == dir
  }

  function ByOne(id: JobId, files: set<string>): map<string, JobId> {
    map f | f in files :: id
  }

  /** What a job leaves of a directory it found in some state. */
  function Left(before: map<string, JobId>, j: Job, id: JobId): map<string, JobId> {
    if j.wiped then map[] else before + ByOne(id, j.wrote) - j.removed
  }

  /** The directory after its jobs, run one after another in the order they were registered. */
  function Serial(jobs: map<JobId, Job>, n: JobId, dir: string): map<string, JobId>
    decreases if n < 0 then 0 else n
  {
    if n <= 0 then map[]
    else if Of(jobs, dir, n - 1) then Left(Serial(jobs, n - 1, dir), jobs[n - 1], n - 1)
    else Serial(jobs, n - 1, dir)
  }

  /** Two tables in which the jobs of a directory did the same to it. */
  ghost predicate SameDeeds(jobs: map<JobId, Job>, jobs': map<JobId, Job>, n: JobId, dir: string) {
    forall id :: 0 <= id < n ==>
      && (Of(jobs, dir, id) <==> Of(jobs', dir, id))
      && (Of(jobs, dir, id) ==> SameDeed(jobs[id], jobs'[id]))
  }

  predicate SameDeed(j: Job, j': Job) {
    j'.wrote == j.wrote && j'.removed == j.removed && j'.wiped == j.wiped
  }

  lemma {:induction false} SerialSame(jobs: map<JobId, Job>, jobs': map<JobId, Job>, n: JobId, dir: string)
    requires SameDeeds(jobs, jobs', n, dir)
    ensures Serial(jobs', n, dir) == Serial(jobs, n, dir)
    decreases if n < 0 then 0 else n
  {
    if n > 0 { SerialSame(jobs, jobs', n - 1, dir); }
  }

  /** The newest job of the directory has the last word. */
  lemma {:induction false} SerialNewest(jobs: map<JobId, Job>, n: JobId, dir: string, id: JobId)
    requires 0 <= id < n && Of(jobs, dir, id)
    requires forall later :: id < later < n ==> !Of(jobs, dir, later)
    ensures Serial(jobs, n, dir) == Left(Serial(jobs, id, dir), jobs[id], id)
  {
    if n - 1 > id { SerialNewest(jobs, n - 1, dir, id); }
  }

  ghost predicate DiskIsSerial(s: State, dir: string) {
    Files(s.disk, dir) == Serial(s.jobs, s.next, dir)
  }

  lemma SerialStep(s: State, e: Event, dir: string)
    requires Owned(s) && DiskIsSerial(s, dir) && Enabled(s, e)
    ensures DiskIsSerial(Next(s, e), dir)
  {
    if Touching(e) && s.jobs[e.id].dir == dir {
      TouchStep(s, e);
    } else if e.Start? && s.requests[e.r] == dir && dir !in s.registry {
      StartStep(s, e);
    } else {
      ElsewhereStep(s, e, dir);
    }
    hide Owned, Left, Files, SameDeed, Next, DiskIsSerial;
  }

  lemma ElsewhereStep(s: State, e: Event, dir: string)
    requires Owned(s) && DiskIsSerial(s, dir) && Enabled(s, e)
    requires Touching(e) ==> s.jobs[e.id].dir != dir
    requires e.Start? ==> s.requests[e.r] != dir || dir in s.registry
    ensures DiskIsSerial(Next(s, e), dir)
  {
    var s' := Next(s, e);
    DeedsElsewhere(s, e, dir);
    SerialSame(s.jobs, s'.jobs, s.next, dir);
    hide Owned, Left, Files, SameDeeds, Next;
  }

  lemma DeedsElsewhere(s: State, e: Event, dir: string)
    requires 0 <= s.next && Enabled(s, e)
    requires Touching(e) ==> s.jobs[e.id].dir != dir
    requires e.Start? ==> s.requests[e.r] != dir || dir in s.registry
    ensures
      var s' := Next(s, e);
      && Files(s'.disk, dir) == Files(s.disk, dir) && SameDeeds(s.jobs, s'.jobs, s.next, dir)
      && 0 <= s.next && (s'.next == s.next || (s'.next == s.next + 1 && !Of(s'.jobs, dir, s.next)))
  {
  }

  lemma StartStep(s: State, e: Event)
    requires Owned(s) && Enabled(s, e) && e.Start? && s.requests[e.r] !in s.registry && DiskIsSerial(s, s.requests[e.r])
    ensures DiskIsSerial(Next(s, e), s.requests[e.r])
  {
    var dir := s.requests[e.r];
    var s' := Next(s, e);
    assert SameDeeds(s.jobs, s'.jobs, s.next, dir);
    SerialSame(s.jobs, s'.jobs, s.next, dir);
    assert ByOne(s.next, {}) == map[];
    hide Files;
  }

  lemma TouchStep(s: State, e: Event)
    requires Owned(s) && Enabled(s, e) && Touching(e) && DiskIsSerial(s, s.jobs[e.id].dir)
    ensures DiskIsSerial(Next(s, e), s.jobs[e.id].dir)
  {
    var s', dir := Next(s, e), s.jobs[e.id].dir;
    assert JobOk(s, e.id);
    TouchFacts(s, e);
    SerialNewest(s.jobs, s.next, dir, e.id);
    SerialNewest(s'.jobs, s'.next, dir, e.id);
    SerialSame(s.jobs, s'.jobs, e.id, dir);
    LeftStep(Serial(s.jobs, e.id, dir), s, e);
    hide Serial, Owned, Next, Enabled, Left, SameDeeds, Files;
  }

  lemma TouchFacts(s: State, e: Event)
    requires Owned(s) && Enabled(s, e) && Touching(e)
    ensures
      var s', dir := Next(s, e), s.jobs[e.id].dir;
      && 0 <= e.id < s.next == s'.next && Of(s.jobs, dir, e.id) && Of(s'.jobs, dir, e.id)
      && (forall later :: e.id < later < s.next ==> !Of(s.jobs, dir, later) && !Of(s'.jobs, dir, later))
      && SameDeeds(s.jobs, s'.jobs, e.id, dir)
  {
    assert JobOk(s, e.id);
    var dir := s.jobs[e.id].dir;
    forall later | e.id < later < s.next ensures !Of(s.jobs, dir, later) {
      if later in s.jobs { assert Ordered(s, e.id, later); }
    }
    hide Entry, Files;
  }

  /** What a step adds to or takes from a directory it adds to or takes from what the job leaves there. */
  lemma LeftStep(before: map<string, JobId>, s: State, e: Event)
    requires Enabled(s, e) && Touching(e) && JobOk(s, e.id)
    requires Files(s.disk, s.jobs[e.id].dir) == Left(before, s.jobs[e.id], e.id)
    ensures var s' := Next(s, e); Files(s'.disk, s.jobs[e.id].dir) == Left(before, s'.jobs[e.id], e.id)
  {
  }

  /** Over every run a directory holds what its jobs, one after another, would have left. */
  lemma {:induction false} DirectoriesAreSerial(es: seq<Event>, dir: string)
    ensures DiskIsSerial(RunAll(EMPTY, es), dir)
  {
    hide Next, Enabled;
    if es != [] {
      var s := RunAll(EMPTY, es[..|es| - 1]);
      DirectoriesAreSerial(es[..|es| - 1], dir);
      AlwaysOwned(es[..|es| - 1]);
      if Enabled(s, es[|es| - 1]) {
        SerialStep(s, es[|es| - 1], dir);
      } else {
        Disabled(s, es[|es| - 1]);
      }
    }
  }

  lemma Disabled(s: State, e: Event)
    requires !Enabled(s, e)
    ensures Next(s, e) == s
  {
  }

  // ---- The file of one name ---------------------------------------------------------------------

  predicate Touches(jobs: map<JobId, Job>, dir: string, id: JobId, f: string) {
    Of(jobs, dir, id) && (jobs[id].wiped || f in jobs[id].wrote || f in jobs[id].removed)
  }

  /** The job wrote the file, and neither it nor a later job of the directory removed or replaced it. */
  ghost predicate Survives(jobs: map<JobId, Job>, n: JobId, dir: string, id: JobId, f: string) {
    && 0 <= id < n && Of(jobs, dir, id)
    && !jobs[id].wiped && f in jobs[id].wrote && f !in jobs[id].removed
    && forall later :: id < later < n ==> !Touches(jobs, dir, later, f)
  }

  lemma {:induction false} SerialAuthor(jobs: map<JobId, Job>, n: JobId, dir: string, f: string)
    requires f in Serial(jobs, n, dir)
    ensures Survives(jobs, n, dir, Serial(jobs, n, dir)[f], f)
    decreases if n < 0 then 0 else n
  {
    if n > 0 && !Touches(jobs, dir, n - 1, f) { SerialAuthor(jobs, n - 1, dir, f); }
  }

  lemma {:induction false} SerialHolds(jobs: map<JobId, Job>, n: JobId, dir: string, id: JobId, f: string)
    requires Survives(jobs, n, dir, id, f)
    ensures f in Serial(jobs, n, dir) && Serial(jobs, n, dir)[f] == id
    decreases if n < 0 then 0 else n
  {
    if id < n - 1 {
      assert !Touches(jobs, dir, n - 1, f);
      SerialHolds(jobs, n - 1, dir, id, f);
    }
  }

  /** Over every run: a file is there, by a job, exactly if that job wrote it and nothing of the directory
      removed or replaced it since. */
  lemma FileIsLastWriters(es: seq<Event>, dir: string, f: string, id: JobId)
    ensures
      var s := RunAll(EMPTY, es);
      f in Files(s.disk, dir) && Files(s.disk, dir)[f] == id <==> Survives(s.jobs, s.next, dir, id, f)
  {
    DirectoriesAreSerial(es, dir);
    var s := RunAll(EMPTY, es);
    hide RunAll, Serial, Survives;
    if f in Files(s.disk, dir) { SerialAuthor(s.jobs, s.next, dir, f); }
    if Survives(s.jobs, s.next, dir, id, f) { SerialHolds(s.jobs, s.next, dir, id, f); }
  }

  // ---- Complete streams ------------------------------------------------------------------------

  /** A manifest of a job whose transcoder ended well, with all the files that job wrote. */
  predicate Complete(s: State, dir: string) {
    var files := Files(s.disk, dir);
    && MANIFEST in files
    && var id := files[MANIFEST];
    && id in s.jobs && s.jobs[id].completed
    && forall f :: f in s.jobs[id].wrote ==> f in files && files[f] == id
  }

  /** A job that completed, none of whose files a later job of the directory touched. */
  ghost predicate Stream(s: State, dir: string, id: JobId) {
    && Of(s.jobs, dir, id) && s.jobs[id].completed
    && forall later, f :: id < later < s.next && f in s.jobs[id].wrote ==> !Touches(s.jobs, dir, later, f)
  }

  lemma StreamIsComplete(es: seq<Event>, dir: string, id: JobId)
    ensures var s := RunAll(EMPTY, es); Stream(s, dir, id) ==> Complete(s, dir) && Files(s.disk, dir)[MANIFEST] == id
  {
    var s := RunAll(EMPTY, es);
    AlwaysOwned(es);
    if Stream(s, dir, id) {
      assert JobOk(s, id);
      forall f | f in s.jobs[id].wrote ensures f in Files(s.disk, dir) && Files(s.disk, dir)[f] == id {
        FileIsLastWriters(es, dir, f, id);
      }
    }
    hide RunAll, Ordered, Entry, Files;
  }

  lemma CompleteIsStream(es: seq<Event>, dir: string)
    ensures var s := RunAll(EMPTY, es); Complete(s, dir) ==> Stream(s, dir, Files(s.disk, dir)[MANIFEST])
  {
    var s := RunAll(EMPTY, es);
    if Complete(s, dir) {
      var id := Files(s.disk, dir)[MANIFEST];
      FileIsLastWriters(es, dir, MANIFEST, id);
      forall later, f | id < later < s.next && f in s.jobs[id].wrote ensures !Touches(s.jobs, dir, later, f) {
        FileIsLastWriters(es, dir, f, id);
      }
    }
    hide RunAll, Files, Touches;
  }

  /** A directory holds a complete stream exactly if one of its jobs completed and no later one of its jobs,
      at work or ended, removed or replaced a file of it. */
  lemma CompleteIff(es: seq<Event>, dir: string)
    ensures var s := RunAll(EMPTY, es); Complete(s, dir) <==> exists id :: Stream(s, dir, id)
  {
    var s := RunAll(EMPTY, es);
    CompleteIsStream(es, dir);
    if id :| Stream(s, dir, id) { StreamIsComplete(es, dir, id); }
    hide RunAll, Stream, Complete;
  }

  // ---- What a crash leaves ---------------------------------------------------------------------

  /** The job neither completed nor removed its directory, and a crash took it. */
  predicate CutOff(s: State, dir: string, id: JobId) {
    Of(s.jobs, dir, id) && s.jobs[id].phase == Lost && !Settled(s.jobs[id])
  }

  predicate SettledOf(s: State, dir: string, id: JobId) {
    Of(s.jobs, dir, id) && Settled(s.jobs[id])
  }

  /** No job after this one has completed or removed the directory. */
  ghost predicate Unrepaired(s: State, dir: string, id: JobId) {
    forall later :: later > id ==> !SettledOf(s, dir, later)
  }

  /** The stream a job found: that of the newest job before it that completed or removed the directory, if
      that one completed. */
  ghost predicate Standing(s: State, dir: string, stream: JobId, id: JobId) {
    && stream < id && Of(s.jobs, dir, stream) && s.jobs[stream].completed
    && forall between :: stream < between < id ==> !SettledOf(s, dir, between)
  }

  predicate Disturbs(s: State, id: JobId, stream: JobId)
    requires id in s.jobs && stream in s.jobs
  {
    exists f :: f in s.jobs[stream].wrote && (f in s.jobs[id].wrote || f in s.jobs[id].removed)
  }

  /** A job cut off by a crash, not repaired since, that touched a file of the stream it found, or touched
      any file where it found none. */
  ghost predicate Spoils(s: State, dir: string, id: JobId) {
    && CutOff(s, dir, id) && Unrepaired(s, dir, id)
    && (s.jobs[id].wrote != {} || s.jobs[id].removed != {})
    && forall stream :: Standing(s, dir, stream, id) ==> Disturbs(s, id, stream)
  }

  lemma DeadIsSettledOrCut(s: State, dir: string, id: JobId)
    requires Owned(s) && dir !in s.registry && Of(s.jobs, dir, id)
    ensures SettledOf(s, dir, id) || CutOff(s, dir, id)
  {
    assert JobOk(s, id);
  }

  /** The newest of the first n jobs that completed or removed the directory; -1 if there is none. */
  lemma {:induction false} NewestSettled(s: State, dir: string, n: JobId) returns (id: JobId)
    ensures id == -1 || (0 <= id < n && SettledOf(s, dir, id))
    ensures forall later :: 0 <= later && id < later < n ==> !SettledOf(s, dir, later)
    decreases if n < 0 then 0 else n
  {
    if n <= 0 { return -1; }
    if SettledOf(s, dir, n - 1) { return n - 1; }
    id := NewestSettled(s, dir, n - 1);
    hide SettledOf;
  }

  lemma SpoiledIsIncomplete(s: State, dir: string, id: JobId, stream: JobId)
    requires Owned(s) && Spoils(s, dir, id)
    ensures !Stream(s, dir, stream)
  {
    if Of(s.jobs, dir, stream) && s.jobs[stream].completed {
      assert SettledOf(s, dir, stream) && JobOk(s, stream) && JobOk(s, id);
      if Standing(s, dir, stream, id) {
        var f :| f in s.jobs[stream].wrote && (f in s.jobs[id].wrote || f in s.jobs[id].removed);
        assert Touches(s.jobs, dir, id, f);
      } else {
        var between :| stream < between < id && SettledOf(s, dir, between);
        SettledTouches(s, dir, between);
      }
    }
    hide Ordered, Entry;
  }

  /** A job that completed wrote the manifest, and one that removed the directory removed it. */
  lemma SettledTouches(s: State, dir: string, id: JobId)
    requires Owned(s) && SettledOf(s, dir, id)
    ensures Touches(s.jobs, dir, id, MANIFEST) && 0 <= id < s.next
  {
    assert JobOk(s, id);
  }

  /** Where nothing spoiled a directory, the newest job that completed or removed it decides. */
  lemma NewestDecides(s: State, dir: string, newest: JobId, id: JobId, f: string)
    requires Owned(s) && dir !in s.registry && 0 <= newest && SettledOf(s, dir, newest) && Unrepaired(s, dir, newest)
    requires newest < id && Touches(s.jobs, dir, id, f) && (s.jobs[newest].completed ==> f in s.jobs[newest].wrote)
    ensures Spoils(s, dir, id)
  {
    assert JobOk(s, newest);
    DeadIsSettledOrCut(s, dir, id);
    forall stream | Standing(s, dir, stream, id) ensures Disturbs(s, id, stream) {
      StandingIsNewest(s, dir, stream, id, newest);
      assert f in s.jobs[stream].wrote;
    }
    hide Ordered, Entry;
  }

  lemma StandingIsNewest(s: State, dir: string, stream: JobId, id: JobId, newest: JobId)
    requires SettledOf(s, dir, newest) && Unrepaired(s, dir, newest) && newest < id && Standing(s, dir, stream, id)
    ensures stream == newest
  {
    assert SettledOf(s, dir, stream);
  }

  /** With crashes: a directory with no registered job that is not empty is not a complete stream exactly if
      some job of it was cut off by a crash after touching it, with no later job of it having ended. */
  lemma IncompleteIff(es: seq<Event>, dir: string)
    ensures
      var s := RunAll(EMPTY, es);
      dir !in s.registry && Files(s.disk, dir) != map[] ==> (!Complete(s, dir) <==> exists id :: Spoils(s, dir, id))
  {
    var s := RunAll(EMPTY, es);
    AlwaysOwned(es);
    CompleteIff(es, dir);
    if dir !in s.registry && Files(s.disk, dir) != map[] {
      if id :| Spoils(s, dir, id) {
        forall stream ensures !Stream(s, dir, stream) { SpoiledIsIncomplete(s, dir, id, stream); }
      } else {
        var f :| f in Files(s.disk, dir);
        FileIsLastWriters(es, dir, f, Files(s.disk, dir)[f]);
        var _ := SomeStream(s, dir, Files(s.disk, dir)[f], f);
      }
    }
    hide RunAll, Complete, Stream, Spoils, Files, Owned, Survives;
  }

  lemma SomeStream(s: State, dir: string, author: JobId, f: string) returns (id: JobId)
    requires Owned(s) && dir !in s.registry && Survives(s.jobs, s.next, dir, author, f)
    requires forall id :: !Spoils(s, dir, id)
    ensures Stream(s, dir, id)
  {
    id := NewestSettled(s, dir, s.next);
    NothingBeyond(s, dir, id);
    if id == -1 || s.jobs[id].wiped {
      assert id != -1 ==> Touches(s.jobs, dir, id, f);
      AuthorSpoils(s, dir, author, f, id);
    } else {
      forall later, g | id < later < s.next && g in s.jobs[id].wrote ensures !Touches(s.jobs, dir, later, g) {
        if Touches(s.jobs, dir, later, g) { NewestDecides(s, dir, id, later, g); }
      }
    }
    hide Ordered, Entry, Spoils;
  }

  lemma NothingBeyond(s: State, dir: string, id: JobId)
    requires Owned(s) && forall later :: 0 <= later && id < later < s.next ==> !SettledOf(s, dir, later)
    ensures Unrepaired(s, dir, id)
  {
    forall later | later > id ensures !SettledOf(s, dir, later) {
      if later in s.jobs { assert JobOk(s, later); }
    }
    hide Ordered, Entry;
  }

  lemma AuthorSpoils(s: State, dir: string, author: JobId, f: string, newest: JobId)
    requires Owned(s) && dir !in s.registry && Survives(s.jobs, s.next, dir, author, f)
    requires newest < author && Unrepaired(s, dir, newest)
    requires newest == -1 || (SettledOf(s, dir, newest) && s.jobs[newest].wiped)
    ensures Spoils(s, dir, author)
  {
    DeadIsSettledOrCut(s, dir, author);
    forall stream ensures !Standing(s, dir, stream, author) { NothingStands(s, dir, stream, author, newest); }
    hide Ordered, Entry;
  }

  lemma NothingStands(s: State, dir: string, stream: JobId, id: JobId, newest: JobId)
    requires Owned(s) && Unrepaired(s, dir, newest) && newest < id
    requires newest == -1 || (SettledOf(s, dir, newest) && s.jobs[newest].wiped)
    ensures !Standing(s, dir, stream, id)
  {
    if SettledOf(s, dir, stream) {
      assert JobOk(s, stream);
    }
    hide Ordered, Entry;
  }

  lemma {:induction false} NoneLost(es: seq<Event>, id: JobId)
    requires CrashFree(es)
    ensures id in RunAll(EMPTY, es).jobs ==> RunAll(EMPTY, es).jobs[id].phase != Lost
  {
    if es != [] {
      NoneLost(es[..|es| - 1], id);
    }
    hide Files;
  }

  /** Without crashes a directory with no registered job is empty or a complete stream, and all of it was
      written by jobs whose transcoder ended well. */
  lemma LeftoversAreComplete(es: seq<Event>, dir: string)
    requires CrashFree(es)
    ensures
      var s := RunAll(EMPTY, es);
      var files := Files(s.disk, dir);
      dir !in s.registry && files != map[] ==>
        && Complete(s, dir)
        && (forall f :: f in files ==> Of(s.jobs, dir, files[f]) && s.jobs[files[f]].completed)
  {
    var s := RunAll(EMPTY, es);
    AlwaysOwned(es);
    IncompleteIff(es, dir);
    forall id ensures !CutOff(s, dir, id) { NoneLost(es, id); }
    forall f | f in Files(s.disk, dir) && dir !in s.registry
      ensures Of(s.jobs, dir, Files(s.disk, dir)[f]) && s.jobs[Files(s.disk, dir)[f]].completed {
      FileIsLastWriters(es, dir, f, Files(s.disk, dir)[f]);
      DeadIsSettledOrCut(s, dir, Files(s.disk, dir)[f]);
    }
    hide RunAll, Complete, Owned, Files, CutOff;
  }
}
