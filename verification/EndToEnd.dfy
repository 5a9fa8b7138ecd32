/** Resumable uploads and the job engine together: what a job recorded as a success delivered. */
module EndToEnd {
  import opened Wrappers
  import opened Schedule
  import opened JobRows
  import opened JobEngine
  import opened JobOwnership
  import opened JobCache
  import U = Upload
  import P = UploadProofs

  /** The upload store with its history, and the job engine. The temp file of an upload handed over to a job
      is one file on disk: the engine knows it by the upload's id. */
  datatype System = System(uploads: P.World, jobs: State)

  datatype Happening =
    | OnUpload(e: P.Event, job: JobId)
    | OnJobs(a: Action)

  /** The request creates a cloud job. */
  predicate HandsOver(w: P.World, e: P.Event) {
    P.Completes(w.store, e) && w.store.records[e.id].meta.cloud && e.env.finalize.Resolved?
  }

  /** A request runs against the upload store, with every failure and crash point; job identifiers never
      repeat. Job steps other than the insert of a job run against the engine; nobody but the two parts
      changes the files. */
  predicate Enabled(sys: System, m: Happening) {
    match m
    case OnUpload(e, job) => HandsOver(sys.uploads, e) ==> job !in sys.jobs.issued
    case OnJobs(a) => !(a.Submit? && a.task.Sync?) && !a.Disturb?
  }

  /** What a request means for the engine: a new job with the finished file, a change under the file of a
      job that exists, or nothing. */
  function JobSide(cal: Calendar, sys: System, e: P.Event, job: JobId): State {
    var w, w' := sys.uploads, P.Next(sys.uploads, e);
    if HandsOver(w, e) then Step(cal, sys.jobs, Submit(job, Sync(e.id), P.FinalFile(w.store, e)))
    else if HasJob(sys.jobs.log.submitted, e.id) && Lookup(w'.store.temps, e.id) != Lookup(w.store.temps, e.id)
    then Step(cal, sys.jobs, Disturb(e.id, Lookup(w'.store.temps, e.id)))
    else sys.jobs
  }

  /** The temp files that are still on disk after a job step. */
  function Kept(temps: map<U.UploadId, Bytes>, s: State): map<U.UploadId, Bytes> {
    map u | u in temps && (HasJob(s.log.submitted, u) ==> u in s.files) :: temps[u]
  }

  function UploadSide(w: P.World, s: State): P.World {
    w.(store := w.store.(temps := Kept(w.store.temps, s)))
  }

  function Advance(cal: Calendar, sys: System, m: Happening): System {
    if !Enabled(sys, m) then sys
    else
      match m
      case OnUpload(e, job) => System(P.Next(sys.uploads, e), JobSide(cal, sys, e, job))
      case OnJobs(a) => System(UploadSide(sys.uploads, Step(cal, sys.jobs, a)), Step(cal, sys.jobs, a))
  }

  function RunBoth(cal: Calendar, sys: System, ms: seq<Happening>): System {
    if ms == [] then sys else Advance(cal, RunBoth(cal, sys, ms[..|ms| - 1]), ms[|ms| - 1])
  }

  ghost predicate Start(sys: System) {
    sys.uploads == P.EMPTY && Init(sys.jobs)
  }

  /** Of an upload that has a job: it has a record only after a crash between the creation of a job and the
      removal of the record; and as long as nothing touched it after such a crash, it has one job, whose
      file is complete. */
  ghost predicate Clean(w: P.World, log: Log, i: JobId)
    requires i in log.submitted
  {
    var u := log.submitted[i].path;
    && u in w.issued
    && (u in w.store.records ==> P.WindowCrashes(w, u) > 0)
    && (u !in w.touched ==> u !in log.shared && P.Complete(w, u, log.submitted[i].bytes))
  }

  /** No crash hit the upload between the creation of its job and the removal of its record, or no PATCH or
      DELETE has taken effect on it since. */
  ghost predicate Undisturbed(w: P.World, u: U.UploadId) {
    P.WindowCrashes(w, u) == 0 || u !in w.touched
  }

  lemma UndisturbedIsUntouched(w: P.World, u: U.UploadId)
    requires P.PrefixInv(w) && Undisturbed(w, u)
    ensures u !in w.touched
  {
  }

  ghost predicate HandedOver(w: P.World, log: Log) {
    forall i :: i in log.submitted ==> Clean(w, log, i)
  }

  /** The two views of the file of an upload that has a job agree. */
  ghost predicate OneDisk(temps: map<U.UploadId, Bytes>, s: State) {
    forall u :: HasJob(s.log.submitted, u) ==> Lookup(temps, u) == Lookup(s.files, u)
  }

  ghost predicate SystemInv(sys: System) {
    && P.PrefixInv(sys.uploads)
    && Owned(sys.jobs) && CacheInv(sys.jobs)
    && HandedOver(sys.uploads, sys.jobs.log)
    && OneDisk(sys.uploads.store.temps, sys.jobs)
  }

  // ---- Requests --------------------------------------------------------------------------------

  /** A request keeps what is known of uploads handed over before. */
  lemma HandedOverStays(w: P.World, e: P.Event, log: Log)
    requires HandedOver(w, log)
    ensures HandedOver(P.Next(w, e), log)
  {
    forall i | i in log.submitted ensures Clean(P.Next(w, e), log, i) {
      CleanStays(w, e, log, i);
    }
    hide P.Next, Clean;
  }

  lemma CleanStays(w: P.World, e: P.Event, log: Log, i: JobId)
    requires i in log.submitted && Clean(w, log, i)
    ensures Clean(P.Next(w, e), log, i)
  {
    var u := log.submitted[i].path;
    P.CrashesGrow(w, e, u);
    if u !in w.store.records {
      P.DoneStep(w, e, u);
    } else {
      UntouchedStays(w, e, u);
    }
    hide P.Next, P.WindowCrashes;
  }

  /** After a crash in the window, an upload changes only when it is touched. */
  lemma UntouchedStays(w: P.World, e: P.Event, u: U.UploadId)
    requires u in w.issued && P.WindowCrashes(w, u) > 0
    ensures u in w.touched ==> u in P.Next(w, e).touched
    ensures
      var w' := P.Next(w, e);
      u !in w'.touched ==>
        && Lookup(w'.store.temps, u) == Lookup(w.store.temps, u)
        && P.Accepted(w', u) == P.Accepted(w, u) && (u in w.overran <==> u in w'.overran)
        && Lookup(w'.lengths, u) == Lookup(w.lengths, u)
  {
    if e.Patch? && e.id != u {
      P.PatchLeavesOthers(w.store, e, u);
    } else if e.Patch? && !P.Writes(w.store, e) {
      NothingWritten(w.store, e);
    }
    hide U.PatchStore, P.Delivers;
  }

  lemma NothingWritten(st: U.Store, e: P.Event)
    requires e.Patch? && !P.Writes(st, e)
    ensures U.PatchStore(st, e.id, e.header, e.body, e.env).0 == st && !P.Accepts(st, e) && !P.Overruns(st, e)
  {
  }

  /** Only a request on an upload changes its temp file. */
  lemma OtherTempsStay(w: P.World, e: P.Event, u: U.UploadId)
    requires u != e.id
    ensures Lookup(P.Next(w, e).store.temps, u) == Lookup(w.store.temps, u)
  {
    if e.Patch? {
      P.PatchLeavesOthers(w.store, e, u);
    }
    hide U.PatchStore, P.Delivers, P.Accepts, P.Overruns;
  }

  /** The finished file is the temp file. */
  lemma FinishedFile(w: P.World, e: P.Event)
    requires HandsOver(w, e)
    ensures Lookup(P.Next(w, e).store.temps, e.id) == Some(P.FinalFile(w.store, e)) && e.id in w.store.records
  {
    hide U.WriteAt, U.Written;
  }

  /** What a new job does to the engine. */
  lemma SubmitResult(cal: Calendar, s: State, id: JobId, path: Path, bytes: Bytes)
    requires id !in s.issued
    ensures
      var s' := Step(cal, s, Submit(id, Sync(path), bytes));
      && s'.log.submitted == s.log.submitted[id := Parcel(path, bytes)] && s'.files == s.files[path := bytes]
      && s'.log.shared == if HasJob(s.log.submitted, path) then s.log.shared + {path} else s.log.shared
  {
    hide Exec, PoolsAfter, RegAfter, AcceptedAfter, ResumesAfter, OrphansAfter, Fired, HasJob;
  }

  lemma DisturbResult(cal: Calendar, s: State, path: Path, file: Option<Bytes>)
    ensures
      var s' := Step(cal, s, Disturb(path, file));
      && s'.log.submitted == s.log.submitted && s'.log.shared == s.log.shared + {path}
      && s'.files == if file.Some? then s.files[path := file.value] else s.files - {path}
  {
    hide Exec, PoolsAfter, RegAfter, AcceptedAfter, ResumesAfter, OrphansAfter, Fired;
  }

  /** Both kinds of engine step keep the engine's invariants. */
  lemma EngineStep(cal: Calendar, s: State, a: Action)
    requires Owned(s) && CacheInv(s)
    ensures Owned(Step(cal, s, a)) && CacheInv(Step(cal, s, a))
  {
    hide Step, Hold, RegistryInv, CacheInv;
    HoldStep(cal, s, a);
    RegStep(cal, s, a);
    CacheStep(cal, s, a);
  }

  lemma NewJobIsClean(w: P.World, e: P.Event, job: JobId, log: Log, log': Log)
    requires P.PrefixInv(w) && HandsOver(w, e) && HandedOver(w, log) && job !in log.submitted
    requires log'.submitted == log.submitted[job := Parcel(e.id, P.FinalFile(w.store, e))]
    requires log'.shared == if HasJob(log.submitted, e.id) then log.shared + {e.id} else log.shared
    requires e.id !in log.shared || HasJob(log.submitted, e.id)
    ensures HandedOver(P.Next(w, e), log')
  {
    HandedOverStays(w, e, log);
    P.CrashesGrow(w, e, e.id);
    HandOverFacts(w, e);
    var w' := P.Next(w, e);
    forall i | i in log'.submitted ensures Clean(w', log', i) {
      if i == job {
        NewJob(w, e, job, log, log');
      } else {
        assert Clean(w, log, i) && Clean(w', log, i);
      }
    }
    hide P.Next, P.FinalFile, P.Complete, P.WindowCrashes, P.PrefixInv;
  }

  lemma NewJob(w: P.World, e: P.Event, job: JobId, log: Log, log': Log)
    requires P.PrefixInv(w) && HandsOver(w, e) && HandedOver(w, log)
    requires job in log'.submitted && log'.submitted[job] == Parcel(e.id, P.FinalFile(w.store, e))
    requires log'.shared == if HasJob(log.submitted, e.id) then log.shared + {e.id} else log.shared
    requires e.id !in log.shared || HasJob(log.submitted, e.id)
    ensures Clean(P.Next(w, e), log', job)
  {
    HandOverFacts(w, e);
    if HasJob(log.submitted, e.id) {
      var i :| i in log.submitted && log.submitted[i].path == e.id;
      assert Clean(w, log, i);
    } else if P.WindowCrashes(w, e.id) == 0 {
      assert P.UploadOk(w, e.id);
      P.FinishedIsComplete(w, e);
    }
    hide P.Next, P.FinalFile, P.Complete, P.WindowCrashes, P.PrefixInv, P.HasFile;
  }

  /** A request that creates a job touches its upload if a crash hit its window before, and leaves the
      record only by such a crash. */
  lemma HandOverFacts(w: P.World, e: P.Event)
    requires P.PrefixInv(w) && HandsOver(w, e)
    ensures
      var w' := P.Next(w, e);
      && e.id in w.store.records && w.store.records[e.id].Readable? && e.id in w'.issued
      && (P.WindowCrashes(w, e.id) > 0 ==> e.id in w'.touched)
      && (e.id in w'.store.records ==> P.WindowCrashes(w', e.id) > 0)
  {
    P.PatchQueue(w.store, e);
    hide U.PatchStore, U.WriteAt, U.Written;
  }

  /** A file is shared only if it belongs to a job. */
  ghost predicate SharedHaveJobs(log: Log) {
    forall p :: p in log.shared ==> HasJob(log.submitted, p)
  }

  lemma HandOverPart(cal: Calendar, sys: System, e: P.Event, job: JobId)
    requires SystemInv(sys) && SharedHaveJobs(sys.jobs.log) && HandsOver(sys.uploads, e) && job !in sys.jobs.issued
    ensures
      var sys' := Advance(cal, sys, OnUpload(e, job));
      SystemInv(sys') && SharedHaveJobs(sys'.jobs.log)
  {
    var w, s, file := sys.uploads, sys.jobs, P.FinalFile(sys.uploads.store, e);
    hide Step, P.Next, P.FinalFile, P.PrefixInv, Owned, CacheInv, HandedOver, HasJob, OneDisk, HandsOver;
    var a := Submit(job, Sync(e.id), file);
    var s' := Step(cal, s, a);
    NotSubmitted(s, job);
    P.PrefixStep(w, e);
    EngineStep(cal, s, a);
    SubmitResult(cal, s, job, e.id, file);
    NewJobIsClean(w, e, job, s.log, s'.log);
    NewJobDisk(w, e, job, s, s');
    forall p | p in s'.log.shared ensures HasJob(s'.log.submitted, p) {
      StillJob(s.log.submitted, job, Parcel(e.id, file), p);
    }
  }

  lemma NewJobDisk(w: P.World, e: P.Event, job: JobId, s: State, s': State)
    requires OneDisk(w.store.temps, s) && HandsOver(w, e) && job !in s.log.submitted
    requires s'.log.submitted == s.log.submitted[job := Parcel(e.id, P.FinalFile(w.store, e))]
    requires s'.files == s.files[e.id := P.FinalFile(w.store, e)]
    ensures OneDisk(P.Next(w, e).store.temps, s')
  {
    FinishedFile(w, e);
    hide P.Next, P.FinalFile, HandsOver, HasJob;
    forall u | HasJob(s'.log.submitted, u) ensures Lookup(P.Next(w, e).store.temps, u) == Lookup(s'.files, u) {
      if u != e.id {
        OtherTempsStay(w, e, u);
        OldJob(s.log.submitted, job, Parcel(e.id, P.FinalFile(w.store, e)), u);
      }
    }
  }

  lemma NotSubmitted(s: State, job: JobId)
    requires CacheInv(s) && job !in s.issued
    ensures job !in s.log.submitted
  {
  }

  lemma OldJob(submitted: map<JobId, Parcel>, job: JobId, parcel: Parcel, u: Path)
    requires job !in submitted && parcel.path != u && HasJob(submitted[job := parcel], u)
    ensures HasJob(submitted, u)
  {
    var i :| i in submitted[job := parcel] && submitted[job := parcel][i].path == u;
    assert i in submitted && submitted[i].path == u;
  }

  lemma StillJob(submitted: map<JobId, Parcel>, job: JobId, parcel: Parcel, u: Path)
    requires job !in submitted
    ensures HasJob(submitted, u) || parcel.path == u ==> HasJob(submitted[job := parcel], u)
  {
    var after := submitted[job := parcel];
    if HasJob(submitted, u) {
      var i :| i in submitted && submitted[i].path == u;
      assert i in after && after[i].path == u;
    } else if parcel.path == u {
      assert job in after && after[job].path == u;
    }
  }

  lemma RequestPart(cal: Calendar, sys: System, e: P.Event, job: JobId)
    requires SystemInv(sys) && SharedHaveJobs(sys.jobs.log) && !HandsOver(sys.uploads, e)
    ensures
      var sys' := Advance(cal, sys, OnUpload(e, job));
      SystemInv(sys') && SharedHaveJobs(sys'.jobs.log)
  {
    hide Step, P.Next, P.PrefixInv, Owned, CacheInv, HandedOver, HasJob, OneDisk, HandsOver;
    var w, s := sys.uploads, sys.jobs;
    var w' := P.Next(w, e);
    P.PrefixStep(w, e);
    HandedOverStays(w, e, s.log);
    var file := Lookup(w'.store.temps, e.id);
    if HasJob(s.log.submitted, e.id) && file != Lookup(w.store.temps, e.id) {
      var a := Disturb(e.id, file);
      EngineStep(cal, s, a);
      DisturbResult(cal, s, e.id, file);
      DisturbedIsClean(w, e, s.log, Step(cal, s, a).log);
    }
    RequestDisk(w, e, s, JobSide(cal, sys, e, job));
  }

  lemma RequestDisk(w: P.World, e: P.Event, s: State, s': State)
    requires OneDisk(w.store.temps, s) && s'.log.submitted == s.log.submitted
    requires
      var file := Lookup(P.Next(w, e).store.temps, e.id);
      if HasJob(s.log.submitted, e.id) && file != Lookup(w.store.temps, e.id)
      then s'.files == if file.Some? then s.files[e.id := file.value] else s.files - {e.id}
      else s'.files == s.files
    ensures OneDisk(P.Next(w, e).store.temps, s')
  {
    forall u | HasJob(s'.log.submitted, u) ensures Lookup(P.Next(w, e).store.temps, u) == Lookup(s'.files, u) {
      if u != e.id {
        OtherTempsStay(w, e, u);
      }
    }
    hide P.Next, HasJob;
  }

  /** A request changes the file of a job only where a crash hit the window. */
  lemma DisturbedIsClean(w: P.World, e: P.Event, log: Log, log': Log)
    requires HandedOver(w, log) && Lookup(P.Next(w, e).store.temps, e.id) != Lookup(w.store.temps, e.id)
    requires log'.submitted == log.submitted && log'.shared == log.shared + {e.id}
    ensures HandedOver(P.Next(w, e), log')
  {
    HandedOverStays(w, e, log);
    var w' := P.Next(w, e);
    forall i | i in log'.submitted ensures Clean(w', log', i) {
      assert Clean(w, log, i) && Clean(w', log, i);
      if log.submitted[i].path == e.id {
        if e.id in w.store.records {
          UntouchedStays(w, e, e.id);
        } else {
          P.DoneStep(w, e, e.id);
        }
      }
    }
    hide P.Next, P.Complete, P.WindowCrashes;
  }

  // ---- Job steps -------------------------------------------------------------------------------

  /** A job step adds no parcel, shares no file, and its files are among those of before, unchanged. */
  lemma JobStepKeepsParcels(cal: Calendar, s: State, a: Action)
    requires !(a.Submit? && a.task.Sync?) && !a.Disturb?
    ensures Step(cal, s, a).log.submitted == s.log.submitted && Step(cal, s, a).log.shared == s.log.shared
    ensures forall p :: p in Step(cal, s, a).files ==> p in s.files && Step(cal, s, a).files[p] == s.files[p]
  {
    StepEffect(cal, s, a);
    InsertsNoParcel(cal, s, a);
    LogStep(cal, s, a);
    hide Step, EffectOf, HasJob;
  }

  /** Parcels and shared files change by the step's effect alone. */
  lemma LogStep(cal: Calendar, s: State, a: Action)
    ensures
      var log', e := Step(cal, s, a).log, EffectOf(cal, s, a);
      && log'.submitted == (if e.Insert? && e.row.task.Sync? then s.log.submitted[e.id := Parcel(e.row.task.path, e.bytes)] else s.log.submitted)
      && log'.shared == SharedPaths(s.log, e)
  {
    AsksDoNothing(s, a);
    hide WorkerMove, HandlerMove, Respond, SweepMove, CanSubmit, RunningRows, RowsAfter, IssuedAfter, PoolsAfter, RegAfter, Place,
      AcceptedAfter, ResumesAfter, OrphansAfter, Fired, HasJob, FilesAfter;
  }

  lemma AsksDoNothing(s: State, a: Action)
    ensures a.Ask? && a.id in s.rows ==> Respond(s.rows[a.id], a.op, a.id).effect.Nothing?
  {
  }

  lemma InsertsNoParcel(cal: Calendar, s: State, a: Action)
    requires !(a.Submit? && a.task.Sync?) && !a.Disturb?
    ensures var e := EffectOf(cal, s, a); (e.Insert? ==> !e.row.task.Sync?) && !e.Rewrite?
  {
    hide IsArmed, IsDue, NextTime, CatchUpTime, HasActiveSnapshot, Listing, Entries, IsOldestPending, Resumes, StatusOf, Exec;
  }

  /** Removing files of jobs leaves every upload that still counts alone. */
  lemma KeptPrefix(w: P.World, s: State)
    requires P.PrefixInv(w) && HandedOver(w, s.log)
    ensures P.PrefixInv(UploadSide(w, s))
  {
    var w' := UploadSide(w, s);
    forall id ensures P.UploadOk(w', id) {
      assert P.UploadOk(w, id);
      if HasJob(s.log.submitted, id) {
        var i :| i in s.log.submitted && s.log.submitted[i].path == id;
        assert Clean(w, s.log, i);
      }
    }
    hide P.Prefix, P.Complete;
  }

  lemma KeptHandedOver(w: P.World, s: State, log: Log)
    requires HandedOver(w, log)
    ensures HandedOver(UploadSide(w, s), log)
  {
    forall i | i in log.submitted ensures Clean(UploadSide(w, s), log, i) {
      assert Clean(w, log, i);
    }
  }

  lemma JobPart(cal: Calendar, sys: System, a: Action)
    requires SystemInv(sys) && SharedHaveJobs(sys.jobs.log) && Enabled(sys, OnJobs(a))
    ensures
      var sys' := Advance(cal, sys, OnJobs(a));
      SystemInv(sys') && SharedHaveJobs(sys'.jobs.log)
  {
    var w, s := sys.uploads, sys.jobs;
    var s' := Step(cal, s, a);
    JobStepKeepsParcels(cal, s, a);
    EngineStep(cal, s, a);
    KeptPrefix(w, s');
    KeptHandedOver(w, s', s'.log);
    KeptDisk(w.store.temps, s, s');
    hide Step, Owned, CacheInv, HandedOver, P.PrefixInv, HasJob, OneDisk, Kept;
  }

  lemma KeptDisk(temps: map<U.UploadId, Bytes>, s: State, s': State)
    requires OneDisk(temps, s) && s'.log.submitted == s.log.submitted
    requires forall p :: p in s'.files ==> p in s.files && s'.files[p] == s.files[p]
    ensures OneDisk(Kept(temps, s'), s')
  {
    forall u | HasJob(s'.log.submitted, u) ensures Lookup(Kept(temps, s'), u) == Lookup(s'.files, u) {
      assert Lookup(temps, u) == Lookup(s.files, u);
    }
    hide HasJob;
  }

  // ---- Runs ------------------------------------------------------------------------------------

  lemma SystemStep(cal: Calendar, sys: System, m: Happening)
    requires SystemInv(sys) && SharedHaveJobs(sys.jobs.log)
    ensures SystemInv(Advance(cal, sys, m)) && SharedHaveJobs(Advance(cal, sys, m).jobs.log)
  {
    hide SystemInv, Advance, HandsOver, SharedHaveJobs;
    if Enabled(sys, m) {
      match m {
        case OnUpload(e, job) =>
          if HandsOver(sys.uploads, e) {
            HandOverPart(cal, sys, e, job);
          } else {
            RequestPart(cal, sys, e, job);
          }
        case OnJobs(a) => JobPart(cal, sys, a);
      }
    } else {
      Stutters(cal, sys, m);
    }
  }

  lemma Stutters(cal: Calendar, sys: System, m: Happening)
    requires !Enabled(sys, m)
    ensures Advance(cal, sys, m) == sys
  {
    hide Step, P.Next, Enabled;
  }

  /** In every reachable state of the two parts: the upload prefix, the ownership of running rows, what is
      known of cache files, and that an upload no crash hit in the window is handed over at most once, with
      a complete file nobody touches. */
  lemma {:induction false} SystemRun(cal: Calendar, sys: System, ms: seq<Happening>)
    requires Start(sys)
    ensures SystemInv(RunBoth(cal, sys, ms)) && SharedHaveJobs(RunBoth(cal, sys, ms).jobs.log)
  {
    if ms == [] {
      assert P.PrefixInv(P.EMPTY);
      assert Owned(sys.jobs) && CacheInv(sys.jobs);
    } else {
      SystemRun(cal, sys, ms[..|ms| - 1]);
      hide Advance, SystemInv, SharedHaveJobs;
      SystemStep(cal, RunBoth(cal, sys, ms[..|ms| - 1]), ms[|ms| - 1]);
    }
  }

  /** End to end, in every interleaving of upload requests and engine steps, with all failures and crashes:
      when the job of a cloud upload is recorded a success, and no crash hit that upload between the
      creation of its job and the removal of its record, or nothing touched it since, the transfer delivered
      a file of at least the declared length whose first UploadLength bytes are the accepted PATCH bodies in
      order, and exactly those bytes if no PATCH body overran the declared length. */
  lemma SuccessDeliversUpload(cal: Calendar, sys: System, ms: seq<Happening>, job: JobId, u: U.UploadId)
    requires Start(sys)
    requires
      var e := RunBoth(cal, sys, ms);
      job in e.jobs.rows && e.jobs.rows[job].status == Status.Success && e.jobs.rows[job].task == Sync(u)
    requires Undisturbed(RunBoth(cal, sys, ms).uploads, u)
    ensures
      var e := RunBoth(cal, sys, ms);
      && job in e.jobs.log.sent && u in e.uploads.lengths
      && var sent, length, accepted := e.jobs.log.sent[job], e.uploads.lengths[u], P.Accepted(e.uploads, u);
      && |accepted| == length <= |sent| && sent[..length] == accepted
      && (u !in e.uploads.overran ==> sent == accepted)
  {
    SystemRun(cal, sys, ms);
    DeliveredIn(RunBoth(cal, sys, ms), job, u);
    hide RunBoth, SystemInv, Undisturbed, P.Accepted;
  }

  lemma DeliveredIn(e: System, job: JobId, u: U.UploadId)
    requires SystemInv(e) && Undisturbed(e.uploads, u)
    requires job in e.jobs.rows && e.jobs.rows[job].status == Status.Success && e.jobs.rows[job].task == Sync(u)
    ensures
      && job in e.jobs.log.sent && u in e.uploads.lengths
      && var sent, length, accepted := e.jobs.log.sent[job], e.uploads.lengths[u], P.Accepted(e.uploads, u);
      && |accepted| == length <= |sent| && sent[..length] == accepted
      && (u !in e.uploads.overran ==> sent == accepted)
  {
    UndisturbedIsUntouched(e.uploads, u);
    hide P.PrefixInv, Owned, P.WindowCrashes;
    assert Known(e.jobs.issued, e.jobs.log.submitted, job, e.jobs.rows[job].task);
    assert Clean(e.uploads, e.jobs.log, job);
    assert OwnFile(e.jobs.files, e.jobs.log, job);
  }

  /** The file of such an upload is kept for its job as well: as uploaded while it exists, and gone only
      after a successful transfer, a failure, or a cancel or delete request. */
  lemma UploadedFilePreserved(cal: Calendar, sys: System, ms: seq<Happening>, job: JobId)
    requires Start(sys) && job in RunBoth(cal, sys, ms).jobs.log.submitted
    ensures
      var e := RunBoth(cal, sys, ms);
      var u := e.jobs.log.submitted[job].path;
      Undisturbed(e.uploads, u) ==>
        && (u in e.jobs.files ==> P.Complete(e.uploads, u, e.jobs.files[u]))
        && (u !in e.jobs.files ==> Excused(e.jobs.log, job))
  {
    SystemRun(cal, sys, ms);
    var e := RunBoth(cal, sys, ms);
    PreservedIn(e, job);
    hide RunBoth, SystemInv, Undisturbed, P.Complete, Excused;
  }

  lemma PreservedIn(e: System, job: JobId)
    requires SystemInv(e) && job in e.jobs.log.submitted
    ensures
      var u := e.jobs.log.submitted[job].path;
      Undisturbed(e.uploads, u) ==>
        && (u in e.jobs.files ==> P.Complete(e.uploads, u, e.jobs.files[u]))
        && (u !in e.jobs.files ==> Excused(e.jobs.log, job))
  {
    if Undisturbed(e.uploads, e.jobs.log.submitted[job].path) {
      UndisturbedIsUntouched(e.uploads, e.jobs.log.submitted[job].path);
    }
    hide P.PrefixInv, Owned, P.WindowCrashes, P.Complete, Excused;
    assert Clean(e.uploads, e.jobs.log, job);
    if e.jobs.log.submitted[job].path !in e.jobs.log.shared {
      assert OwnFile(e.jobs.files, e.jobs.log, job);
    }
  }
}
