/** What the window between the creation of a job and the removal of its upload record lets happen after a
    crash: runs of uploads and engine together in which the end-to-end properties fail. */
module EndToEndScenes {
  import opened Wrappers
  import opened Schedule
  import opened JobRows
  import opened JobEngine
  import opened EndToEnd
  import Scenes = JobScenes
  import U = Upload
  import P = UploadProofs

  const UPLOAD: U.UploadId := 7
  const FIRST: JobId := 1
  const SECOND_JOB: JobId := 2

  function Lift(acts: seq<Action>): seq<Happening> {
    if acts == [] then [] else Lift(acts[..|acts| - 1]) + [OnJobs(acts[|acts| - 1])]
  }

  predicate Plain(acts: seq<Action>) {
    forall i :: 0 <= i < |acts| ==> !(acts[i].Submit? && acts[i].task.Sync?) && !acts[i].Disturb?
  }

  lemma RunBothOne(cal: Calendar, sys: System, ms: seq<Happening>, m: Happening)
    ensures RunBoth(cal, sys, ms + [m]) == Advance(cal, RunBoth(cal, sys, ms), m)
  {
    hide Advance;
    assert (ms + [m])[..|ms|] == ms;
  }

  lemma {:induction false} RunBothConcat(cal: Calendar, sys: System, ms: seq<Happening>, more: seq<Happening>)
    ensures RunBoth(cal, sys, ms + more) == RunBoth(cal, RunBoth(cal, sys, ms), more)
  {
    hide Advance;
    if more == [] {
      assert ms + more == ms;
    } else {
      var init, last := more[..|more| - 1], more[|more| - 1];
      RunBothConcat(cal, sys, ms, init);
      assert ms + more == (ms + init) + [last];
      RunBothOne(cal, sys, ms + init, last);
    }
  }

  /** A run of the engine alone, as part of the system: the uploads lose the temp files it removes. */
  lemma {:induction false} JobsOnly(cal: Calendar, sys: System, acts: seq<Action>)
    requires Plain(acts)
    ensures
      var s := RunAll(cal, sys.jobs, acts);
      && RunBoth(cal, sys, Lift(acts)).jobs == s
      && s.log.submitted == sys.jobs.log.submitted && s.log.shared == sys.jobs.log.shared
      && (forall p :: p in s.files ==> p in sys.jobs.files)
      && (acts != [] ==> RunBoth(cal, sys, Lift(acts)).uploads == UploadSide(sys.uploads, s))
  {
    hide Step, HasJob;
    if acts != [] {
      var init, a := acts[..|acts| - 1], acts[|acts| - 1];
      assert Plain(init);
      JobsOnly(cal, sys, init);
      RunBothOne(cal, sys, Lift(init), OnJobs(a));
      var s := RunAll(cal, sys.jobs, init);
      JobStepKeepsParcels(cal, s, a);
      KeptTwice(sys.uploads, s, Step(cal, s, a));
    }
  }

  lemma KeptTwice(w: P.World, s: State, s': State)
    requires s'.log.submitted == s.log.submitted && forall p :: p in s'.files ==> p in s.files
    ensures UploadSide(UploadSide(w, s), s') == UploadSide(w, s')
  {
    hide HasJob;
  }

  function Quiet(id: JobId): seq<Action> {
    Scenes.Opening(id) + Scenes.Closing()
  }

  lemma QuietIsPlain(id: JobId)
    ensures Plain(Quiet(id)) && Quiet(id) != []
  {
    hide Scenes.ANY, Scenes.GOOD;
  }

  // ---- The crash -------------------------------------------------------------------------------

  /** An upload of one byte whose process dies between the insert of the job and the removal of the record. */
  function Crashed(): seq<Happening> {
    [OnUpload(P.Create(UPLOAD, true, 1, U.Saved), 0)] + [OnUpload(P.Patch(UPLOAD, Some(0), [5], P.CRASH_ENV), FIRST)]
  }

  ghost predicate InWindow(sys: System) {
    && sys.uploads.store.records == map[UPLOAD := U.Readable(U.Meta(true, 1, 1))]
    && sys.uploads.store.temps == map[UPLOAD := [5]] && P.Accepted(sys.uploads, UPLOAD) == [5]
    && P.WindowCrashes(sys.uploads, UPLOAD) == 1
    && sys.jobs.worker == Idle && sys.jobs.issued == {FIRST} && sys.jobs.files == map[UPLOAD := [5]]
    && sys.jobs.rows == map[FIRST := NewRow(Sync(UPLOAD), sys.jobs.now)]
    && sys.jobs.log.submitted == map[FIRST := Parcel(UPLOAD, [5])]
    && sys.jobs.log.sent == map[] && sys.jobs.log.failed == {} && sys.jobs.log.stopped == {}
  }

  lemma CrashedWindow(cal: Calendar, sys: System)
    requires Start(sys)
    ensures InWindow(RunBoth(cal, sys, Crashed()))
  {
    hide Step, HasJob;
    var m1, m2 := OnUpload(P.Create(UPLOAD, true, 1, U.Saved), 0), OnUpload(P.Patch(UPLOAD, Some(0), [5], P.CRASH_ENV), FIRST);
    RunBothOne(cal, sys, [], m1);
    RunBothOne(cal, sys, [m1], m2);
    assert [] + [m1] == [m1];
    var sys1 := Advance(cal, sys, m1);
    Created(cal, sys);
    Handed(cal, sys1);
    hide RunBoth, Advance;
  }

  lemma Created(cal: Calendar, sys: System)
    requires Start(sys)
    ensures
      var sys' := Advance(cal, sys, OnUpload(P.Create(UPLOAD, true, 1, U.Saved), 0));
      && sys'.jobs == sys.jobs && sys'.uploads.store.records == map[UPLOAD := U.Readable(U.Meta(true, 1, 0))]
      && sys'.uploads.store.temps == map[UPLOAD := []] && sys'.uploads.windowed == map[]
      && P.Accepted(sys'.uploads, UPLOAD) == []
  {
    hide Step;
  }

  lemma Handed(cal: Calendar, sys: System)
    requires Init(sys.jobs) && sys.uploads.store.records == map[UPLOAD := U.Readable(U.Meta(true, 1, 0))]
    requires sys.uploads.store.temps == map[UPLOAD := []] && sys.uploads.windowed == map[]
    requires P.Accepted(sys.uploads, UPLOAD) == []
    ensures InWindow(Advance(cal, sys, OnUpload(P.Patch(UPLOAD, Some(0), [5], P.CRASH_ENV), FIRST)))
  {
    hide Step, HasJob;
    var e := P.Patch(UPLOAD, Some(0), [5], P.CRASH_ENV);
    assert P.FinalFile(sys.uploads.store, e) == [5];
    NoJobs();
    Scenes.Submits(cal, sys.jobs, FIRST, UPLOAD, [5]);
  }

  lemma NoJobs()
    ensures !HasJob(map[], UPLOAD)
  {
  }

  // ---- A second job for an empty file ----------------------------------------------------------

  function EmptyPatch(): Happening {
    OnUpload(P.Patch(UPLOAD, Some(1), [], P.QUIET_ENV), SECOND_JOB)
  }

  /** The first job has sent the file and removed it; the record is still there. */
  ghost predicate Consumed(sys: System) {
    && sys.uploads.store.records == map[UPLOAD := U.Readable(U.Meta(true, 1, 1))]
    && sys.uploads.store.temps == map[] && P.Accepted(sys.uploads, UPLOAD) == [5]
    && sys.jobs.worker == Idle && sys.jobs.issued == {FIRST} && sys.jobs.files == map[]
    && sys.jobs.rows.Keys == {FIRST} && sys.jobs.rows[FIRST].status == Status.Success
    && sys.jobs.log.submitted == map[FIRST := Parcel(UPLOAD, [5])]
  }

  lemma FirstJobRuns(cal: Calendar, sys: System)
    requires InWindow(sys)
    ensures Consumed(RunBoth(cal, sys, Lift(Quiet(FIRST))))
  {
    hide Step, Scenes.Opening, Scenes.Closing, Scenes.SucceededRow;
    QuietIsPlain(FIRST);
    JobsOnly(cal, sys, Quiet(FIRST));
    Scenes.OldestAlone(sys.jobs.rows, FIRST);
    Scenes.QuietRun(cal, sys.jobs, FIRST, UPLOAD);
    FirstHasJob();
    hide RunAll, RunBoth, Lift, HasJob, IsOldestPending;
  }

  lemma FirstHasJob()
    ensures HasJob(map[FIRST := Parcel(UPLOAD, [5])], UPLOAD)
  {
    var m := map[FIRST := Parcel(UPLOAD, [5])];
    assert FIRST in m && m[FIRST].path == UPLOAD;
  }

  /** The empty PATCH finds no file, creates an empty one and hands it over. */
  lemma EmptyFileHandedOver(cal: Calendar, sys: System)
    requires Consumed(sys)
    ensures
      var sys' := Advance(cal, sys, EmptyPatch());
      && sys'.jobs.worker == Idle && sys'.jobs.files == map[UPLOAD := []]
      && sys'.jobs.rows == sys.jobs.rows[SECOND_JOB := NewRow(Sync(UPLOAD), sys.jobs.now)]
      && P.Accepted(sys'.uploads, UPLOAD) == [5] && sys'.jobs.now == sys.jobs.now
  {
    hide Step, HasJob;
    var e := P.Patch(UPLOAD, Some(1), [], P.QUIET_ENV);
    assert P.FinalFile(sys.uploads.store, e) == [];
    SubmitResult(cal, sys.jobs, SECOND_JOB, UPLOAD, []);
    SubmitRows(cal, sys.jobs, SECOND_JOB, UPLOAD, []);
  }

  lemma SubmitRows(cal: Calendar, s: State, id: JobId, path: Path, bytes: Bytes)
    requires id !in s.issued
    ensures
      var s' := Step(cal, s, Submit(id, Sync(path), bytes));
      s'.rows == s.rows[id := NewRow(Sync(path), s.now)] && s'.worker == s.worker && s'.now == s.now
  {
    hide LogAfter, FilesAfter, PoolsAfter, RegAfter;
  }

  lemma SecondAlone(rows: Rows)
    requires rows.Keys == {FIRST, SECOND_JOB} && rows[FIRST].status == Status.Success && rows[SECOND_JOB].status == Pending
    ensures IsOldestPending(rows, SECOND_JOB)
  {
  }

  function ZeroByteRun(): seq<Happening> {
    Crashed() + Lift(Quiet(FIRST)) + [EmptyPatch()] + Lift(Quiet(SECOND_JOB))
  }

  /** A client that sees its upload at full length and finishes it again with an empty PATCH, after the
      first job has gone through, gets a second job that is recorded a success and delivered no byte. */
  lemma SecondJobDeliversNothing(cal: Calendar, sys: System)
    requires Start(sys)
    ensures
      var e := RunBoth(cal, sys, ZeroByteRun());
      && SECOND_JOB in e.jobs.rows && e.jobs.rows[SECOND_JOB].status == Status.Success
      && e.jobs.rows[SECOND_JOB].task == Sync(UPLOAD) && P.Accepted(e.uploads, UPLOAD) == [5]
      && SECOND_JOB in e.jobs.log.sent && e.jobs.log.sent[SECOND_JOB] == []
  {
    hide Step, Advance, Scenes.Opening, Scenes.Closing, Scenes.SucceededRow;
    HandedAgain(cal, sys);
    var before := Crashed() + Lift(Quiet(FIRST)) + [EmptyPatch()];
    SecondRuns(cal, RunBoth(cal, sys, before));
    RunBothConcat(cal, sys, before, Lift(Quiet(SECOND_JOB)));
    hide RunBoth, Lift, Quiet, Crashed, P.Accepted, NewRow, EmptyPatch;
  }

  ghost predicate SecondWaits(sys: System) {
    && sys.jobs.worker == Idle && sys.jobs.files == map[UPLOAD := []] && P.Accepted(sys.uploads, UPLOAD) == [5]
    && sys.jobs.rows.Keys == {FIRST, SECOND_JOB} && sys.jobs.rows[FIRST].status == Status.Success
    && sys.jobs.rows[SECOND_JOB] == NewRow(Sync(UPLOAD), sys.jobs.now)
  }

  lemma HandedAgain(cal: Calendar, sys: System)
    requires Start(sys)
    ensures SecondWaits(RunBoth(cal, sys, Crashed() + Lift(Quiet(FIRST)) + [EmptyPatch()]))
  {
    hide Step, Advance;
    CrashedWindow(cal, sys);
    var s1 := RunBoth(cal, sys, Crashed());
    FirstJobRuns(cal, s1);
    RunBothConcat(cal, sys, Crashed(), Lift(Quiet(FIRST)));
    var s2 := RunBoth(cal, s1, Lift(Quiet(FIRST)));
    EmptyFileHandedOver(cal, s2);
    RunBothOne(cal, sys, Crashed() + Lift(Quiet(FIRST)), EmptyPatch());
    hide RunBoth, Lift, Quiet, Crashed, P.Accepted, NewRow, EmptyPatch, InWindow;
  }

  lemma SecondRuns(cal: Calendar, sys: System)
    requires SecondWaits(sys)
    ensures
      var e := RunBoth(cal, sys, Lift(Quiet(SECOND_JOB)));
      && SECOND_JOB in e.jobs.rows && e.jobs.rows[SECOND_JOB].status == Status.Success
      && e.jobs.rows[SECOND_JOB].task == Sync(UPLOAD) && P.Accepted(e.uploads, UPLOAD) == [5]
      && SECOND_JOB in e.jobs.log.sent && e.jobs.log.sent[SECOND_JOB] == []
  {
    hide Step, Scenes.Opening, Scenes.Closing;
    QuietIsPlain(SECOND_JOB);
    JobsOnly(cal, sys, Quiet(SECOND_JOB));
    SecondAlone(sys.jobs.rows);
    Scenes.QuietRun(cal, sys.jobs, SECOND_JOB, UPLOAD);
    hide RunAll, RunBoth, Lift, HasJob, IsOldestPending;
  }

  // ---- A file removed under its job ------------------------------------------------------------

  /** A DELETE of the upload in the window removes the file of a job that is still pending and that nobody
      cancelled. */
  lemma DeleteRemovesPendingFile(cal: Calendar, sys: System)
    requires Start(sys)
    ensures
      var e := RunBoth(cal, sys, Crashed() + [OnUpload(P.Terminate(UPLOAD), 0)]);
      && FIRST in e.jobs.rows && e.jobs.rows[FIRST].status == Pending && e.jobs.rows[FIRST].task == Sync(UPLOAD)
      && UPLOAD !in e.jobs.files
      && FIRST !in e.jobs.log.sent && FIRST !in e.jobs.log.failed && FIRST !in e.jobs.log.stopped
  {
    hide Step, Advance;
    CrashedWindow(cal, sys);
    var s1, m := RunBoth(cal, sys, Crashed()), OnUpload(P.Terminate(UPLOAD), 0);
    RunBothOne(cal, sys, Crashed(), m);
    Terminated(cal, s1);
    hide RunBoth, Crashed;
  }

  lemma Terminated(cal: Calendar, sys: System)
    requires InWindow(sys)
    ensures
      var e := Advance(cal, sys, OnUpload(P.Terminate(UPLOAD), 0));
      && e.jobs.rows == sys.jobs.rows && UPLOAD !in e.jobs.files
      && e.jobs.log.sent == sys.jobs.log.sent && e.jobs.log.failed == sys.jobs.log.failed && e.jobs.log.stopped == sys.jobs.log.stopped
  {
    hide Step;
    FirstHasJob();
    DisturbResult(cal, sys.jobs, UPLOAD, None);
    DisturbKeeps(cal, sys.jobs, UPLOAD);
    hide HasJob;
  }

  lemma DisturbKeeps(cal: Calendar, s: State, path: Path)
    ensures
      var s' := Step(cal, s, Disturb(path, None));
      && s'.rows == s.rows && s'.log.sent == s.log.sent && s'.log.failed == s.log.failed && s'.log.stopped == s.log.stopped
  {
    hide AcceptedAfter, ResumesAfter, OrphansAfter, SharedPaths, PoolsAfter, RegAfter, FilesAfter;
  }
}
