/** How many automatic-snapshot jobs of one pool can be pending or running at a time, although the
    check for one and the insert of another are separate steps. */
module JobSnapshots {
  import opened Wrappers
  import opened Text
  import opened Schedule
  import opened JobRows
  import opened JobEngine
  import opened JobOwnership
  import opened JobHistory

  predicate IsActive(rows: Rows, pool: PoolId, i: JobId) {
    i in rows && rows[i].task == Snapshot(pool) && (rows[i].status.Pending? || rows[i].status.Running?)
  }

  function Active(rows: Rows, pool: PoolId): set<JobId> {
    set i | i in rows && IsActive(rows, pool, i)
  }

  /** At most one more than the resumes; between the check and the insert, at most the resumes since the check. */
  ghost predicate SnapInv(rows: Rows, log: Log, w: Worker, pool: PoolId) {
    && |Active(rows, pool)| <= 1 + Resumes(log, pool)
    && ((w.Due? || w.Queued?) && w.entry.id == pool ==> |Active(rows, pool)| + w.base <= Resumes(log, pool))
  }

  lemma SubsetSize<T>(a: set<T>, b: set<T>)
    requires a <= b
    ensures |a| <= |b|
  {
    if a != b {
      assert a + (b - a) == b;
    }
  }

  predicate GainsOne(e: Effect, rows: Rows, pool: PoolId) {
    || (e.Insert? && e.row.task == Snapshot(pool))
    || (e.Sql? && e.st.Resume? && StatusOf(rows, e.id) == Some(Paused) && rows[e.id].task == Snapshot(pool))
  }

  /** One effect adds at most one active job, and only by an insert or an effective resume. */
  lemma ActiveAfter(rows: Rows, issued: set<JobId>, e: Effect, now: int, pool: PoolId)
    requires e.Insert? ==> e.id !in rows
    ensures |Active(RowsAfter(rows, e, now), pool)| <= |Active(rows, pool)| + (if GainsOne(e, rows, pool) then 1 else 0)
  {
    var a, b := Active(rows, pool), Active(RowsAfter(rows, e, now), pool);
    if GainsOne(e, rows, pool) {
      assert b <= a + {e.id};
      SubsetSize(b, a + {e.id});
    } else {
      assert b <= a;
      SubsetSize(b, a);
    }
  }

  /** The worker's move inserts a snapshot job only after the check, with the resumes counted then. */
  lemma WorkerInserts(cal: Calendar, s: State, c: Choice, pool: PoolId)
    requires SnapInv(s.rows, s.log, s.worker, pool)
    ensures
      var m := WorkerMove(cal, s, c);
      && (m.effect.Insert? && m.effect.row.task == Snapshot(pool) ==> |Active(s.rows, pool)| <= Resumes(s.log, pool))
      && (m.effect.Insert? ==> m.effect.id !in s.issued && m.worker.Scan?)
      && ((m.worker.Due? || m.worker.Queued?) && m.worker.entry.id == pool ==> |Active(s.rows, pool)| + m.worker.base <= Resumes(s.log, pool))
      && (m.worker.Due? || m.worker.Queued? ==> !m.effect.Sql?)
  {
    if s.worker.Scan? && s.worker.todo != [] && !HasActiveSnapshot(s.rows, s.worker.todo[0].id) {
      assert Active(s.rows, s.worker.todo[0].id) == {};
    }
    hide IsArmed, IsDue, NextTime, CatchUpTime, HasActiveSnapshot, Listing, Entries, IsOldestPending, Fired,
      Active, StatusOf;
  }

  ghost predicate Snapshots(s: State, pool: PoolId) {
    SnapInv(s.rows, s.log, s.worker, pool)
  }

  lemma ResumesGrow(s: State, e: Effect, pool: PoolId)
    ensures
      var after := ResumesAfter(s.log, s.rows, e);
      (if pool in after then after[pool] else 0) ==
        Resumes(s.log, pool) + (if GainsOne(e, s.rows, pool) && e.Sql? then 1 else 0)
  {
  }

  lemma SnapWork(cal: Calendar, s: State, c: Choice, pool: PoolId)
    requires Hold(s) && Snapshots(s, pool)
    ensures Snapshots(WorkStep(cal, s, c), pool)
  {
    var e := WorkerMove(cal, s, c).effect;
    WorkerInserts(cal, s, c, pool);
    ActiveAfter(s.rows, s.issued, e, s.now, pool);
    ResumesGrow(s, e, pool);
    StepEffect(cal, s, Work(c));
    assert WorkStep(cal, s, c).log.resumes == ResumesAfter(s.log, s.rows, e);
    assert WorkStep(cal, s, c).worker == WorkerMove(cal, s, c).worker;
    hide WorkStep, WorkerMove, Active, ResumesAfter, HandlersOk, GainsOne, RowsAfter;
  }

  /** Every other step leaves the worker where it is, and inserts no snapshot job. */
  lemma SnapOther(cal: Calendar, s: State, a: Action, pool: PoolId)
    requires Hold(s) && Snapshots(s, pool) && !a.Work? && !a.Crash?
    ensures Snapshots(Step(cal, s, a), pool)
  {
    var e := EffectOf(cal, s, a);
    EffectsOk(cal, s, a);
    assert !(e.Insert? && e.row.task == Snapshot(pool));
    ActiveAfter(s.rows, s.issued, e, s.now, pool);
    ResumesGrow(s, e, pool);
    StepEffect(cal, s, a);
    WorkerStays(cal, s, a);
    hide Step, EffectOf, Active, ResumesAfter, HandlersOk, GainsOne, RowsAfter;
  }

  lemma WorkerStays(cal: Calendar, s: State, a: Action)
    requires !a.Work? && !a.Crash?
    ensures Step(cal, s, a).worker == s.worker
  {
    hide WorkStep, CrashStep, CanSubmit, Respond, HandlerMove, SweepMove, RunningRows, RowsAfter, FilesAfter,
      IssuedAfter, LogAfter, RegAfter, Place, PoolsAfter;
  }

  lemma SnapStep(cal: Calendar, s: State, a: Action, pool: PoolId)
    requires Hold(s) && Snapshots(s, pool)
    ensures Snapshots(Step(cal, s, a), pool)
  {
    hide WorkStep, CanSubmit, Respond, HandlerMove, SweepMove, AnswerStep, PassStep, PlainStep, RunningRows,
      Active, Hold;
    match a {
      case Work(c) => SnapWork(cal, s, c, pool);
      case Crash =>
      case _ => SnapOther(cal, s, a, pool);
    }
  }

  lemma {:induction false} SnapRun(cal: Calendar, s: State, acts: seq<Action>, pool: PoolId)
    requires Init(s)
    ensures Snapshots(RunAll(cal, s, acts), pool)
  {
    if acts == [] {
      assert Active(s.rows, pool) == {};
    } else {
      SnapRun(cal, s, acts[..|acts| - 1], pool);
      AlwaysOwned(cal, s, acts[..|acts| - 1]);
      hide Step, Snapshots, Hold, RegistryInv;
      SnapStep(cal, RunAll(cal, s, acts[..|acts| - 1]), acts[|acts| - 1], pool);
    }
  }

  /** For every pool and every run, crashes included: the pending or running automatic-snapshot jobs
      never exceed one plus the number of effective resumes of that pool's jobs. */
  lemma ActiveSnapshotBound(cal: Calendar, s: State, acts: seq<Action>, pool: PoolId)
    requires Init(s)
    ensures |Active(RunAll(cal, s, acts).rows, pool)| <= 1 + Resumes(RunAll(cal, s, acts).log, pool)
  {
    hide RunAll, Active;
    SnapRun(cal, s, acts, pool);
  }

  // ---- Which pools are captured ----------------------------------------------------------------

  /** The worker is on its way through a snapshot job, past the look at its pool. */
  predicate Capturing(w: Worker, id: JobId, pool: PoolId, schedule: string) {
    match w
    case Opened(i, work) => i == id && work == Capture(pool, schedule)
    case Ready(i, work) => i == id && work == Capture(pool, schedule)
    case Active(i, work, _) => i == id && work == Capture(pool, schedule)
    case Stopped(i, work, _, _) => i == id && work == Capture(pool, schedule)
    case Left(i, work, _, _, _) => i == id && work == Capture(pool, schedule)
    case Judged(i, work, _, _, _, _) => i == id && work == Capture(pool, schedule)
    case _ => false
  }

  /** The step at which a claimed job found its pool switched on, with a schedule. */
  predicate FoundOn(s: State, a: Action, id: JobId, pool: PoolId, schedule: string) {
    && a.Work? && s.worker == Claimed(id, Snapshot(pool)) && pool in s.pools
    && s.pools[pool].enabled && TrimSpace(s.pools[pool].schedule) != "" && s.pools[pool].schedule == schedule
  }

  lemma CapturingMove(cal: Calendar, s: State, c: Choice, id: JobId, pool: PoolId, schedule: string)
    requires Capturing(WorkerMove(cal, s, c).worker, id, pool, schedule)
    ensures Capturing(s.worker, id, pool, schedule) || FoundOn(s, Work(c), id, pool, schedule)
  {
    hide TrimSpace;
  }

  lemma CapturingStep(cal: Calendar, s: State, a: Action, id: JobId, pool: PoolId, schedule: string)
    requires Capturing(Step(cal, s, a).worker, id, pool, schedule)
    ensures Capturing(s.worker, id, pool, schedule) || FoundOn(s, a, id, pool, schedule)
  {
    hide WorkerMove, Capturing, FoundOn;
    if a.Work? {
      CapturingMove(cal, s, a.choice, id, pool, schedule);
    } else if a.Crash? {
      IdleIsNoCapture(Step(cal, s, a).worker, id, pool, schedule);
    } else {
      WorkerStays(cal, s, a);
    }
  }

  /** Over every run, a snapshot under way, up to the moment its result is judged, was entered from a claimed
      job whose pool had automatic snapshots switched on and a schedule that is not blank, and nothing but
      that job has been the worker's since. */
  lemma {:induction false} CaptureWasOn(cal: Calendar, s: State, acts: seq<Action>, id: JobId, pool: PoolId, schedule: string)
    returns (k: nat)
    requires Init(s) && Capturing(RunAll(cal, s, acts).worker, id, pool, schedule)
    ensures k < |acts| && FoundOn(RunAll(cal, s, acts[..k]), acts[k], id, pool, schedule)
    ensures forall j :: k < j <= |acts| ==> Capturing(RunAll(cal, s, acts[..j]).worker, id, pool, schedule)
  {
    hide Step, Capturing, FoundOn;
    if acts == [] {
      IdleIsNoCapture(s.worker, id, pool, schedule);
    } else {
      var n := |acts| - 1;
      var init := acts[..n];
      CapturingStep(cal, RunAll(cal, s, init), acts[n], id, pool, schedule);
      assert acts[..|acts|] == acts;
      if Capturing(RunAll(cal, s, init).worker, id, pool, schedule) {
        k := CaptureWasOn(cal, s, init, id, pool, schedule);
        assert init[..k] == acts[..k];
        forall j | k < j <= |acts| ensures Capturing(RunAll(cal, s, acts[..j]).worker, id, pool, schedule) {
          if j <= n { assert init[..j] == acts[..j]; }
        }
      } else {
        k := n;
      }
    }
  }

  lemma IdleIsNoCapture(w: Worker, id: JobId, pool: PoolId, schedule: string)
    requires w == Idle
    ensures !Capturing(w, id, pool, schedule)
  {
  }
}
