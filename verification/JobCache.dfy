/** What happens to the local cache file of a cloud-sync job, over all interleavings of requests,
    sweeps, the worker and crashes. */
module JobCache {
  import opened Wrappers
  import opened Text
  import opened Schedule
  import opened JobRows
  import opened JobEngine
  import opened JobOwnership
  import opened JobHistory

  type Parcels = map<JobId, Parcel>

  /** A reason for a job's file to be gone: its transfer succeeded, the worker or a sweep met a failure
      for it, or a cancel or delete of it was requested. */
  predicate Excused(log: Log, id: JobId) {
    id in log.sent || id in log.failed || id in log.stopped
  }

  /** A copy of a job's task agrees with the file the job was created for. */
  predicate Known(issued: set<JobId>, parcels: Parcels, id: JobId, task: Task) {
    && id in issued
    && (task.Sync? <==> id in parcels)
    && (task.Sync? ==> parcels[id].path == task.path)
  }

  /** The file of a job that shares it with nobody: as it was while it exists, gone only for a reason, and
      what was sent. */
  predicate OwnFile(files: map<Path, Bytes>, log: Log, id: JobId)
    requires id in log.submitted
  {
    var parcel := log.submitted[id];
    && (parcel.path in files ==> files[parcel.path] == parcel.bytes)
    && (parcel.path !in files ==> Excused(log, id))
    && (id in log.sent ==> log.sent[id] == parcel.bytes)
  }

  ghost predicate FilesInv(files: map<Path, Bytes>, issued: set<JobId>, log: Log) {
    && (forall i :: i in log.submitted ==> i in issued)
    && (forall i, j :: i in log.submitted && j in log.submitted && i != j && log.submitted[i].path == log.submitted[j].path ==>
          log.submitted[i].path in log.shared)
    && (forall i :: i in log.submitted && log.submitted[i].path !in log.shared ==> OwnFile(files, log, i))
    && (forall i :: i in log.sent ==> i in log.submitted)
  }

  ghost predicate TasksKnown(rows: Rows, issued: set<JobId>, parcels: Parcels) {
    forall i :: i in rows ==> Known(issued, parcels, i, rows[i].task)
  }

  ghost predicate SuccessInv(rows: Rows, files: map<Path, Bytes>, log: Log) {
    forall i :: i in rows && rows[i].status.Success? && i in log.submitted ==>
      i in log.sent && (log.submitted[i].path in log.shared || log.submitted[i].path !in files)
  }

  predicate WorkKnown(log: Log, issued: set<JobId>, id: JobId, work: Work) {
    && id in issued
    && (work.Transfer? <==> id in log.submitted)
    && (work.Transfer? ==> log.submitted[id].path == work.path)
    && (work.Transfer? && work.path !in log.shared ==> log.submitted[id].bytes == work.bytes)
  }

  predicate OutcomeKnown(log: Log, id: JobId, work: Work, outcome: Outcome) {
    && (outcome.Done? && work.Transfer? ==> id in log.sent)
    && (outcome.Broke? ==> id in log.failed)
  }

  /** What the worker's local copies guarantee at each of its places. */
  predicate WorkerKnown(w: Worker, files: map<Path, Bytes>, issued: set<JobId>, log: Log) {
    match w
    case Picked(id, task) => Known(issued, log.submitted, id, task)
    case Claimed(id, task) => Known(issued, log.submitted, id, task)
    case Opened(id, work) => WorkKnown(log, issued, id, work)
    case Ready(id, work) => WorkKnown(log, issued, id, work)
    case Active(id, work, _) => WorkKnown(log, issued, id, work)
    case Stopped(id, work, _, outcome) => WorkKnown(log, issued, id, work) && OutcomeKnown(log, id, work, outcome)
    case Left(id, work, _, outcome, _) => WorkKnown(log, issued, id, work) && OutcomeKnown(log, id, work, outcome)
    case Judged(id, work, _, outcome, _, _) => WorkKnown(log, issued, id, work) && OutcomeKnown(log, id, work, outcome)
    case Finish(id, st, wipe) =>
      && id in issued
      && (wipe.Some? ==> id in log.submitted && log.submitted[id].path == wipe.value && id in log.failed)
      && (st.Succeed? && id in log.submitted ==>
            id in log.sent && (log.submitted[id].path in log.shared || log.submitted[id].path !in files))
    case Remove(id, path, follow) =>
      && id in issued && id in log.submitted && log.submitted[id].path == path && Excused(log, id)
      && (follow == Some(Succeed) ==> id in log.sent)
    case _ => true
  }

  predicate HandlerKnown(h: Handler, issued: set<JobId>, parcels: Parcels) {
    h.Put? || Known(issued, parcels, h.id, h.task)
  }

  ghost predicate HandlersKnown(handlers: map<Thread, Handler>, issued: set<JobId>, parcels: Parcels) {
    forall t :: t in handlers ==> HandlerKnown(handlers[t], issued, parcels)
  }

  ghost predicate SweepKnown(sw: Sweep, issued: set<JobId>, log: Log) {
    && TasksKnown(sw.items, issued, log.submitted)
    && (sw.Wiping? ==> sw.id in issued && sw.id in log.submitted && log.submitted[sw.id].path == sw.path && sw.id in log.failed)
  }

  ghost predicate SweepsKnown(sweeps: map<Thread, Sweep>, issued: set<JobId>, log: Log) {
    forall t :: t in sweeps ==> SweepKnown(sweeps[t], issued, log)
  }

  ghost predicate CacheInv(s: State) {
    && FilesInv(s.files, s.issued, s.log)
    && TasksKnown(s.rows, s.issued, s.log.submitted)
    && SuccessInv(s.rows, s.files, s.log)
    && WorkerKnown(s.worker, s.files, s.issued, s.log)
    && HandlersKnown(s.handlers, s.issued, s.log.submitted)
    && SweepsKnown(s.sweeps, s.issued, s.log)
  }

  // ---- How the history and the files grow ------------------------------------------------------

  /** From one moment to a later one: what is known of an issued job stays, reasons only accumulate,
      and a file that is gone stays gone, unless it is shared. */
  ghost predicate Grows(issued: set<JobId>, files: map<Path, Bytes>, log: Log, issued': set<JobId>, files': map<Path, Bytes>, log': Log) {
    forall i :: i in issued ==>
      && i in issued'
      && (i in log.submitted <==> i in log'.submitted)
      && (i in log.submitted ==> log.submitted[i] == log'.submitted[i])
      && (i in log.submitted && log.submitted[i].path in log.shared ==> log.submitted[i].path in log'.shared)
      && (i in log.submitted && log.submitted[i].path !in files ==> log.submitted[i].path !in files' || log.submitted[i].path in log'.shared)
      && (i in log.sent ==> i in log'.sent) && (i in log.failed ==> i in log'.failed) && (i in log.stopped ==> i in log'.stopped)
  }

  lemma HandlersGrow(handlers: map<Thread, Handler>, issued: set<JobId>, files: map<Path, Bytes>, log: Log,
                     issued': set<JobId>, files': map<Path, Bytes>, log': Log)
    requires HandlersKnown(handlers, issued, log.submitted) && Grows(issued, files, log, issued', files', log')
    ensures HandlersKnown(handlers, issued', log'.submitted)
  {
  }

  lemma SweepsGrow(sweeps: map<Thread, Sweep>, issued: set<JobId>, files: map<Path, Bytes>, log: Log,
                   issued': set<JobId>, files': map<Path, Bytes>, log': Log)
    requires SweepsKnown(sweeps, issued, log) && Grows(issued, files, log, issued', files', log')
    ensures SweepsKnown(sweeps, issued', log')
  {
    forall t | t in sweeps ensures SweepKnown(sweeps[t], issued', log') {
      SweepGrows(sweeps[t], issued, files, log, issued', files', log');
    }
  }

  lemma SweepGrows(sw: Sweep, issued: set<JobId>, files: map<Path, Bytes>, log: Log,
                   issued': set<JobId>, files': map<Path, Bytes>, log': Log)
    requires SweepKnown(sw, issued, log) && Grows(issued, files, log, issued', files', log')
    ensures SweepKnown(sw, issued', log')
  {
  }

  lemma WorkerGrows(w: Worker, issued: set<JobId>, files: map<Path, Bytes>, log: Log,
                    issued': set<JobId>, files': map<Path, Bytes>, log': Log)
    requires WorkerKnown(w, files, issued, log) && Grows(issued, files, log, issued', files', log')
    ensures WorkerKnown(w, files', issued', log')
  {
  }

  // ---- Effects on files and rows ---------------------------------------------------------------

  /** What the engine never does to files and rows: remove a file without a reason, or record a
      success for a cloud-sync job before its transfer succeeded and its file is gone. */
  ghost predicate FileEffectOk(e: Effect, n: Note, s: State) {
    && (e.Unlink? ==> exists i :: i in s.log.submitted && s.log.submitted[i].path == e.path && Excused(s.log, i))
    && (e.Sql? && e.st.Succeed? && e.id in s.log.submitted ==>
          e.id in s.log.sent && (s.log.submitted[e.id].path in s.log.shared || s.log.submitted[e.id].path !in s.files))
    && (e.Insert? ==> e.id !in s.issued && e.row.status.Pending?)
    && (n.Sent? ==>
          && n.id in s.log.submitted && !e.Insert? && !e.Rewrite?
          && (s.log.submitted[n.id].path in s.log.shared || s.log.submitted[n.id].bytes == n.bytes))
  }

  ghost predicate SharedInv(s: State) {
    && FilesInv(s.files, s.issued, s.log)
    && TasksKnown(s.rows, s.issued, s.log.submitted)
    && SuccessInv(s.rows, s.files, s.log)
  }

  ghost predicate FilesThen(s: State, e: Effect, log': Log) {
    && FilesInv(FilesAfter(s.files, e), IssuedAfter(s.issued, e), log')
    && Grows(s.issued, s.files, s.log, IssuedAfter(s.issued, e), FilesAfter(s.files, e), log')
  }

  ghost predicate RowsThen(s: State, e: Effect, log': Log) {
    && TasksKnown(RowsAfter(s.rows, e, s.now), IssuedAfter(s.issued, e), log'.submitted)
    && SuccessInv(RowsAfter(s.rows, e, s.now), FilesAfter(s.files, e), log')
  }

  lemma FilesInsert(s: State, e: Effect, n: Note)
    requires SharedInv(s) && FileEffectOk(e, n, s) && e.Insert?
    ensures FilesThen(s, e, LogAfter(s, e, n))
  {
    hide AcceptedAfter, ResumesAfter, OrphansAfter, Fired, TasksKnown, SuccessInv;
  }

  lemma FilesOther(s: State, e: Effect, n: Note)
    requires SharedInv(s) && FileEffectOk(e, n, s) && !e.Insert?
    ensures FilesThen(s, e, LogAfter(s, e, n))
  {
    hide AcceptedAfter, ResumesAfter, OrphansAfter, Fired, TasksKnown, SuccessInv;
  }

  lemma RowsInsert(s: State, e: Effect, n: Note)
    requires SharedInv(s) && FileEffectOk(e, n, s) && e.Insert?
    ensures RowsThen(s, e, LogAfter(s, e, n))
  {
    hide AcceptedAfter, ResumesAfter, OrphansAfter, Fired;
  }

  lemma RowsOther(s: State, e: Effect, n: Note)
    requires SharedInv(s) && FileEffectOk(e, n, s) && !e.Insert?
    ensures RowsThen(s, e, LogAfter(s, e, n))
  {
    hide AcceptedAfter, ResumesAfter, OrphansAfter, Fired, FilesInv;
  }

  lemma SharedAfter(s: State, e: Effect, n: Note)
    requires SharedInv(s) && FileEffectOk(e, n, s)
    ensures FilesThen(s, e, LogAfter(s, e, n)) && RowsThen(s, e, LogAfter(s, e, n))
  {
    hide SharedInv, FileEffectOk, FilesThen, RowsThen;
    if e.Insert? {
      FilesInsert(s, e, n);
      RowsInsert(s, e, n);
    } else {
      FilesOther(s, e, n);
      RowsOther(s, e, n);
    }
  }

  // ---- The three kinds of thread ---------------------------------------------------------------

  /** The worker's place after its move, in the state its effect leaves. */
  ghost predicate WorkerThen(s: State, m: Move) {
    && FileEffectOk(m.effect, m.note, s)
    && WorkerKnown(m.worker, FilesAfter(s.files, m.effect), IssuedAfter(s.issued, m.effect), LogAfter(s, m.effect, m.note))
  }

  lemma CacheJudged(cal: Calendar, s: State, c: Choice)
    requires CacheInv(s) && RegistryInv(s) && s.worker.Judged?
    ensures WorkerThen(s, WorkerMove(cal, s, c))
  {
    hide NextTime, TasksKnown, SuccessInv, HandlersKnown, SweepsKnown, CallsInv, FilesInv, Begin, Enqueue,
      Resolve, Return,
      PoolsAfter, AcceptedAfter, ResumesAfter, OrphansAfter, Fired;
  }

  lemma CacheRunning(cal: Calendar, s: State, c: Choice)
    requires CacheInv(s) && RegistryInv(s) && !s.worker.Judged? && Held(s.worker).Some?
    ensures WorkerThen(s, WorkerMove(cal, s, c))
  {
    hide IsArmed, TasksKnown, SuccessInv, HandlersKnown, SweepsKnown, CallsInv, Begin, Enqueue, Judge, StatusOf,
      PoolsAfter, AcceptedAfter, ResumesAfter, OrphansAfter, Fired;
  }

  lemma CacheSearching(cal: Calendar, s: State, c: Choice)
    requires CacheInv(s) && Held(s.worker).None?
    ensures WorkerThen(s, WorkerMove(cal, s, c))
  {
    hide IsDue, CatchUpTime, HasActiveSnapshot, Listing, Entries, Resumes, SuccessInv, HandlersKnown,
      SweepsKnown, FilesInv,
      Resolve, Return, Judge, PoolsAfter, AcceptedAfter, ResumesAfter, OrphansAfter, Fired;
  }

  lemma CacheWorker(cal: Calendar, s: State, c: Choice)
    requires CacheInv(s) && RegistryInv(s)
    ensures CacheInv(WorkStep(cal, s, c))
  {
    var m := WorkerMove(cal, s, c);
    if s.worker.Judged? {
      CacheJudged(cal, s, c);
    } else if Held(s.worker).Some? {
      CacheRunning(cal, s, c);
    } else {
      CacheSearching(cal, s, c);
    }
    CacheAfter(s, m.effect, m.note);
    hide WorkerMove, FilesInv, TasksKnown, SuccessInv, WorkerKnown, HandlersKnown, SweepsKnown, RegistryInv,
      FileEffectOk,
      RowsAfter, FilesAfter, IssuedAfter, LogAfter;
  }

  /** Everything after an effect, with all threads where they were. */
  lemma CacheAfter(s: State, e: Effect, n: Note)
    requires CacheInv(s) && FileEffectOk(e, n, s)
    ensures
      var files', issued', log' := FilesAfter(s.files, e), IssuedAfter(s.issued, e), LogAfter(s, e, n);
      && FilesInv(files', issued', log')
      && TasksKnown(RowsAfter(s.rows, e, s.now), issued', log'.submitted)
      && SuccessInv(RowsAfter(s.rows, e, s.now), files', log')
      && WorkerKnown(s.worker, files', issued', log')
      && HandlersKnown(s.handlers, issued', log'.submitted)
      && SweepsKnown(s.sweeps, issued', log')
  {
    var files', issued', log' := FilesAfter(s.files, e), IssuedAfter(s.issued, e), LogAfter(s, e, n);
    SharedAfter(s, e, n);
    HandlersGrow(s.handlers, s.issued, s.files, s.log, issued', files', log');
    SweepsGrow(s.sweeps, s.issued, s.files, s.log, issued', files', log');
    WorkerGrows(s.worker, s.issued, s.files, s.log, issued', files', log');
    hide FilesInv, TasksKnown, SuccessInv, WorkerKnown, HandlersKnown, SweepsKnown, FileEffectOk, Grows,
      RowsAfter, FilesAfter, IssuedAfter, LogAfter;
  }

  lemma PlaceHandler(hs: map<Thread, Handler>, tid: Thread, h: Option<Handler>, issued: set<JobId>, parcels: Parcels)
    requires HandlersKnown(hs, issued, parcels) && (h.Some? ==> HandlerKnown(h.value, issued, parcels))
    ensures HandlersKnown(Place(hs, tid, h), issued, parcels)
  {
  }

  lemma PlaceSweep(sw: map<Thread, Sweep>, tid: Thread, p: Option<Sweep>, issued: set<JobId>, log: Log)
    requires SweepsKnown(sw, issued, log) && (p.Some? ==> SweepKnown(p.value, issued, log))
    ensures SweepsKnown(Place(sw, tid, p), issued, log)
  {
    hide SweepKnown;
  }

  lemma AnswerOk(s: State, h: Handler)
    requires CacheInv(s) && HandlerKnown(h, s.issued, s.log.submitted) && HandlerOk(h) && (h.Wipe? ==> h.id in s.log.stopped)
    ensures
      var a := HandlerMove(s, h);
      FileEffectOk(a.effect, a.note, s) && (a.handler.Some? ==> HandlerKnown(a.handler.value, s.issued, s.log.submitted))
      && !a.effect.Insert?
  {
    hide TasksKnown, SuccessInv, WorkerKnown, HandlersKnown, SweepsKnown, FilesInv;
  }

  lemma CacheAnswer(s: State, tid: Thread, a: Answer)
    requires CacheInv(s) && FileEffectOk(a.effect, a.note, s) && !a.effect.Insert?
    requires a.handler.Some? ==> HandlerKnown(a.handler.value, s.issued, s.log.submitted)
    ensures CacheInv(AnswerStep(s, tid, a))
  {
    CacheAfter(s, a.effect, a.note);
    PlaceHandler(s.handlers, tid, a.handler, s.issued, s.log.submitted);
    assert IssuedAfter(s.issued, a.effect) == s.issued;
    assert LogAfter(s, a.effect, a.note).submitted == s.log.submitted;
    hide FilesInv, TasksKnown, SuccessInv, WorkerKnown, HandlersKnown, SweepsKnown, FileEffectOk, RowsAfter,
      FilesAfter, IssuedAfter, LogAfter, Place;
  }

  lemma PassOk(s: State, sw: Sweep, id: JobId)
    requires CacheInv(s) && SweepKnown(sw, s.issued, s.log)
    ensures
      var p := SweepMove(s, sw, id);
      FileEffectOk(p.effect, p.note, s) && !p.effect.Insert?
      && (p.sweep.Some? ==> SweepKnown(p.sweep.value, s.issued, LogAfter(s, p.effect, p.note)))
  {
    hide IsStale, SuccessInv, WorkerKnown, HandlersKnown, SweepsKnown, FilesInv, PoolsAfter, AcceptedAfter,
      ResumesAfter, OrphansAfter, Fired, StatusOf;
  }

  lemma CachePass(s: State, tid: Thread, p: Pass)
    requires CacheInv(s) && FileEffectOk(p.effect, p.note, s) && !p.effect.Insert?
    requires p.sweep.Some? ==> SweepKnown(p.sweep.value, s.issued, LogAfter(s, p.effect, p.note))
    ensures CacheInv(PassStep(s, tid, p))
  {
    CacheAfter(s, p.effect, p.note);
    PlaceSweep(s.sweeps, tid, p.sweep, s.issued, LogAfter(s, p.effect, p.note));
    assert IssuedAfter(s.issued, p.effect) == s.issued;
    hide FilesInv, TasksKnown, SuccessInv, WorkerKnown, HandlersKnown, SweepsKnown, FileEffectOk, RowsAfter,
      FilesAfter, IssuedAfter, LogAfter, Place, SweepKnown;
  }

  lemma CacheList(s: State, tid: Thread)
    requires CacheInv(s)
    ensures CacheInv(PassStep(s, tid, Pass(Some(Listed(RunningRows(s.rows), s.now)), Nothing, Quiet)))
  {
    var p := Pass(Some(Listed(RunningRows(s.rows), s.now)), Nothing, Quiet);
    assert SweepKnown(p.sweep.value, s.issued, LogAfter(s, Nothing, Quiet));
    CachePass(s, tid, p);
  }

  lemma CacheAsk(s: State, tid: Thread, op: Op, id: JobId)
    requires CacheInv(s) && id in s.rows
    ensures CacheInv(AnswerStep(s, tid, Respond(s.rows[id], op, id)))
  {
    CacheAnswer(s, tid, Respond(s.rows[id], op, id));
  }

  lemma CachePlain(s: State, e: Effect)
    requires CacheInv(s) && FileEffectOk(e, Quiet, s)
    ensures CacheInv(PlainStep(s, e))
  {
    CacheAfter(s, e, Quiet);
    hide FilesInv, TasksKnown, SuccessInv, WorkerKnown, HandlersKnown, SweepsKnown, FileEffectOk, RowsAfter,
      FilesAfter, IssuedAfter, LogAfter;
  }

  lemma CacheSubmit(s: State, id: JobId, task: Task, bytes: Bytes)
    requires CacheInv(s) && CanSubmit(s, id, task)
    ensures CacheInv(PlainStep(s, Insert(id, NewRow(task, s.now), bytes)))
  {
    hide CacheInv, PlainStep;
    CachePlain(s, Insert(id, NewRow(task, s.now), bytes));
  }

  lemma CacheCrash(s: State)
    requires CacheInv(s)
    ensures CacheInv(CrashStep(s))
  {
    hide RunningRows;
  }

  lemma CacheIdleStep(cal: Calendar, s: State, a: Action)
    requires CacheInv(s) && (a.Elapse? || a.BeatEnd? || a.Configure?)
    ensures CacheInv(Step(cal, s, a))
  {
    hide WorkStep, AnswerStep, PassStep, PlainStep, CrashStep, CanSubmit, Respond, HandlerMove, SweepMove,
      RunningRows,
      FilesInv, TasksKnown, SuccessInv, WorkerKnown, HandlersKnown, SweepsKnown;
  }

  lemma CacheHandle(s: State, tid: Thread)
    requires CacheInv(s) && Owned(s) && tid in s.handlers
    ensures CacheInv(AnswerStep(s, tid, HandlerMove(s, s.handlers[tid])))
  {
    assert HandlerOk(s.handlers[tid]) && (s.handlers[tid].Wipe? ==> s.handlers[tid].id in s.log.stopped);
    AnswerOk(s, s.handlers[tid]);
    hide HandlerMove, AnswerStep, HoldInv, RunInv, FilesInv, TasksKnown, SuccessInv, WorkerKnown, SweepsKnown,
      FileEffectOk;
    CacheAnswer(s, tid, HandlerMove(s, s.handlers[tid]));
  }

  lemma CacheSweepNext(s: State, tid: Thread, id: JobId)
    requires CacheInv(s) && tid in s.sweeps
    ensures CacheInv(PassStep(s, tid, SweepMove(s, s.sweeps[tid], id)))
  {
    hide SweepMove, PassStep, FilesInv, TasksKnown, SuccessInv, WorkerKnown, HandlersKnown, SweepKnown, FileEffectOk;
    PassOk(s, s.sweeps[tid], id);
    CachePass(s, tid, SweepMove(s, s.sweeps[tid], id));
  }

  lemma CacheStep(cal: Calendar, s: State, a: Action)
    requires CacheInv(s) && Owned(s)
    ensures CacheInv(Step(cal, s, a))
  {
    hide CacheInv, WorkStep, AnswerStep, PassStep, PlainStep, CrashStep, CanSubmit, Respond, HandlerMove,
      SweepMove, RunningRows, Hold;
    match a {
      case Work(c) => CacheWorker(cal, s, c);
      case Submit(id, task, bytes) => if CanSubmit(s, id, task) { CacheSubmit(s, id, task, bytes); }
      case Ask(tid, op, id) => if tid !in s.handlers && id in s.rows { CacheAsk(s, tid, op, id); }
      case Handle(tid) => if tid in s.handlers { CacheHandle(s, tid); }
      case SweepList(tid) => if tid !in s.sweeps { CacheList(s, tid); }
      case SweepNext(tid, id) => if tid in s.sweeps { CacheSweepNext(s, tid, id); }
      case Beat(id) => if id in s.beats { CachePlain(s, Sql(id, Heartbeat)); }
      case Disturb(path, file) => CachePlain(s, Rewrite(path, file));
      case Crash => CacheCrash(s);
      case _ => CacheIdleStep(cal, s, a);
    }
  }

  // ---- Runs ------------------------------------------------------------------------------------

  lemma {:induction false} CacheRun(cal: Calendar, s: State, acts: seq<Action>)
    requires Init(s)
    ensures CacheInv(RunAll(cal, s, acts))
  {
    hide Step;
    if acts != [] {
      CacheRun(cal, s, acts[..|acts| - 1]);
      AlwaysOwned(cal, s, acts[..|acts| - 1]);
      hide CacheInv, Owned;
      CacheStep(cal, RunAll(cal, s, acts[..|acts| - 1]), acts[|acts| - 1]);
    }
  }

  /** Over all interleavings of requests, sweeps, the worker and crashes: the local file of a cloud-sync
      job keeps its bytes while it exists, and is gone only if its transfer succeeded, the worker or a
      sweep met a failure for it, or a cancel or delete of it was requested, as long as no second job was
      created for the file and nobody else changed it. */
  lemma CacheFilePreserved(cal: Calendar, s: State, acts: seq<Action>, id: JobId)
    requires Init(s) && id in RunAll(cal, s, acts).log.submitted
    ensures
      var e := RunAll(cal, s, acts);
      var path, bytes := e.log.submitted[id].path, e.log.submitted[id].bytes;
      path !in e.log.shared ==>
        && (path in e.files ==> e.files[path] == bytes)
        && (path !in e.files ==> id in e.log.sent || id in e.log.failed || id in e.log.stopped)
  {
    hide RunAll;
    CacheRun(cal, s, acts);
    var e := RunAll(cal, s, acts);
    if e.log.submitted[id].path !in e.log.shared {
      assert OwnFile(e.files, e.log, id);
    }
  }

  /** A cloud-sync job recorded as a success has sent a file, and if it was its alone, it has delivered
      exactly the bytes it was created for, and its local file is gone. */
  lemma SuccessMeansDelivered(cal: Calendar, s: State, acts: seq<Action>, id: JobId)
    requires Init(s) && StatusOf(RunAll(cal, s, acts).rows, id) == Some(Status.Success)
    requires RunAll(cal, s, acts).rows[id].task.Sync?
    ensures
      var e := RunAll(cal, s, acts);
      && id in e.log.submitted && e.log.submitted[id].path == e.rows[id].task.path && id in e.log.sent
      && (e.rows[id].task.path !in e.log.shared ==>
            e.log.sent[id] == e.log.submitted[id].bytes && e.rows[id].task.path !in e.files)
  {
    hide RunAll;
    CacheRun(cal, s, acts);
    var e := RunAll(cal, s, acts);
    if e.log.submitted[id].path !in e.log.shared {
      assert OwnFile(e.files, e.log, id);
    }
  }
}
