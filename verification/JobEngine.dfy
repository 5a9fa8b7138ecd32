/** The background job engine as a transition system. One step is one SQL statement, one critical
    section on the registry of running jobs, one file removal, or one local decision. The single
    worker, any number of request handlers, sweeps and heartbeats take their steps in any order. */
module JobEngine {
  import opened Wrappers
  import opened Text
  import opened Schedule
  import opened JobRows

  type Run = int
  type Thread = int

  datatype Reason = ForPause | ForCancel | ForDelete

  // ---- The registry of running jobs -------------------------------------------------------------

  /** runningJobCancels and runningJobStopReasons. A cancel function is named by the run it cancels. */
  datatype Registry = Registry(cancels: map<JobId, Run>, reasons: map<JobId, Reason>)

  const EMPTY_REGISTRY := Registry(map[], map[])

  function Registered(reg: Registry, id: JobId, run: Run): Registry {
    Registry(reg.cancels[id := run], reg.reasons - {id})
  }

  function Unregistered(reg: Registry, id: JobId): Registry {
    Registry(reg.cancels - {id}, reg.reasons - {id})
  }

  function StopRequested(reg: Registry, id: JobId, reason: Reason): Registry {
    if id in reg.cancels then reg.(reasons := reg.reasons[id := reason]) else reg
  }

  function Lookup<K, V>(m: map<K, V>, k: K): Option<V> {
    if k in m then Some(m[k]) else None
  }

  class StopRegistry {
    var cancels: map<JobId, Run>
    var reasons: map<JobId, Reason>

    ghost function Contents(): Registry
      reads this
    {
      Registry(cancels, reasons)
    }

    constructor ()
      ensures Contents() == EMPTY_REGISTRY
    {
      cancels, reasons := map[], map[];
    }

    method RegisterRunningJob(id: JobId, run: Run)
      modifies this
      ensures Contents() == Registered(old(Contents()), id, run)
    {
      cancels := cancels[id := run];
      reasons := reasons - {id};
    }

    /** The function registerRunningJob returns: the last accepted reason, and no trace afterwards. */
    method UnregisterRunningJob(id: JobId) returns (reason: Option<Reason>)
      modifies this
      ensures reason == Lookup(old(reasons), id)
      ensures Contents() == Unregistered(old(Contents()), id)
    {
      reason := if id in reasons then Some(reasons[id]) else None;
      cancels := cancels - {id};
      reasons := reasons - {id};
    }

    /** requestRunningJobStop: accepted exactly when the job is registered; the caller then calls the
        returned cancel function. */
    method RequestRunningJobStop(id: JobId, reason: Reason) returns (cancel: Option<Run>)
      modifies this
      ensures cancel == Lookup(old(cancels), id)
      ensures Contents() == StopRequested(old(Contents()), id, reason)
    {
      cancel := if id in cancels then Some(cancels[id]) else None;
      if cancel.Some? {
        reasons := reasons[id := reason];
      }
    }
  }

  // ---- State ------------------------------------------------------------------------------------

  datatype Pool = Pool(enabled: bool, schedule: string, next: Option<int>, last: Option<int>)

  datatype PoolEntry = PoolEntry(id: PoolId, pool: Pool)

  /** How a transfer or a snapshot returns: no error, context.Canceled, or any other error. */
  datatype Outcome = Done | Interrupted | Broke

  /** What a run works on: an opened cache file (its bytes stay readable after removal) or a pool. */
  datatype Work = Transfer(path: Path, bytes: Bytes) | Capture(pool: PoolId, schedule: string)

  /** The worker's place in its loop, with its local copies. */
  datatype Worker =
    | Idle
    | Polled(todo: seq<PoolEntry>)
    | Scan(todo: seq<PoolEntry>, at: int)
    | Due(entry: PoolEntry, todo: seq<PoolEntry>, at: int, base: nat)
    | Queued(entry: PoolEntry, todo: seq<PoolEntry>, at: int, base: nat)
    | Picked(id: JobId, task: Task)
    | Claimed(id: JobId, task: Task)
    | Opened(id: JobId, work: Work)
    | Ready(id: JobId, work: Work)
    | Active(id: JobId, work: Work, run: Run)
    | Stopped(id: JobId, work: Work, run: Run, outcome: Outcome)
    | Left(id: JobId, work: Work, run: Run, outcome: Outcome, reason: Option<Reason>)
    | Judged(id: JobId, work: Work, run: Run, outcome: Outcome, reason: Option<Reason>, seen: Option<Status>)
    | Finish(id: JobId, st: Statement, wipe: Option<Path>)
    | Remove(id: JobId, path: Path, follow: Option<Statement>)

  datatype Op = OpPause | OpResume | OpCancel | OpDelete

  /** A request handler's place, after it read the row. */
  datatype Handler =
    | StopAsk(id: JobId, task: Task, reason: Reason)
    | StopCall(id: JobId, task: Task, reason: Reason, run: Run)
    | Wipe(id: JobId, task: Task, st: Statement)
    | Stat(id: JobId, task: Task)
    | Put(id: JobId, st: Statement)

  /** A sweep's place: rows listed, stale rows being failed, a failed row's file being removed. */
  datatype Sweep =
    | Listed(items: Rows, at: int)
    | Marking(items: Rows)
    | Wiping(id: JobId, path: Path, items: Rows)

  datatype Parcel = Parcel(path: Path, bytes: Bytes)

  datatype Firing = Firing(tick: int, at: int)

  /** History variables: they record what happened and never influence a step. */
  datatype Log = Log(
    accepted: map<Run, Reason>,         // last accepted stop reason of a run
    submitted: map<JobId, Parcel>,      // the cache file each cloud-sync job was created for
    sent: map<JobId, Bytes>,            // what a successful transfer delivered
    failed: set<JobId>,                 // the worker or a sweep met a failure
    swept: set<JobId>,                  // a sweep failed the row
    stopped: set<JobId>,                // a cancel or delete request went ahead
    resumes: map<PoolId, nat>,          // effective resumes of a pool's snapshot jobs
    fired: map<PoolId, seq<Firing>>,    // automatic-snapshot enqueues: due time used, moment
    orphans: set<JobId>,                // rows a crash left running
    shared: set<Path>)                  // cache files of several jobs, or changed by others than the engine

  datatype State = State(
    now: int, rows: Rows, issued: set<JobId>, files: map<Path, Bytes>, pools: map<PoolId, Pool>,
    worker: Worker, reg: Registry, cancelled: set<Run>, nextRun: Run, beats: set<JobId>,
    handlers: map<Thread, Handler>, sweeps: map<Thread, Sweep>, log: Log)

  const EMPTY_LOG := Log(map[], map[], map[], {}, {}, {}, map[], map[], {}, {})

  ghost predicate Init(s: State) {
    && s.rows == map[] && s.issued == {} && s.files == map[]
    && s.worker == Idle && s.reg == EMPTY_REGISTRY && s.cancelled == {} && s.beats == {}
    && s.handlers == map[] && s.sweeps == map[] && s.log == EMPTY_LOG
  }

  function Held(w: Worker): Option<JobId> {
    match w
    case Claimed(id, _) => Some(id)
    case Opened(id, _) => Some(id)
    case Ready(id, _) => Some(id)
    case Active(id, _, _) => Some(id)
    case Stopped(id, _, _, _) => Some(id)
    case Left(id, _, _, _, _) => Some(id)
    case Judged(id, _, _, _, _, _) => Some(id)
    case Finish(id, _, _) => Some(id)
    case Remove(id, _, _) => Some(id)
    case _ => None
  }

  function Resumes(log: Log, pool: PoolId): nat {
    if pool in log.resumes then log.resumes[pool] else 0
  }

  function Fired(log: Log, pool: PoolId): seq<Firing> {
    if pool in log.fired then log.fired[pool] else []
  }

  predicate HasActiveSnapshot(rows: Rows, pool: PoolId) {
    exists i :: i in rows && rows[i].task == Snapshot(pool) && (rows[i].status.Pending? || rows[i].status.Running?)
  }

  // ---- Effects ----------------------------------------------------------------------------------

  /** What one step does to the shared data: one SQL statement, one critical section on the registry,
      one cancel call, or one file removal. */
  datatype Effect =
    | Nothing
    | Sql(id: JobId, st: Statement)
    | Insert(id: JobId, row: Row, bytes: Bytes)
    | WritePool(pool: PoolId, entry: Pool)
    | Register(id: JobId)
    | Unregister(id: JobId)
    | RequestStop(id: JobId, reason: Reason)
    | CancelContext(run: Run)
    | Unlink(path: Path)
    | Rewrite(path: Path, file: Option<Bytes>)

  /** What a step adds to the history. */
  datatype Note =
    | Quiet
    | Sent(id: JobId, bytes: Bytes)
    | Failure(id: JobId)
    | StaleFailure(id: JobId)
    | StopWanted(id: JobId)
    | Fire(pool: PoolId, firing: Firing)

  function RowsAfter(rows: Rows, e: Effect, now: int): Rows {
    match e
    case Sql(id, st) => Exec(rows, id, st, now)
    case Insert(id, row, _) => rows[id := row]
    case _ => rows
  }

  function IssuedAfter(issued: set<JobId>, e: Effect): set<JobId> {
    if e.Insert? then issued + {e.id} else issued
  }

  /** A cloud-sync job is created for a cache file, which is on disk from then on. */
  function FilesAfter(files: map<Path, Bytes>, e: Effect): map<Path, Bytes> {
    match e
    case Unlink(path) => files - {path}
    case Rewrite(path, file) => if file.Some? then files[path := file.value] else files - {path}
    case Insert(_, row, bytes) => if row.task.Sync? then files[row.task.path := bytes] else files
    case _ => files
  }

  function PoolsAfter(pools: map<PoolId, Pool>, e: Effect): map<PoolId, Pool> {
    if e.WritePool? && e.pool in pools then pools[e.pool := e.entry] else pools
  }

  function RegAfter(reg: Registry, e: Effect, nextRun: Run): Registry {
    match e
    case Register(id) => Registered(reg, id, nextRun)
    case Unregister(id) => Unregistered(reg, id)
    case RequestStop(id, reason) => StopRequested(reg, id, reason)
    case _ => reg
  }

  function AcceptedAfter(accepted: map<Run, Reason>, reg: Registry, e: Effect): map<Run, Reason> {
    if e.RequestStop? && e.id in reg.cancels then accepted[reg.cancels[e.id] := e.reason] else accepted
  }

  function ResumesAfter(log: Log, rows: Rows, e: Effect): map<PoolId, nat> {
    if e.Sql? && e.st.Resume? && StatusOf(rows, e.id) == Some(Paused) && rows[e.id].task.Snapshot?
    then log.resumes[rows[e.id].task.pool := Resumes(log, rows[e.id].task.pool) + 1]
    else log.resumes
  }

  function OrphansAfter(orphans: set<JobId>, e: Effect): set<JobId> {
    if e.Sql? && e.st.Claim? then orphans - {e.id} else orphans
  }

  predicate HasJob(submitted: map<JobId, Parcel>, path: Path) {
    exists i :: i in submitted && submitted[i].path == path
  }

  function SharedPaths(log: Log, e: Effect): set<Path> {
    match e
    case Insert(_, row, _) => if row.task.Sync? && HasJob(log.submitted, row.task.path) then log.shared + {row.task.path} else log.shared
    case Rewrite(path, _) => log.shared + {path}
    case _ => log.shared
  }

  function LogAfter(s: State, e: Effect, n: Note): Log {
    Log(AcceptedAfter(s.log.accepted, s.reg, e),
        if e.Insert? && e.row.task.Sync? then s.log.submitted[e.id := Parcel(e.row.task.path, e.bytes)] else s.log.submitted,
        if n.Sent? then s.log.sent[n.id := n.bytes] else s.log.sent,
        if n.Failure? || n.StaleFailure? then s.log.failed + {n.id} else s.log.failed,
        if n.StaleFailure? then s.log.swept + {n.id} else s.log.swept,
        if n.StopWanted? then s.log.stopped + {n.id} else s.log.stopped,
        ResumesAfter(s.log, s.rows, e),
        if n.Fire? then s.log.fired[n.pool := Fired(s.log, n.pool) + [n.firing]] else s.log.fired,
        OrphansAfter(s.log.orphans, e),
        SharedPaths(s.log, e))
  }

  /** The state after an effect, for given places of the worker, the handlers and the sweeps. */
  function After(s: State, e: Effect, n: Note, worker: Worker, handlers: map<Thread, Handler>, sweeps: map<Thread, Sweep>): State {
    State(s.now, RowsAfter(s.rows, e, s.now), IssuedAfter(s.issued, e), FilesAfter(s.files, e), PoolsAfter(s.pools, e),
          worker, RegAfter(s.reg, e, s.nextRun),
          if e.CancelContext? then s.cancelled + {e.run} else s.cancelled,
          if e.Register? then s.nextRun + 1 else s.nextRun,
          if e.Register? then s.beats + {e.id} else s.beats,
          handlers, sweeps, LogAfter(s, e, n))
  }

  // ---- The worker -------------------------------------------------------------------------------

  /** What the environment decides at a worker step. */
  datatype Choice = Choice(scan: bool, order: seq<PoolId>, id: JobId, ok: bool, outcome: Outcome)

  datatype Move = Move(worker: Worker, effect: Effect, note: Note)

  function Go(w: Worker): Move {
    Move(w, Nothing, Quiet)
  }

  predicate IsDue(pool: Pool, at: int) {
    pool.enabled && TrimSpace(pool.schedule) != "" && pool.next.Some? && pool.next.value <= at
  }

  predicate IsArmed(pool: Pool) {
    pool.enabled && TrimSpace(pool.schedule) != ""
  }

  predicate Listing(pools: map<PoolId, Pool>, order: seq<PoolId>) {
    && (forall i :: 0 <= i < |order| ==> order[i] in pools)
    && (forall i, j :: 0 <= i < j < |order| ==> order[i] != order[j])
  }

  function Entries(pools: map<PoolId, Pool>, order: seq<PoolId>): seq<PoolEntry>
    requires Listing(pools, order)
  {
    seq(|order|, i requires 0 <= i < |order| => PoolEntry(order[i], pools[order[i]]))
  }

  /** Start of an iteration: list the pools, or pick an oldest pending row. */
  function Begin(s: State, c: Choice): Move {
    if c.scan && Listing(s.pools, c.order) then Go(Polled(Entries(s.pools, c.order)))
    else if !c.scan && IsOldestPending(s.rows, c.id) then Go(Picked(c.id, s.rows[c.id].task))
    else Go(s.worker)
  }

  /** enqueueDueAutoSnapshotJobs: the clock, then per pool the check, the move of its next run, the insert. */
  function Enqueue(cal: Calendar, s: State, id: JobId): Move {
    match s.worker
    case Polled(todo) => Go(Scan(todo, s.now))
    case Scan(todo, at) =>
      if todo == [] then Go(Idle)
      else if !IsDue(todo[0].pool, at) || HasActiveSnapshot(s.rows, todo[0].id) then Go(Scan(todo[1..], at))
      else Go(Due(todo[0], todo[1..], at, Resumes(s.log, todo[0].id)))
    case Due(e, todo, at, base) =>
      Move(Queued(e, todo, at, base),
           if e.id in s.pools
           then WritePool(e.id, s.pools[e.id].(next := Some(CatchUpTime(cal, e.pool.next, e.pool.schedule, at))))
           else Nothing,
           Quiet)
    case Queued(e, todo, at, base) =>
      if id in s.issued || e.pool.next.None? then Go(s.worker)
      else Move(Scan(todo, at), Insert(id, NewRow(Snapshot(e.id), at), []), Fire(e.id, Firing(e.pool.next.value, at)))
    case _ => Go(s.worker)
  }

  /** Dispatch on the type; resolve the storage and open the cache file, or load the pool. */
  function Resolve(s: State, id: JobId, task: Task, ok: bool): Move {
    match task
    case Unreadable => Move(Finish(id, Fail, None), Nothing, Failure(id))
    case Sync(path) =>
      if ok && path in s.files then Go(Opened(id, Transfer(path, s.files[path])))
      else Move(Finish(id, Fail, Some(path)), Nothing, Failure(id))
    case Snapshot(pool) =>
      if ok && pool in s.pools && IsArmed(s.pools[pool]) then Go(Opened(id, Capture(pool, s.pools[pool].schedule)))
      else Move(Finish(id, Fail, None), Nothing, Failure(id))
  }

  /** The upload or snapshot returns. context.Canceled comes back only from a cancelled context. */
  function Return(s: State, id: JobId, work: Work, run: Run, outcome: Outcome): Move {
    match outcome
    case Done => Move(Stopped(id, work, run, Done), Nothing, if work.Transfer? then Sent(id, work.bytes) else Quiet)
    case Interrupted => if run in s.cancelled then Go(Stopped(id, work, run, Interrupted)) else Go(s.worker)
    case Broke => Move(Stopped(id, work, run, Broke), Nothing, Failure(id))
  }

  /** What a run that returned does next: its file removal and its closing statement. */
  function AfterRun(id: JobId, work: Work, outcome: Outcome, reason: Option<Reason>, seen: Option<Status>): Worker {
    match outcome
    case Interrupted =>
      (match reason
       case Some(ForPause) => Finish(id, Pause, None)
       case Some(ForCancel) => if work.Transfer? then Remove(id, work.path, Some(Cancel)) else Finish(id, Cancel, None)
       case Some(ForDelete) => if work.Transfer? then Remove(id, work.path, Some(Delete)) else Finish(id, Delete, None)
       case None => Finish(id, Fail, None))
    case Broke =>
      if work.Capture? then Finish(id, Fail, None)
      else if seen == Some(Paused) then Idle
      else if seen == Some(Cancelled) then Remove(id, work.path, None)
      else Finish(id, Fail, Some(work.path))
    case Done =>
      if seen == Some(Running) then
        if work.Transfer? then Remove(id, work.path, Some(Succeed)) else Finish(id, Succeed, None)
      else if seen == Some(Cancelled) && work.Transfer? then Remove(id, work.path, None)
      else Idle
  }

  /** The handling of a returned run; a finished snapshot first rewrites its pool's next run, which may fail. */
  function Judge(cal: Calendar, s: State, id: JobId, work: Work, outcome: Outcome, reason: Option<Reason>, seen: Option<Status>, ok: bool): Move {
    if outcome == Done && work.Capture? && seen == Some(Running) then
      if !ok then Move(Finish(id, Fail, None), Nothing, Failure(id))
      else Move(Finish(id, Succeed, None),
                if work.pool in s.pools
                then WritePool(work.pool, s.pools[work.pool].(last := Some(s.now), next := Some(NextTime(cal, work.schedule, s.now))))
                else Nothing,
                Quiet)
    else Move(AfterRun(id, work, outcome, reason, seen), Nothing, if outcome == Interrupted && reason.None? then Failure(id) else Quiet)
  }

  function WorkerMove(cal: Calendar, s: State, c: Choice): Move {
    match s.worker
    case Idle => Begin(s, c)
    case Polled(_) => Enqueue(cal, s, c.id)
    case Scan(_, _) => Enqueue(cal, s, c.id)
    case Due(_, _, _, _) => Enqueue(cal, s, c.id)
    case Queued(_, _, _, _) => Enqueue(cal, s, c.id)
    case Picked(id, task) =>                                                      // claimNextPendingJob, UPDATE
      if StatusOf(s.rows, id) == Some(Pending) then Move(Claimed(id, task), Sql(id, Claim), Quiet) else Go(Idle)
    case Claimed(id, task) => Resolve(s, id, task, c.ok)
    case Opened(id, work) => Move(Ready(id, work), Sql(id, SetProgress(25)), Quiet)      // updateProgress
    case Ready(id, work) => Move(Active(id, work, s.nextRun), Register(id), Quiet)       // register, start heartbeat
    case Active(id, work, run) => Return(s, id, work, run, c.outcome)
    case Stopped(id, work, run, outcome) =>                                       // stop heartbeat, unregister
      Move(Left(id, work, run, outcome, Lookup(s.reg.reasons, id)), Unregister(id), Quiet)
    case Left(id, work, run, outcome, reason) =>                                  // currentJobStatus
      Go(Judged(id, work, run, outcome, reason, StatusOf(s.rows, id)))
    case Judged(id, work, _, outcome, reason, seen) => Judge(cal, s, id, work, outcome, reason, seen, c.ok)
    case Finish(id, st, wipe) =>                                                  // the closing statement
      Move(if wipe.Some? then Remove(id, wipe.value, None) else Idle, Sql(id, st), Quiet)
    case Remove(id, path, follow) =>                                              // cleanupCloudSyncLocalPayload
      Move(if follow.Some? then Finish(id, follow.value, None) else Idle, Unlink(path), Quiet)
  }

  // ---- Requests ---------------------------------------------------------------------------------

  datatype Answer = Answer(handler: Option<Handler>, effect: Effect, note: Note)

  /** A handler reads the row and chooses its course by the status it saw; nothing means it is done. */
  function Respond(row: Row, op: Op, id: JobId): Answer {
    match op
    case OpPause =>
      if row.status == Pending then Answer(Some(Put(id, Pause)), Nothing, Quiet)
      else if row.status == Running then Answer(Some(StopAsk(id, row.task, ForPause)), Nothing, Quiet)
      else Answer(None, Nothing, Quiet)
    case OpResume =>
      if row.status == Paused then Answer(Some(Stat(id, row.task)), Nothing, Quiet) else Answer(None, Nothing, Quiet)
    case OpCancel =>
      if row.status == Pending || row.status == Paused then Answer(Some(Wipe(id, row.task, Cancel)), Nothing, StopWanted(id))
      else if row.status == Running then Answer(Some(StopAsk(id, row.task, ForCancel)), Nothing, StopWanted(id))
      else Answer(None, Nothing, Quiet)
    case OpDelete =>
      Answer(Some(if row.status == Running then StopAsk(id, row.task, ForDelete) else Wipe(id, row.task, Delete)), Nothing, StopWanted(id))
  }

  function AfterStop(id: JobId, task: Task, reason: Reason, accepted: bool): Handler {
    match reason
    case ForPause => Put(id, Pause)
    case ForCancel => Wipe(id, task, Cancel)
    case ForDelete => if accepted then Put(id, Delete) else Wipe(id, task, Delete)
  }

  function HandlerMove(s: State, h: Handler): Answer {
    match h
    case StopAsk(id, task, reason) =>                                             // requestRunningJobStop
      Answer(Some(if id in s.reg.cancels then StopCall(id, task, reason, s.reg.cancels[id]) else AfterStop(id, task, reason, false)),
             RequestStop(id, reason), Quiet)
    case StopCall(id, task, reason, run) =>                                       // its cancel() call
      Answer(Some(AfterStop(id, task, reason, true)), CancelContext(run), Quiet)
    case Wipe(id, task, st) =>                                                    // cleanupJobPayload
      Answer(Some(Put(id, st)), if task.Sync? then Unlink(task.path) else Nothing, Quiet)
    case Stat(id, task) =>                                                        // ensureJobLocalCacheAvailable
      if task.Sync? && task.path !in s.files then Answer(None, Nothing, Quiet) else Answer(Some(Put(id, Resume)), Nothing, Quiet)
    case Put(id, st) => Answer(None, Sql(id, st), Quiet)
  }

  function Place<V>(m: map<Thread, V>, tid: Thread, v: Option<V>): map<Thread, V> {
    if v.Some? then m[tid := v.value] else m - {tid}
  }

  // ---- Sweeps -----------------------------------------------------------------------------------

  datatype Pass = Pass(sweep: Option<Sweep>, effect: Effect, note: Note)

  function RunningRows(rows: Rows): Rows {
    map i | i in rows && rows[i].status == Running :: rows[i]
  }

  function StaleRows(items: Rows, now: int): Rows {
    map i | i in items && IsStale(items[i], now) :: items[i]
  }

  /** markStaleRunningJobs: SELECT; cutoff and comparison; guarded UPDATE per stale row; file removal. */
  function SweepMove(s: State, sw: Sweep, id: JobId): Pass {
    match sw
    case Listed(items, _) => Pass(Some(Marking(StaleRows(items, s.now))), Nothing, Quiet)
    case Marking(items) =>
      if id in items then
        if StatusOf(s.rows, id) == Some(Running) then
          Pass(Some(if items[id].task.Sync? then Wiping(id, items[id].task.path, items - {id}) else Marking(items - {id})),
               Sql(id, FailStale), StaleFailure(id))
        else Pass(Some(Marking(items - {id})), Nothing, Quiet)
      else Pass(if items == map[] then None else Some(sw), Nothing, Quiet)
    case Wiping(_, path, items) => Pass(Some(Marking(items)), Unlink(path), Quiet)
  }

  // ---- Steps and runs ---------------------------------------------------------------------------

  datatype Action =
    | Elapse(d: nat)
    | Submit(id: JobId, task: Task, bytes: Bytes)
    | Ask(tid: Thread, op: Op, id: JobId)
    | Handle(tid: Thread)
    | SweepList(tid: Thread)
    | SweepNext(tid: Thread, id: JobId)
    | Beat(id: JobId)
    | BeatEnd(id: JobId)
    | Work(choice: Choice)
    | Configure(pool: PoolId, entry: Pool)
    | Disturb(path: Path, file: Option<Bytes>)
    | Crash

  /** Another part of the server creates a pending job: EnqueueCloudSync for a file, or a job this worker
      will reject. Nothing keeps two jobs from having the same file. */
  predicate CanSubmit(s: State, id: JobId, task: Task) {
    id !in s.issued && !task.Snapshot?
  }

  function WorkStep(cal: Calendar, s: State, c: Choice): State {
    var m := WorkerMove(cal, s, c);
    After(s, m.effect, m.note, m.worker, s.handlers, s.sweeps)
  }

  function AnswerStep(s: State, tid: Thread, a: Answer): State {
    After(s, a.effect, a.note, s.worker, Place(s.handlers, tid, a.handler), s.sweeps)
  }

  function PassStep(s: State, tid: Thread, p: Pass): State {
    After(s, p.effect, p.note, s.worker, s.handlers, Place(s.sweeps, tid, p.sweep))
  }

  function PlainStep(s: State, e: Effect): State {
    After(s, e, Quiet, s.worker, s.handlers, s.sweeps)
  }

  /** The process dies: tables and files stay, everything in memory is lost. */
  function CrashStep(s: State): State {
    s.(worker := Idle, reg := EMPTY_REGISTRY, beats := {}, handlers := map[], sweeps := map[],
       log := s.log.(orphans := RunningRows(s.rows).Keys))
  }

  /** One step. A step whose guard fails changes nothing. */
  function Step(cal: Calendar, s: State, a: Action): State {
    match a
    case Elapse(d) => s.(now := s.now + d)
    case Submit(id, task, bytes) => if CanSubmit(s, id, task) then PlainStep(s, Insert(id, NewRow(task, s.now), bytes)) else s
    case Ask(tid, op, id) => if tid !in s.handlers && id in s.rows then AnswerStep(s, tid, Respond(s.rows[id], op, id)) else s
    case Handle(tid) => if tid in s.handlers then AnswerStep(s, tid, HandlerMove(s, s.handlers[tid])) else s
    case SweepList(tid) =>
      if tid !in s.sweeps then PassStep(s, tid, Pass(Some(Listed(RunningRows(s.rows), s.now)), Nothing, Quiet)) else s
    case SweepNext(tid, id) => if tid in s.sweeps then PassStep(s, tid, SweepMove(s, s.sweeps[tid], id)) else s
    case Beat(id) => if id in s.beats then PlainStep(s, Sql(id, Heartbeat)) else s
    case BeatEnd(id) => if s.worker.Active? && s.worker.id == id then s else s.(beats := s.beats - {id})
    case Work(c) => WorkStep(cal, s, c)
    case Configure(pool, entry) => s.(pools := s.pools[pool := entry])
    case Disturb(path, file) => PlainStep(s, Rewrite(path, file))
    case Crash => CrashStep(s)
  }

  /** The effect of a step on the shared data. */
  function EffectOf(cal: Calendar, s: State, a: Action): Effect {
    match a
    case Submit(id, task, bytes) => if CanSubmit(s, id, task) then Insert(id, NewRow(task, s.now), bytes) else Nothing
    case Handle(tid) => if tid in s.handlers then HandlerMove(s, s.handlers[tid]).effect else Nothing
    case SweepNext(tid, id) => if tid in s.sweeps then SweepMove(s, s.sweeps[tid], id).effect else Nothing
    case Beat(id) => if id in s.beats then Sql(id, Heartbeat) else Nothing
    case Work(c) => WorkerMove(cal, s, c).effect
    case Disturb(path, file) => Rewrite(path, file)
    case _ => Nothing
  }

  lemma NoEffect(s: State)
    ensures RowsAfter(s.rows, Nothing, s.now) == s.rows && IssuedAfter(s.issued, Nothing) == s.issued
    ensures FilesAfter(s.files, Nothing) == s.files && OrphansAfter(s.log.orphans, Nothing) == s.log.orphans
    ensures ResumesAfter(s.log, s.rows, Nothing) == s.log.resumes
  {
  }

  /** Tables and files change by the step's effect alone. */
  lemma StepEffect(cal: Calendar, s: State, a: Action)
    ensures
      var s', e := Step(cal, s, a), EffectOf(cal, s, a);
      && s'.rows == RowsAfter(s.rows, e, s.now) && s'.issued == IssuedAfter(s.issued, e) && s'.files == FilesAfter(s.files, e)
      && (!a.Crash? ==> s'.log.orphans == OrphansAfter(s.log.orphans, e))
      && s'.log.resumes == ResumesAfter(s.log, s.rows, e)
  {
    NoEffect(s);
    hide WorkerMove, HandlerMove, SweepMove, CanSubmit, RowsAfter, IssuedAfter, FilesAfter, OrphansAfter,
      ResumesAfter,
      PoolsAfter, RegAfter, AcceptedAfter, Fired, Place, RunningRows;
  }

  /** The state after a sequence of steps. */
  function RunAll(cal: Calendar, s: State, acts: seq<Action>): State {
    if acts == [] then s
    else Step(cal, RunAll(cal, s, acts[..|acts| - 1]), acts[|acts| - 1])
  }

  lemma {:induction false} RunConcat(cal: Calendar, s: State, acts: seq<Action>, more: seq<Action>)
    ensures RunAll(cal, s, acts + more) == RunAll(cal, RunAll(cal, s, acts), more)
    decreases |more|
  {
    hide Step;
    if more == [] {
      assert acts + more == acts;
    } else {
      var init, last := more[..|more| - 1], more[|more| - 1];
      RunConcat(cal, s, acts, init);
      assert (acts + more)[..|acts + more| - 1] == acts + init;
    }
  }

  lemma RunOne(cal: Calendar, s: State, acts: seq<Action>, a: Action)
    ensures RunAll(cal, s, acts + [a]) == Step(cal, RunAll(cal, s, acts), a)
  {
    hide Step;
    assert (acts + [a])[..|acts|] == acts;
  }
}
