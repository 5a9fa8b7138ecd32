/** The worker's own code, statement by statement, with other threads at work between any two of its
    steps. It refines the transition system: whatever the others do, the state it reaches is one the
    system reaches, so every theorem about runs holds for it; and its own steps are those its source takes. */
module JobWorker {
  import opened Wrappers
  import opened Text
  import opened Schedule
  import opened JobRows
  import opened JobEngine
  import opened JobOwnership
  import opened JobTraces
  import Drive = DriveUpload

  /** What happens around one iteration of the worker: whether storage and pool are found, what the network
      answers, whether a snapshot or the write of its pool fails, whether an error is the cancelled
      context's, and what other threads do before each of the worker's steps. */
  datatype Around = Around(resolves: bool, isDrive: bool, hasToken: bool, inRoot: bool, first: Drive.Attempt, second: Drive.Attempt,
                           fails: bool, canceled: bool, saves: bool, others: nat -> seq<Action>)

  predicate Uploads(a: Around) {
    Drive.GoesThrough(a.isDrive, a.hasToken, a.inRoot, true, a.first, a.second)
  }

  ghost predicate Fair(a: Around) {
    forall k :: OfOthers(a.others(k), TheWorker)
  }

  const ANY := Choice(false, [], 0, false, Done)

  function WithId(id: JobId): Choice {
    Choice(false, [], id, false, Done)
  }

  /** A number not in use. */
  method FreshId(ids: set<JobId>) returns (id: JobId)
    ensures id !in ids
  {
    id := 0;
    var todo := ids;
    while todo != {}
      invariant forall i :: i in ids && i !in todo ==> i < id
      decreases |todo|
    {
      var i := AnyOf(todo);
      todo := todo - {i};
      if i >= id {
        id := i + 1;
      }
    }
  }

  // ---- What the source does to the shared data -------------------------------------------------

  /** How a claimed job went: whether its storage and file, or its pool, were found, how the call returned, the stop reason
      found then, and the status read after that. */
  datatype Trip = Trip(found: bool, outcome: Outcome, reason: Option<Reason>, status: Option<Status>)

  /** updateProgress, registerRunningJob, the call, its unregister function, currentJobStatus. */
  function CallEffects(id: JobId): seq<Effect> {
    [Sql(id, SetProgress(25)), Register(id), Nothing, Unregister(id), Nothing]
  }

  /** The switch on the stop reason; only a transfer has a file to remove. */
  function InterruptEffects(id: JobId, file: Option<Path>, reason: Option<Reason>): seq<Effect> {
    match reason
    case Some(ForPause) => [Nothing, Sql(id, Pause)]
    case Some(ForCancel) => if file.Some? then [Nothing, Unlink(file.value), Sql(id, Cancel)] else [Nothing, Sql(id, Cancel)]
    case Some(ForDelete) => if file.Some? then [Nothing, Unlink(file.value), Sql(id, Delete)] else [Nothing, Sql(id, Delete)]
    case None => [Nothing, Sql(id, Fail)]
  }

  /** runCloudSyncJob: a rejected payload fails; a missing storage or file fails and is cleaned up; else the
      call, and then by its outcome and the status read after it. */
  function SyncEffects(id: JobId, task: Task, trip: Trip): seq<Effect>
    requires !task.Snapshot?
  {
    if task.Unreadable? then [Nothing, Sql(id, Fail)]
    else if !trip.found then [Nothing, Sql(id, Fail), Unlink(task.path)]
    else [Nothing] + CallEffects(id) + SyncEnd(id, task.path, trip)
  }

  function SyncEnd(id: JobId, path: Path, trip: Trip): seq<Effect> {
    match trip.outcome
    case Interrupted => InterruptEffects(id, Some(path), trip.reason)
    case Broke =>
      if trip.status == Some(Paused) then [Nothing]
      else if trip.status == Some(Status.Cancelled) then [Nothing, Unlink(path)]
      else [Nothing, Sql(id, Fail), Unlink(path)]
    case Done =>
      if trip.status == Some(Running) then [Nothing, Unlink(path), Sql(id, Succeed)]
      else if trip.status == Some(Status.Cancelled) then [Nothing, Unlink(path)]
      else [Nothing]
  }

  /** The same by the effects: when the file goes, and what is written to the row last. */
  lemma SyncEndIff(id: JobId, path: Path, trip: Trip)
    ensures
      var end := SyncEnd(id, path, trip);
      var stopped, reason, status := trip.outcome == Interrupted, trip.reason, trip.status;
      && (Unlink(path) in end <==>
            || (stopped && (reason == Some(ForCancel) || reason == Some(ForDelete)))
            || (trip.outcome == Broke && status != Some(Paused))
            || (trip.outcome == Done && (status == Some(Running) || status == Some(Status.Cancelled))))
      && (Sql(id, Succeed) in end <==> trip.outcome == Done && status == Some(Running))
      && (Sql(id, Fail) in end <==>
            (stopped && reason == None) || (trip.outcome == Broke && status != Some(Paused) && status != Some(Status.Cancelled)))
      && (Sql(id, Pause) in end <==> stopped && reason == Some(ForPause))
      && (Sql(id, Cancel) in end <==> stopped && reason == Some(ForCancel))
      && (Sql(id, Delete) in end <==> stopped && reason == Some(ForDelete))
      && (forall e :: e in end ==>
            e == Nothing || e == Unlink(path) || (e.Sql? && e.id == id && e.st in {Succeed, Fail, Pause, Cancel, Delete}))
      && |end| <= 3 && (Sql(id, Succeed) in end ==> end[2] == Sql(id, Succeed))
  {
  }

  /** runAutoSnapshotJob; `write` is the rewrite of the pool's last and next run, if it comes to that. */
  function SnapshotEffects(id: JobId, trip: Trip, write: Option<Effect>): seq<Effect> {
    if !trip.found then [Nothing, Sql(id, Fail)]
    else [Nothing] + CallEffects(id) + SnapshotEnd(id, trip, write)
  }

  function SnapshotEnd(id: JobId, trip: Trip, write: Option<Effect>): seq<Effect> {
    match trip.outcome
    case Interrupted => InterruptEffects(id, None, trip.reason)
    case Broke => [Nothing, Sql(id, Fail)]
    case Done =>
      if trip.status != Some(Running) then [Nothing]
      else if write.None? then [Nothing, Sql(id, Fail)]
      else [write.value, Sql(id, Succeed)]
  }

  /** The pool's last run is now and its next run the first selected instant after it; nothing if the pool
      is gone. */
  predicate RewritesPool(cal: Calendar, e: Effect, pool: PoolId, schedule: string) {
    || e == Nothing
    || (e.WritePool? && e.pool == pool && e.entry.last.Some? && e.entry.next == Some(NextTime(cal, schedule, e.entry.last.value)))
  }

  /** The stop reason was read when the run left the registry, the status at a later moment. */
  ghost predicate EndOk(cal: Calendar, start: State, trace: seq<Action>, id: JobId, trip: Trip, left: nat, at: nat) {
    && left < at <= |trace|
    && trip.reason == Lookup(Past(cal, start, trace, left).reg.reasons, id)
    && trip.status == StatusOf(Past(cal, start, trace, at).rows, id)
  }

  /** What decided the run of a cloud-sync job, and when. */
  ghost predicate SyncOk(
      cal: Calendar, start: State, trace: seq<Action>, a: Around, id: JobId, task: Task, trip: Trip, looked: nat, left: nat, at: nat) {
    task.Sync? ==>
      && looked <= |trace| && (trip.found <==> a.resolves && task.path in Past(cal, start, trace, looked).files)
      && (trip.found ==> looked < left && EndOk(cal, start, trace, id, trip, left, at) && (trip.outcome.Done? <==> Uploads(a)))
  }

  /** What decided the run of a snapshot job, and when. */
  ghost predicate SnapshotOk(
      cal: Calendar, start: State, trace: seq<Action>, a: Around, id: JobId, pool: PoolId, trip: Trip, write: Option<Effect>,
      looked: nat, left: nat, at: nat) {
    && looked <= |trace|
    && var pools := Past(cal, start, trace, looked).pools;
    && (trip.found <==> a.resolves && pool in pools && pools[pool].enabled && TrimSpace(pools[pool].schedule) != "")
    && (trip.found ==>
          && looked < left && EndOk(cal, start, trace, id, trip, left, at) && (trip.outcome.Done? <==> !a.fails)
          && (trip.outcome.Done? && trip.status == Some(Running) ==> (write.Some? <==> a.saves))
          && (write.Some? ==> RewritesPool(cal, write.value, pool, pools[pool].schedule)))
  }

  /** One call of processOnePendingJob: nothing was pending; the row was lost between the SELECT and the
      UPDATE; or the row was claimed and its job ran, with the moments of its reads. */
  datatype Visit =
    | NoRow
    | LostRow(id: JobId)
    | RanSync(id: JobId, task: Task, trip: Trip, looked: nat, left: nat, at: nat)
    | RanSnapshot(id: JobId, pool: PoolId, trip: Trip, write: Option<Effect>, looked: nat, left: nat, at: nat)

  predicate Proper(v: Visit) {
    v.RanSync? ==> !v.task.Snapshot?
  }

  function VisitEffects(v: Visit): seq<Effect>
    requires Proper(v)
  {
    if v.NoRow? then [] else [Nothing] + VisitTail(v)
  }

  /** What follows the pick. */
  function VisitTail(v: Visit): seq<Effect>
    requires !v.NoRow? && Proper(v)
  {
    match v
    case LostRow(_) => [Nothing]
    case RanSync(id, task, trip, _, _, _) => [Sql(id, Claim)] + SyncEffects(id, task, trip)
    case RanSnapshot(id, _, trip, write, _, _, _) => [Sql(id, Claim)] + SnapshotEffects(id, trip, write)
  }

  /** What became of a listed pool: skipped by what was read at a moment of the run, or its next run moved
      and a job inserted. */
  datatype Fate = Skipped(at: nat) | Enqueued(at: nat, job: JobId, write: Effect)

  function FateEffects(entry: PoolEntry, now: int, fate: Fate): seq<Effect> {
    match fate
    case Skipped(_) => [Nothing]
    case Enqueued(_, job, write) => [Nothing, write, Insert(job, NewRow(Snapshot(entry.id), now), [])]
  }

  /** One visit for each listed pool, in order. */
  function LoopEffects(listed: seq<PoolEntry>, now: int, fates: seq<Fate>): seq<Effect>
    requires |fates| <= |listed|
  {
    if fates == [] then []
    else
      var n := |fates| - 1;
      LoopEffects(listed, now, fates[..n]) + FateEffects(listed[n], now, fates[n])
  }

  /** A pool is skipped exactly when it is not due or, at its check, has a pending or running job. */
  ghost predicate FateOk(cal: Calendar, start: State, trace: seq<Action>, entry: PoolEntry, now: int, fate: Fate) {
    && fate.at <= |trace|
    && (fate.Skipped? <==>
          || !entry.pool.enabled || TrimSpace(entry.pool.schedule) == "" || entry.pool.next.None? || entry.pool.next.value > now
          || var rows := Past(cal, start, trace, fate.at).rows;
          exists i :: i in rows && rows[i].task == Snapshot(entry.id) && (rows[i].status == Pending || rows[i].status == Running))
    && (fate.Enqueued? && fate.write != Nothing ==>
          && fate.write.WritePool? && fate.write.pool == entry.id
          && fate.write.entry.next == Some(CatchUpTime(cal, entry.pool.next, entry.pool.schedule, now)))
  }

  ghost predicate FatesOk(cal: Calendar, start: State, trace: seq<Action>, listed: seq<PoolEntry>, now: int, fates: seq<Fate>) {
    |fates| <= |listed| && forall k :: 0 <= k < |fates| ==> FateOk(cal, start, trace, listed[k], now, fates[k])
  }

  /** The list holds every pool once, as it was. */
  ghost predicate ListsAll(pools: map<PoolId, Pool>, listed: seq<PoolEntry>) {
    && (forall i :: 0 <= i < |listed| ==> listed[i].id in pools && listed[i].pool == pools[listed[i].id])
    && (forall i, j :: 0 <= i < j < |listed| ==> listed[i].id != listed[j].id)
    && (forall p :: p in pools ==> exists i :: 0 <= i < |listed| && listed[i].id == p)
  }

  /** Every pool was listed at one moment, the clock read at a later one, and each listed pool visited. */
  ghost predicate LoopOk(
      cal: Calendar, start: State, trace: seq<Action>, listed: seq<PoolEntry>, now: int, fates: seq<Fate>, at: nat, clock: nat) {
    && at < clock <= |trace| && ListsAll(Past(cal, start, trace, at).pools, listed) && now == Past(cal, start, trace, clock).now
    && |fates| == |listed| && FatesOk(cal, start, trace, listed, now, fates)
  }

  /** How the run of a claimed job was decided. */
  ghost predicate RanOk(cal: Calendar, start: State, trace: seq<Action>, a: Around, v: Visit) {
    match v
    case RanSync(id, task, trip, looked, left, at) => SyncOk(cal, start, trace, a, id, task, trip, looked, left, at)
    case RanSnapshot(id, pool, trip, write, looked, left, at) => SnapshotOk(cal, start, trace, a, id, pool, trip, write, looked, left, at)
    case _ => true
  }

  /** At one moment either no row was pending, or one of the oldest was taken; it was lost only by being
      pending no longer at a later moment. */
  ghost predicate VisitOk(cal: Calendar, start: State, trace: seq<Action>, a: Around, visit: Visit, at: nat, lost: nat) {
    && at <= |trace| && lost <= |trace| && Proper(visit) && RanOk(cal, start, trace, a, visit)
    && var rows := Past(cal, start, trace, at).rows;
    && (visit.NoRow? ==> forall i :: i in rows ==> rows[i].status != Pending)
    && (!visit.NoRow? ==> IsOldestPending(rows, visit.id) && at < |trace| && trace[at] == Work(WithId(visit.id)))
    && (visit.RanSync? ==> visit.id in rows && rows[visit.id].task == visit.task)
    && (visit.RanSnapshot? ==> visit.id in rows && rows[visit.id].task == Snapshot(visit.pool))
    && (visit.LostRow? ==> at < lost && StatusOf(Past(cal, start, trace, lost).rows, visit.id) != Some(Pending))
  }

  /** One iteration of the worker's loop, with the moments of its reads. */
  datatype Round = Round(listed: seq<PoolEntry>, now: int, fates: seq<Fate>, listedAt: nat, clockAt: nat,
                         visit: Visit, pickedAt: nat, lostAt: nat)

  ghost predicate RoundOk(cal: Calendar, start: State, trace: seq<Action>, a: Around, r: Round) {
    && LoopOk(cal, start, trace, r.listed, r.now, r.fates, r.listedAt, r.clockAt)
    && VisitOk(cal, start, trace, a, r.visit, r.pickedAt, r.lostAt)
  }

  predicate Shaped(r: Round) {
    |r.fates| == |r.listed| && Proper(r.visit)
  }

  function RoundEffects(r: Round): seq<Effect>
    requires Shaped(r)
  {
    [Nothing, Nothing] + LoopEffects(r.listed, r.now, r.fates) + [Nothing] + VisitEffects(r.visit)
  }

  function RoundsEffects(rounds: seq<Round>): seq<Effect>
    requires forall i :: 0 <= i < |rounds| ==> Shaped(rounds[i])
  {
    if rounds == [] then [] else RoundsEffects(rounds[..|rounds| - 1]) + RoundEffects(rounds[|rounds| - 1])
  }

  /** The two ways into a snapshot job. */
  lemma LoadMoves(cal: Calendar, s: State, id: JobId, pool: PoolId)
    requires s.worker == Claimed(id, Snapshot(pool))
    ensures WorkerMove(cal, s, ANY) == Move(Finish(id, Fail, None), Nothing, Failure(id))
    ensures pool in s.pools && IsArmed(s.pools[pool]) ==>
              WorkerMove(cal, s, ANY.(ok := true)) == Move(Opened(id, Capture(pool, s.pools[pool].schedule)), Nothing, Quiet)
  {
    hide IsArmed;
  }

  /** The two ways out of a finished snapshot. */
  lemma SaveMoves(cal: Calendar, s: State, id: JobId, pool: PoolId, schedule: string, run: Run, trip: Trip)
    requires s.worker == Judged(id, Capture(pool, schedule), run, trip.outcome, trip.reason, trip.status)
    requires trip.outcome == Done && trip.status == Some(Running)
    ensures WorkerMove(cal, s, ANY) == Move(Finish(id, Fail, None), Nothing, Failure(id))
    ensures
      WorkerMove(cal, s, ANY.(ok := true)) ==
      Move(Finish(id, Succeed, None),
           if pool in s.pools then WritePool(pool, s.pools[pool].(last := Some(s.now), next := Some(NextTime(cal, schedule, s.now)))) else Nothing,
           Quiet)
  {
    hide NextTime;
  }

  /** Some order of all pools. */
  method OrderOf(pools: map<PoolId, Pool>) returns (order: seq<PoolId>)
    ensures Listing(pools, order) && ListsAll(pools, Entries(pools, order))
  {
    order := [];
    var todo := pools.Keys;
    while todo != {}
      invariant todo <= pools.Keys && Listing(pools, order)
      invariant forall p :: p in pools ==> p in todo || p in order
      invariant forall p :: p in order ==> p !in todo
      decreases |todo|
    {
      var p := AnyOf(todo);
      todo := todo - {p};
      order := order + [p];
    }
    ghost var listed := Entries(pools, order);
    forall p | p in pools ensures exists i :: 0 <= i < |listed| && listed[i].id == p {
      var i :| 0 <= i < |order| && order[i] == p;
      assert listed[i].id == p;
    }
  }

  class Server {
    const cal: Calendar
    const remote: Drive.Remote
    var s: State
    ghost var start: State
    ghost var trace: seq<Action>
    ghost var done: seq<Effect>
    var turn: nat

    /** The state is the transition system's after the steps taken so far, none of them a crash; `done` is
        what the worker's own steps did; and what a job sent since the start is stored at the remote. */
    ghost predicate Valid()
      reads this, remote
    {
      && s == RunAll(cal, start, trace) && CrashFree(trace) && done == Effects(cal, start, trace, TheWorker)
      && (forall i :: i in s.log.sent ==>
            (i in start.log.sent && start.log.sent[i] == s.log.sent[i]) || s.log.sent[i] in remote.stored)
    }

    constructor (cal: Calendar, remote: Drive.Remote, s: State)
      ensures Valid() && this.s == s && start == s && trace == [] && done == [] && this.cal == cal && this.remote == remote
    {
      this.cal, this.remote, this.s, this.start, this.trace, this.done, this.turn := cal, remote, s, s, [], [], 0;
    }

    /** Other threads take their steps. */
    method Yield(a: Around)
      requires Valid() && Fair(a)
      modifies this
      ensures Valid() && start == old(start) && old(trace) <= trace && done == old(done) && s.worker == old(s).worker
    {
      hide RunAll, Effects;
      var acts := a.others(turn);
      RunConcat(cal, start, trace, acts);
      EffectsOthers(cal, start, trace, TheWorker, acts);
      ThreadWaits(cal, s, acts, TheWorker);
      SendsNothing(cal, s, acts);
      s := RunAll(cal, s, acts);
      trace := trace + acts;
      turn := turn + 1;
    }

    /** One step of the worker: its effect, what it records, and where it goes on. The choice is what the
        environment answers at that step. A transfer is recorded as sent only if the remote has it. */
    method Take(e: Effect, n: Note, next: Worker, ghost c: Choice)
      requires Valid() && WorkerMove(cal, s, c) == Move(next, e, n)
      requires n.Sent? ==> n.bytes in remote.stored
      modifies this
      ensures Valid() && start == old(start) && trace == old(trace) + [Work(c)] && done == old(done) + [e]
      ensures s == After(old(s), e, n, next, old(s).handlers, old(s).sweeps) && s.worker == next
    {
      hide RunAll, Effects, WorkerMove;
      RunOne(cal, start, trace, Work(c));
      EffectsOne(cal, start, trace, TheWorker, Work(c));
      s := After(s, e, n, next, s.handlers, s.sweeps);
      trace := trace + [Work(c)];
      done := done + [e];
    }

    /** The closing statement. */
    method Close(id: JobId, st: Statement, a: Around)
      requires Valid() && Fair(a) && s.worker == Finish(id, st, None)
      modifies this
      ensures Valid() && start == old(start) && old(trace) <= trace && s.worker == Idle
      ensures done == old(done) + [Sql(id, st)]
    {
      hide Valid, Fair, After;
      Yield(a);
      Take(Sql(id, st), Quiet, Idle, ANY);
    }

    /** cleanupCloudSyncLocalPayload, and the closing statement that may follow it. */
    method CleanUp(id: JobId, path: Path, follow: Option<Statement>, a: Around)
      requires Valid() && Fair(a) && s.worker == Remove(id, path, follow)
      modifies this
      ensures Valid() && start == old(start) && old(trace) <= trace && s.worker == Idle
      ensures done == old(done) + if follow.Some? then [Unlink(path), Sql(id, follow.value)] else [Unlink(path)]
    {
      hide Valid, Fair, After;
      Yield(a);
      Take(Unlink(path), Quiet, if follow.Some? then Finish(id, follow.value, None) else Idle, ANY);
      if follow.Some? {
        Close(id, follow.value, a);
      }
    }

    /** updateFailure, then the removal of the cache file. */
    method FailAndCleanUp(id: JobId, path: Path, a: Around)
      requires Valid() && Fair(a) && s.worker == Finish(id, Fail, Some(path))
      modifies this
      ensures Valid() && start == old(start) && old(trace) <= trace && s.worker == Idle
      ensures done == old(done) + [Sql(id, Fail), Unlink(path)]
    {
      hide Valid, Fair, After;
      Yield(a);
      Take(Sql(id, Fail), Quiet, Remove(id, path, None), ANY);
      CleanUp(id, path, None, a);
    }

    /** The call: UploadGoogleDriveReader on the opened file, or the snapshot. An error is the cancelled
        context's only if the run was cancelled. */
    method Call(work: Work, run: Run, a: Around) returns (outcome: Outcome)
      requires Valid()
      modifies remote
      ensures Valid() && old(remote.stored) <= remote.stored
      ensures outcome == Interrupted ==> run in s.cancelled
      ensures outcome.Done? <==> if work.Transfer? then Uploads(a) else !a.fails
      ensures work.Transfer? && outcome.Done? ==> remote.stored == old(remote.stored) + [work.bytes]
      ensures work.Transfer? && !outcome.Done? ==>
                remote.stored == old(remote.stored) || remote.stored == old(remote.stored) + [work.bytes]
      ensures work.Capture? ==> remote.stored == old(remote.stored)
    {
      hide RunAll, Effects;
      var failed := a.fails;
      if work.Transfer? {
        var source := new Drive.Source(work.bytes, true);
        var failure := Drive.UploadReader(a.isDrive, a.hasToken, a.inRoot, source, remote, [a.first, a.second]);
        failed := failure.Some?;
      }
      outcome := if !failed then Done else if a.canceled && run in s.cancelled then Interrupted else Broke;
    }

    /** Progress, registration, the call, the end of the registration, the status. */
    method RunWork(id: JobId, work: Work, a: Around)
      returns (run: Run, outcome: Outcome, reason: Option<Reason>, status: Option<Status>, ghost left: nat, ghost at: nat)
      requires Valid() && Fair(a) && s.worker == Opened(id, work)
      modifies this, remote
      ensures Valid() && start == old(start) && old(trace) <= trace && done == old(done) + CallEffects(id)
      ensures s.worker == Judged(id, work, run, outcome, reason, status)
      ensures outcome.Done? <==> if work.Transfer? then Uploads(a) else !a.fails
      ensures work.Transfer? && outcome.Done? ==> remote.stored == old(remote.stored) + [work.bytes]
      ensures |old(trace)| < left && EndOk(cal, start, trace, id, Trip(true, outcome, reason, status), left, at)
    {
      hide Valid, Fair, After, Past, RunAll;
      run, outcome := RunCall(id, work, a);
      Yield(a);
      left := |trace|;
      Now();
      ghost var before := trace;
      reason := if id in s.reg.reasons then Some(s.reg.reasons[id]) else None;
      Take(Unregister(id), Quiet, Left(id, work, run, outcome, reason), ANY);
      Yield(a);
      status := if id in s.rows then Some(s.rows[id].status) else None;
      ghost var seen := trace;
      at := |trace|;
      Now();
      Take(Nothing, Quiet, Judged(id, work, run, outcome, reason, status), ANY);
      Yield(a);
      PastStays(cal, start, before, trace, left);
      PastStays(cal, start, seen, trace, at);
    }

    lemma Now()
      requires Valid()
      ensures Past(cal, start, trace, |trace|) == s
    {
      PastNow(cal, start, trace);
      hide RunAll, Effects, Past;
    }

    /** Progress, registration, and the upload or snapshot until it returns. */
    method RunCall(id: JobId, work: Work, a: Around) returns (run: Run, outcome: Outcome)
      requires Valid() && Fair(a) && s.worker == Opened(id, work)
      modifies this, remote
      ensures Valid() && start == old(start) && old(trace) <= trace && s.worker == Stopped(id, work, run, outcome)
      ensures done == old(done) + [Sql(id, SetProgress(25)), Register(id), Nothing] && |old(trace)| < |trace|
      ensures outcome.Done? <==> if work.Transfer? then Uploads(a) else !a.fails
      ensures work.Transfer? && outcome.Done? ==> remote.stored == old(remote.stored) + [work.bytes]
    {
      hide Valid, Fair, After;
      Yield(a);
      Take(Sql(id, SetProgress(25)), Quiet, Ready(id, work), ANY);
      Yield(a);
      run := s.nextRun;
      Take(Register(id), Quiet, Active(id, work, run), ANY);
      Yield(a);
      outcome := Call(work, run, a);
      var note := match outcome
        case Done => if work.Transfer? then Sent(id, work.bytes) else Quiet
        case Interrupted => Quiet
        case Broke => Failure(id);
      Take(Nothing, note, Stopped(id, work, run, outcome), ANY.(outcome := outcome));
    }

    /** runCloudSyncJob. Every path takes exactly the steps of the source, decided by what it found; a call
        without error has stored the file at the remote, once. */
    method RunCloudSyncJob(id: JobId, task: Task, a: Around) returns (trip: Trip, ghost looked: nat, ghost left: nat, ghost at: nat)
      requires Valid() && Fair(a) && s.worker == Claimed(id, task) && !task.Snapshot?
      modifies this, remote
      ensures Valid() && start == old(start) && old(trace) <= trace && s.worker == Idle
      ensures done == old(done) + SyncEffects(id, task, trip)
      ensures SyncOk(cal, start, trace, a, id, task, trip, looked, left, at)
      ensures task.Sync? && trip.found && trip.outcome.Done? ==> |remote.stored| == |old(remote.stored)| + 1
    {
      hide Valid, Fair, After, Past, CallEffects, SyncEnd, EndOk;
      trip, left, at := Trip(false, Broke, None, None), 0, 0;
      Yield(a);
      looked := |trace|;
      Now();
      ghost var seen := trace;
      if task.Unreadable? || !a.resolves || task.path !in s.files {
        RejectCloudSync(id, task, trip, a);
        PastStays(cal, start, seen, trace, looked);
        return;
      }
      var path := task.path;
      var work := Transfer(path, s.files[path]);
      Take(Nothing, Quiet, Opened(id, work), ANY.(ok := true));
      trip, left, at := SendOpened(id, work, a);
      PastStays(cal, start, seen, trace, looked);
    }

    /** A payload that does not decode, a missing storage or a missing file. */
    method RejectCloudSync(id: JobId, task: Task, trip: Trip, a: Around)
      requires Valid() && Fair(a) && s.worker == Claimed(id, task) && !task.Snapshot? && !trip.found
      requires task.Unreadable? || !a.resolves || task.path !in s.files
      modifies this
      ensures Valid() && start == old(start) && old(trace) <= trace && s.worker == Idle
      ensures done == old(done) + SyncEffects(id, task, trip)
    {
      hide Valid, Fair, After;
      if task.Unreadable? {
        Take(Nothing, Failure(id), Finish(id, Fail, None), ANY);
        Close(id, Fail, a);
        return;
      }
      Take(Nothing, Failure(id), Finish(id, Fail, Some(task.path)), ANY);
      FailAndCleanUp(id, task.path, a);
    }

    /** The call on the opened file and all that follows. */
    method SendOpened(id: JobId, work: Work, a: Around) returns (trip: Trip, ghost left: nat, ghost at: nat)
      requires Valid() && Fair(a) && s.worker == Opened(id, work) && work.Transfer?
      modifies this, remote
      ensures Valid() && start == old(start) && old(trace) <= trace && s.worker == Idle && trip.found
      ensures done == old(done) + CallEffects(id) + SyncEnd(id, work.path, trip)
      ensures |old(trace)| < left && EndOk(cal, start, trace, id, trip, left, at)
      ensures trip.outcome.Done? <==> Uploads(a)
      ensures trip.outcome.Done? ==> |remote.stored| == |old(remote.stored)| + 1
    {
      hide Valid, Fair, After, Past, CallEffects, SyncEnd, EndOk;
      var run, outcome, reason, status;
      run, outcome, reason, status, left, at := RunWork(id, work, a);
      trip := Trip(true, outcome, reason, status);
      ghost var seen := trace;
      EndCloudSync(id, work, run, trip, a);
      EndStays(cal, start, seen, trace, id, trip, left, at);
    }

    /** The rest of it, after the status was read. */
    method EndCloudSync(id: JobId, work: Work, run: Run, trip: Trip, a: Around)
      requires Valid() && Fair(a) && work.Transfer?
      requires s.worker == Judged(id, work, run, trip.outcome, trip.reason, trip.status)
      modifies this
      ensures Valid() && start == old(start) && old(trace) <= trace && s.worker == Idle
      ensures done == old(done) + SyncEnd(id, work.path, trip)
    {
      hide Valid, Fair, After;
      var path := work.path;
      if trip.outcome == Interrupted {
        AfterInterrupt(id, work, run, trip.reason, trip.status, a);
        return;
      }
      if trip.outcome == Broke {
        if trip.status == Some(Paused) {
          Take(Nothing, Quiet, Idle, ANY);
          return;
        }
        if trip.status == Some(Status.Cancelled) {
          Take(Nothing, Quiet, Remove(id, path, None), ANY);
          CleanUp(id, path, None, a);
          return;
        }
        Take(Nothing, Quiet, Finish(id, Fail, Some(path)), ANY);
        FailAndCleanUp(id, path, a);
        return;
      }
      if trip.status != Some(Running) {
        if trip.status == Some(Status.Cancelled) {
          Take(Nothing, Quiet, Remove(id, path, None), ANY);
          CleanUp(id, path, None, a);
        } else {
          Take(Nothing, Quiet, Idle, ANY);
        }
        return;
      }
      Take(Nothing, Quiet, Remove(id, path, Some(Succeed)), ANY);
      CleanUp(id, path, Some(Succeed), a);
    }

    /** The switch on the stop reason, which both kinds of job share. */
    method AfterInterrupt(id: JobId, work: Work, run: Run, reason: Option<Reason>, status: Option<Status>, a: Around)
      requires Valid() && Fair(a) && s.worker == Judged(id, work, run, Interrupted, reason, status)
      modifies this
      ensures Valid() && start == old(start) && old(trace) <= trace && s.worker == Idle
      ensures done == old(done) + InterruptEffects(id, if work.Transfer? then Some(work.path) else None, reason)
    {
      hide Valid, Fair, After;
      match reason {
        case Some(ForPause) =>
          Take(Nothing, Quiet, Finish(id, Pause, None), ANY);
          Close(id, Pause, a);
        case Some(ForCancel) =>
          if work.Transfer? {
            Take(Nothing, Quiet, Remove(id, work.path, Some(Cancel)), ANY);
            CleanUp(id, work.path, Some(Cancel), a);
          } else {
            Take(Nothing, Quiet, Finish(id, Cancel, None), ANY);
            Close(id, Cancel, a);
          }
        case Some(ForDelete) =>
          if work.Transfer? {
            Take(Nothing, Quiet, Remove(id, work.path, Some(Delete)), ANY);
            CleanUp(id, work.path, Some(Delete), a);
          } else {
            Take(Nothing, Quiet, Finish(id, Delete, None), ANY);
            Close(id, Delete, a);
          }
        case None =>
          Take(Nothing, Failure(id), Finish(id, Fail, None), ANY);
          Close(id, Fail, a);
      }
    }

    /** runAutoSnapshotJob. */
    method RunAutoSnapshotJob(id: JobId, pool: PoolId, a: Around)
      returns (trip: Trip, ghost write: Option<Effect>, ghost looked: nat, ghost left: nat, ghost at: nat)
      requires Valid() && Fair(a) && s.worker == Claimed(id, Snapshot(pool))
      modifies this, remote
      ensures Valid() && start == old(start) && old(trace) <= trace && s.worker == Idle
      ensures done == old(done) + SnapshotEffects(id, trip, write)
      ensures SnapshotOk(cal, start, trace, a, id, pool, trip, write, looked, left, at)
      ensures
        var pools := Past(cal, start, trace, looked).pools;
        (pool in pools ==> !pools[pool].enabled || TrimSpace(pools[pool].schedule) == "") ==> done == old(done) + [Nothing, Sql(id, Fail)]
    {
      hide Valid, Fair, After, TrimSpace, Past, NextTime, CallEffects, SnapshotEnd, RewritesPool, WorkerMove, EndOk;
      trip, write, left, at := Trip(false, Broke, None, None), None, 0, 0;
      Yield(a);
      looked := |trace|;
      Now();
      LoadMoves(cal, s, id, pool);
      ghost var seen := trace;
      if !a.resolves || pool !in s.pools || !IsArmed(s.pools[pool]) {
        Take(Nothing, Failure(id), Finish(id, Fail, None), ANY);
        Close(id, Fail, a);
        PastStays(cal, start, seen, trace, looked);
        return;
      }
      var schedule := s.pools[pool].schedule;
      var work := Capture(pool, schedule);
      Take(Nothing, Quiet, Opened(id, work), ANY.(ok := true));
      trip, write, left, at := CaptureOpened(id, pool, schedule, a);
      PastStays(cal, start, seen, trace, looked);
    }

    method CaptureOpened(id: JobId, pool: PoolId, schedule: string, a: Around)
      returns (trip: Trip, ghost write: Option<Effect>, ghost left: nat, ghost at: nat)
      requires Valid() && Fair(a) && s.worker == Opened(id, Capture(pool, schedule))
      modifies this, remote
      ensures Valid() && start == old(start) && old(trace) <= trace && s.worker == Idle && trip.found
      ensures done == old(done) + CallEffects(id) + SnapshotEnd(id, trip, write)
      ensures |old(trace)| < left && EndOk(cal, start, trace, id, trip, left, at)
      ensures trip.outcome.Done? <==> !a.fails
      ensures trip.outcome.Done? && trip.status == Some(Running) ==> (write.Some? <==> a.saves)
      ensures write.Some? ==> RewritesPool(cal, write.value, pool, schedule)
    {
      hide Valid, Fair, After, Past, NextTime, CallEffects, SnapshotEnd, RewritesPool, EndOk;
      var run, outcome, reason, status;
      run, outcome, reason, status, left, at := RunWork(id, Capture(pool, schedule), a);
      trip := Trip(true, outcome, reason, status);
      ghost var seen := trace;
      write := EndAutoSnapshot(id, pool, schedule, run, trip, a);
      EndStays(cal, start, seen, trace, id, trip, left, at);
    }

    method EndAutoSnapshot(id: JobId, pool: PoolId, schedule: string, run: Run, trip: Trip, a: Around)
      returns (ghost write: Option<Effect>)
      requires Valid() && Fair(a) && s.worker == Judged(id, Capture(pool, schedule), run, trip.outcome, trip.reason, trip.status)
      modifies this
      ensures Valid() && start == old(start) && old(trace) <= trace && s.worker == Idle
      ensures done == old(done) + SnapshotEnd(id, trip, write)
      ensures trip.outcome.Done? && trip.status == Some(Running) ==> (write.Some? <==> a.saves)
      ensures write.Some? ==> RewritesPool(cal, write.value, pool, schedule)
    {
      hide Valid, Fair, After;
      write := None;
      if trip.outcome == Interrupted {
        AfterInterrupt(id, Capture(pool, schedule), run, trip.reason, trip.status, a);
        return;
      }
      if trip.outcome == Broke {
        Take(Nothing, Quiet, Finish(id, Fail, None), ANY);
        Close(id, Fail, a);
        return;
      }
      if trip.status != Some(Running) {
        Take(Nothing, Quiet, Idle, ANY);
        return;
      }
      write := SaveNextRun(id, pool, schedule, run, trip, a);
    }

    /** The snapshot's last and next run are saved, which may fail; then the closing statement. */
    method SaveNextRun(id: JobId, pool: PoolId, schedule: string, run: Run, trip: Trip, a: Around)
      returns (ghost write: Option<Effect>)
      requires Valid() && Fair(a) && s.worker == Judged(id, Capture(pool, schedule), run, trip.outcome, trip.reason, trip.status)
      requires trip.outcome == Done && trip.status == Some(Running)
      modifies this
      ensures Valid() && start == old(start) && old(trace) <= trace && s.worker == Idle
      ensures done == old(done) + SnapshotEnd(id, trip, write)
      ensures write.Some? <==> a.saves
      ensures write.Some? ==> RewritesPool(cal, write.value, pool, schedule)
    {
      hide Valid, Fair, After, WorkerMove, NextTime;
      SaveMoves(cal, s, id, pool, schedule, run, trip);
      write := None;
      if !a.saves {
        Take(Nothing, Failure(id), Finish(id, Fail, None), ANY);
        Close(id, Fail, a);
        return;
      }
      var next := Schedule.NextAutoSnapshotTime(cal, s.now, schedule);
      var e := if pool in s.pools then WritePool(pool, s.pools[pool].(last := Some(s.now), next := Some(next))) else Nothing;
      write := Some(e);
      Take(e, Quiet, Finish(id, Succeed, None), ANY.(ok := true));
      Close(id, Succeed, a);
    }

    /** processOnePendingJob with claimNextPendingJob. At the moment of the SELECT either no row was pending,
        or one of the oldest is taken; it is then claimed and run, or it is pending no longer. */
    method ProcessOnePendingJob(a: Around) returns (ghost visit: Visit, ghost at: nat, ghost lost: nat)
      requires Valid() && Fair(a) && s.worker == Idle
      modifies this, remote
      ensures Valid() && start == old(start) && old(trace) <= trace && s.worker == Idle
      ensures VisitOk(cal, start, trace, a, visit, at, lost) && |old(trace)| <= at
      ensures done == old(done) + VisitEffects(visit)
    {
      hide Valid, Fair, After, Past, SyncEffects, SnapshotEffects, IsOldestPending, SyncOk, SnapshotOk;
      Yield(a);
      at, lost := |trace|, 0;
      Now();
      ghost var seen := trace;
      var item := FindOldestPending(s.rows);
      if item.None? {
        return NoRow, at, lost;
      }
      var id, task := PickRow(item.value, a);
      visit, lost := ClaimPicked(id, task, a);
      PastStays(cal, start, seen, trace, at);
    }

    /** The UPDATE of the picked row, and the run if it changed the row. */
    method ClaimPicked(id: JobId, task: Task, a: Around) returns (ghost visit: Visit, ghost lost: nat)
      requires Valid() && Fair(a) && s.worker == Picked(id, task)
      modifies this, remote
      ensures Valid() && start == old(start) && old(trace) <= trace && s.worker == Idle && lost <= |trace|
      ensures !visit.NoRow? && visit.id == id && Proper(visit) && done == old(done) + VisitTail(visit)
      ensures visit.LostRow? ==> |old(trace)| <= lost && StatusOf(Past(cal, start, trace, lost).rows, id) != Some(Pending)
      ensures visit.RanSync? ==> visit.task == task
      ensures visit.RanSnapshot? ==> task == Snapshot(visit.pool)
      ensures RanOk(cal, start, trace, a, visit)
    {
      hide Valid, Fair, After, Past, SyncEffects, SnapshotEffects, SyncOk, SnapshotOk;
      lost := 0;
      if StatusOf(s.rows, id) != Some(Pending) {
        lost := |trace|;
        Now();
        ghost var seen := trace;
        Take(Nothing, Quiet, Idle, ANY);
        PastStays(cal, start, seen, trace, lost);
        return LostRow(id), lost;
      }
      Take(Sql(id, Claim), Quiet, Claimed(id, task), ANY);
      visit := RunClaimed(id, task, a);
    }

    method PickRow(item: JobId, a: Around) returns (id: JobId, task: Task)
      requires Valid() && Fair(a) && s.worker == Idle && IsOldestPending(s.rows, item)
      modifies this
      ensures Valid() && start == old(start) && old(trace) + [Work(WithId(item))] <= trace && done == old(done) + [Nothing]
      ensures id == item && task == old(s).rows[item].task && s.worker == Picked(id, task)
    {
      hide Valid, Fair, After;
      id, task := item, s.rows[item].task;
      Take(Nothing, Quiet, Picked(id, task), WithId(id));
      Yield(a);
    }

    /** The dispatch on the job's type. */
    method RunClaimed(id: JobId, task: Task, a: Around) returns (ghost visit: Visit)
      requires Valid() && Fair(a) && s.worker == Claimed(id, task)
      modifies this, remote
      ensures Valid() && start == old(start) && old(trace) <= trace && s.worker == Idle
      ensures if task.Snapshot? then visit.RanSnapshot? && visit.pool == task.pool else visit.RanSync? && visit.task == task
      ensures visit.id == id && RanOk(cal, start, trace, a, visit)
      ensures
        done == old(done) +
          if visit.RanSync? then SyncEffects(id, task, visit.trip) else SnapshotEffects(id, visit.trip, visit.write)
    {
      hide Valid, Fair, After, SyncEffects, SnapshotEffects, SyncOk, SnapshotOk;
      var trip;
      ghost var write, looked, left, at;
      if task.Snapshot? {
        trip, write, looked, left, at := RunAutoSnapshotJob(id, task.pool, a);
        visit := RanSnapshot(id, task.pool, trip, write, looked, left, at);
      } else {
        trip, looked, left, at := RunCloudSyncJob(id, task, a);
        visit := RanSync(id, task, trip, looked, left, at);
      }
    }

    /** The pools, each once. */
    method ListPools() returns (listed: seq<PoolEntry>)
      requires Valid() && s.worker == Idle
      modifies this
      ensures Valid() && start == old(start) && old(trace) < trace && done == old(done) + [Nothing]
      ensures s.worker == Polled(listed) && ListsAll(old(s).pools, listed)
    {
      hide Valid, After, ListsAll;
      var order := OrderOf(s.pools);
      listed := Entries(s.pools, order);
      Take(Nothing, Quiet, Polled(listed), Choice(true, order, 0, false, Done));
    }

    /** The pools of one moment, and the clock at a later one. */
    method ListAndRead(a: Around) returns (listed: seq<PoolEntry>, now: int, ghost at: nat, ghost clock: nat)
      requires Valid() && Fair(a) && s.worker == Idle
      modifies this
      ensures Valid() && start == old(start) && old(trace) <= trace && done == old(done) + [Nothing, Nothing]
      ensures s.worker == Scan(listed, now) && |old(trace)| <= at < clock <= |trace|
      ensures ListsAll(Past(cal, start, trace, at).pools, listed) && now == Past(cal, start, trace, clock).now
    {
      hide Valid, Fair, After, Past, ListsAll;
      Yield(a);
      at := |trace|;
      Now();
      ghost var seen := trace;
      listed := ListPools();
      Yield(a);
      clock := |trace|;
      Now();
      ghost var later := trace;
      now := s.now;
      Take(Nothing, Quiet, Scan(listed, now), ANY);
      PastStays(cal, start, seen, trace, at);
      PastStays(cal, start, later, trace, clock);
    }

    /** The loop: one visit for each listed pool, in order. */
    method VisitPools(pools: seq<PoolEntry>, now: int, a: Around) returns (ghost fates: seq<Fate>)
      requires Valid() && Fair(a) && cal.Valid() && s.worker == Scan(pools, now)
      modifies this
      ensures Valid() && start == old(start) && old(trace) <= trace && s.worker == Scan([], now)
      ensures FatesOk(cal, start, trace, pools, now, fates) && |fates| == |pools|
      ensures done == old(done) + LoopEffects(pools, now, fates)
    {
      hide Valid, Fair, After, Past, FatesOk, LoopEffects, FateEffects, FateOk;
      fates := [];
      NoFates(cal, start, trace, pools, now);
      var k := 0;
      assert pools[0..] == pools;
      while k < |pools|
        invariant 0 <= k <= |pools| && |fates| == k
        invariant Valid() && start == old(start) && old(trace) <= trace && s.worker == Scan(pools[k..], now)
        invariant FatesOk(cal, start, trace, pools, now, fates) && done == old(done) + LoopEffects(pools, now, fates)
      {
        ghost var before, others := trace, fates;
        assert pools[k..] == [pools[k]] + pools[k + 1..];
        ghost var fate := VisitPool(pools[k], pools[k + 1..], now, a);
        FatesStay(cal, start, before, trace, pools, now, others);
        OneMoreFate(cal, start, trace, pools, now, others, fate);
        fates := others + [fate];
        k := k + 1;
      }
      assert pools[|pools|..] == [];
    }

    /** enqueueDueAutoSnapshotJobs: every pool is listed once and visited in order. */
    method EnqueueDueAutoSnapshotJobs(a: Around)
      returns (ghost listed: seq<PoolEntry>, ghost now: int, ghost fates: seq<Fate>, ghost at: nat, ghost clock: nat)
      requires Valid() && Fair(a) && s.worker == Idle && cal.Valid()
      modifies this
      ensures Valid() && start == old(start) && old(trace) <= trace && s.worker == Idle
      ensures LoopOk(cal, start, trace, listed, now, fates, at, clock) && |old(trace)| <= at
      ensures done == old(done) + [Nothing, Nothing] + LoopEffects(listed, now, fates) + [Nothing]
    {
      hide Valid, Fair, After, Past, FatesOk, LoopEffects, ListsAll;
      var pools, moment;
      pools, moment, at, clock := ListAndRead(a);
      listed, now := pools, moment;
      ghost var seen := trace;
      fates := VisitPools(pools, moment, a);
      ghost var last := trace;
      Take(Nothing, Quiet, Idle, ANY);
      FatesStay(cal, start, last, trace, pools, moment, fates);
      PastStays(cal, start, seen, trace, at);
      PastStays(cal, start, seen, trace, clock);
    }

    /** One visit: the check, then, apart from it, the move of the next run and the insert. */
    method VisitPool(entry: PoolEntry, rest: seq<PoolEntry>, now: int, a: Around) returns (ghost fate: Fate)
      requires Valid() && Fair(a) && cal.Valid() && s.worker == Scan([entry] + rest, now)
      modifies this
      ensures Valid() && start == old(start) && old(trace) <= trace && s.worker == Scan(rest, now)
      ensures done == old(done) + FateEffects(entry, now, fate) && FateOk(cal, start, trace, entry, now, fate)
    {
      hide Valid, Fair, After, TrimSpace, CatchUpTime, Resumes, Past;
      assert ([entry] + rest)[1..] == rest;
      Yield(a);
      ghost var at, seen := |trace|, trace;
      Now();
      if !IsDue(entry.pool, now) || HasActiveSnapshot(s.rows, entry.id) {
        Take(Nothing, Quiet, Scan(rest, now), ANY);
        PastStays(cal, start, seen, trace, at);
        return Skipped(at);
      }
      ghost var job, write := Queue(entry, rest, now, a);
      PastStays(cal, start, seen, trace, at);
      return Enqueued(at, job, write);
    }

    /** Moves the pool's next run, then inserts the job. */
    method Queue(entry: PoolEntry, rest: seq<PoolEntry>, now: int, a: Around) returns (ghost job: JobId, ghost write: Effect)
      requires Valid() && Fair(a) && cal.Valid() && s.worker == Scan([entry] + rest, now)
      requires IsDue(entry.pool, now) && !HasActiveSnapshot(s.rows, entry.id)
      modifies this
      ensures Valid() && start == old(start) && old(trace) <= trace && s.worker == Scan(rest, now)
      ensures done == old(done) + [Nothing, write, Insert(job, NewRow(Snapshot(entry.id), now), [])]
      ensures write == Nothing || (write.WritePool? && write.pool == entry.id
                && write.entry.next == Some(CatchUpTime(cal, entry.pool.next, entry.pool.schedule, now)))
    {
      assert entry.pool.next.Some?;
      hide Valid, Fair, After, IsDue, HasActiveSnapshot, CatchUpTime, Resumes;
      assert ([entry] + rest)[1..] == rest;
      var base := StartQueue(entry, rest, now);
      write := QueueNext(entry, rest, now, base, a);
      job := EnqueueAutoSnapshotJob(entry, rest, now, base, a);
    }

    method StartQueue(entry: PoolEntry, rest: seq<PoolEntry>, now: int) returns (base: nat)
      requires Valid() && s.worker == Scan([entry] + rest, now)
      requires IsDue(entry.pool, now) && !HasActiveSnapshot(s.rows, entry.id)
      modifies this
      ensures Valid() && start == old(start) && old(trace) <= trace && s.worker == Due(entry, rest, now, base)
      ensures done == old(done) + [Nothing]
    {
      hide Valid, After, IsDue, HasActiveSnapshot, Resumes;
      assert ([entry] + rest)[1..] == rest;
      base := Resumes(s.log, entry.id);
      Take(Nothing, Quiet, Due(entry, rest, now, base), ANY);
    }

    method EnqueueAutoSnapshotJob(entry: PoolEntry, rest: seq<PoolEntry>, now: int, base: nat, a: Around) returns (ghost job: JobId)
      requires Valid() && Fair(a) && s.worker == Queued(entry, rest, now, base) && entry.pool.next.Some?
      modifies this
      ensures Valid() && start == old(start) && old(trace) <= trace && s.worker == Scan(rest, now)
      ensures done == old(done) + [Insert(job, NewRow(Snapshot(entry.id), now), [])]
    {
      hide Valid, Fair, After, IsDue, HasActiveSnapshot, CatchUpTime, Resumes;
      Yield(a);
      var id := FreshId(s.issued);
      job := id;
      Take(Insert(id, NewRow(Snapshot(entry.id), now), []), Fire(entry.id, Firing(entry.pool.next.value, now)),
           Scan(rest, now), WithId(id));
    }

    /** The pool's next run: the first selected instant after now, through all missed ones. */
    method QueueNext(entry: PoolEntry, rest: seq<PoolEntry>, now: int, base: nat, a: Around) returns (ghost write: Effect)
      requires Valid() && Fair(a) && cal.Valid() && s.worker == Due(entry, rest, now, base)
      modifies this
      ensures Valid() && start == old(start) && old(trace) <= trace && s.worker == Queued(entry, rest, now, base)
      ensures done == old(done) + [write]
      ensures write == Nothing || (write.WritePool? && write.pool == entry.id
                && write.entry.next == Some(CatchUpTime(cal, entry.pool.next, entry.pool.schedule, now)))
    {
      hide Valid, Fair, After, IsDue, HasActiveSnapshot, CatchUpTime, Resumes;
      Yield(a);
      var next := Schedule.NextAutoSnapshotAfter(cal, entry.pool.next, entry.pool.schedule, now);
      var e := if entry.id in s.pools then WritePool(entry.id, s.pools[entry.id].(next := Some(next))) else Nothing;
      write := e;
      Take(e, Quiet, Queued(entry, rest, now, base), ANY);
    }

    /** The worker's loop: each round is one enqueue loop and one visit, with nothing left out. Between two
        iterations of a process that never crashed, no row is running, and what a recorded success sent is
        stored at the remote, whatever the other threads did meanwhile. */
    method StartWorker(arounds: seq<Around>) returns (ghost rounds: seq<Round>)
      requires Valid() && s.worker == Idle && cal.Valid() && forall i :: 0 <= i < |arounds| ==> Fair(arounds[i])
      modifies this, remote
      ensures Valid() && start == old(start) && old(trace) <= trace && s.worker == Idle
      ensures |rounds| == |arounds|
      ensures forall i :: 0 <= i < |rounds| ==> Shaped(rounds[i]) && RoundOk(cal, start, trace, arounds[i], rounds[i])
      ensures done == old(done) + RoundsEffects(rounds)
      ensures Init(start) ==> forall i :: StatusOf(s.rows, i) != Some(Running)
      ensures Init(start) ==> forall i :: i in s.log.sent ==> s.log.sent[i] in remote.stored
    {
      hide RoundEffects, VisitEffects, LoopEffects, RoundOk;
      rounds := [];
      for i := 0 to |arounds|
        invariant Valid() && start == old(start) && old(trace) <= trace && s.worker == Idle && |rounds| == i
        invariant forall k :: 0 <= k < i ==> Shaped(rounds[k]) && RoundOk(cal, start, trace, arounds[k], rounds[k])
        invariant done == old(done) + RoundsEffects(rounds)
      {
        ghost var before := trace;
        ghost var round := DoRound(arounds[i]);
        forall k | 0 <= k < i ensures RoundOk(cal, start, trace, arounds[k], rounds[k]) {
          RoundStays(cal, start, before, trace, arounds[k], rounds[k]);
        }
        assert (rounds + [round])[..i] == rounds;
        rounds := rounds + [round];
      }
      Rest();
    }

    method DoRound(a: Around) returns (ghost round: Round)
      requires Valid() && s.worker == Idle && cal.Valid() && Fair(a)
      modifies this, remote
      ensures Valid() && start == old(start) && old(trace) <= trace && s.worker == Idle
      ensures Shaped(round) && RoundOk(cal, start, trace, a, round) && done == old(done) + RoundEffects(round)
    {
      hide Valid, Fair, VisitEffects, LoopEffects, Past, FateOk, ListsAll, IsOldestPending, RanOk;
      ghost var listed, now, fates, at, clock := EnqueueDueAutoSnapshotJobs(a);
      ghost var before := trace;
      ghost var visit, seen, lost := ProcessOnePendingJob(a);
      LoopStays(cal, start, before, trace, listed, now, fates, at, clock);
      round := Round(listed, now, fates, at, clock, visit, seen, lost);
    }

    lemma Rest()
      requires Valid() && s.worker == Idle
      ensures Init(start) ==> forall i :: StatusOf(s.rows, i) != Some(Running)
      ensures Init(start) ==> forall i :: i in s.log.sent ==> s.log.sent[i] in remote.stored
    {
      hide RunAll, Effects, StatusOf;
      if Init(start) {
        NoneRunning(cal, start, trace);
        assert forall i :: i !in start.log.sent;
      }
    }
  }

  lemma NoneRunning(cal: Calendar, start: State, trace: seq<Action>)
    requires Init(start) && CrashFree(trace) && RunAll(cal, start, trace).worker == Idle
    ensures forall i :: StatusOf(RunAll(cal, start, trace).rows, i) != Some(Running)
  {
    hide RunAll, StatusOf;
    Ownership(cal, start, trace);
    assert Held(Idle) == None;
  }

  lemma LoopStays(
      cal: Calendar, start: State, trace: seq<Action>, longer: seq<Action>, listed: seq<PoolEntry>, now: int, fates: seq<Fate>,
      at: nat, clock: nat)
    requires trace <= longer && LoopOk(cal, start, trace, listed, now, fates, at, clock)
    ensures LoopOk(cal, start, longer, listed, now, fates, at, clock)
  {
    PastStays(cal, start, trace, longer, at);
    PastStays(cal, start, trace, longer, clock);
    FatesStay(cal, start, trace, longer, listed, now, fates);
    hide Past, FatesOk, ListsAll;
  }

  lemma FatesStay(
      cal: Calendar, start: State, trace: seq<Action>, longer: seq<Action>, listed: seq<PoolEntry>, now: int, fates: seq<Fate>)
    requires trace <= longer && FatesOk(cal, start, trace, listed, now, fates)
    ensures FatesOk(cal, start, longer, listed, now, fates)
  {
    forall k | 0 <= k < |fates| ensures FateOk(cal, start, longer, listed[k], now, fates[k]) {
      FateStays(cal, start, trace, longer, listed[k], now, fates[k]);
    }
    hide FateOk;
  }

  lemma NoFates(cal: Calendar, start: State, trace: seq<Action>, listed: seq<PoolEntry>, now: int)
    ensures FatesOk(cal, start, trace, listed, now, []) && LoopEffects(listed, now, []) == []
  {
  }

  lemma OneMoreFate(
      cal: Calendar, start: State, trace: seq<Action>, listed: seq<PoolEntry>, now: int, fates: seq<Fate>, fate: Fate)
    requires FatesOk(cal, start, trace, listed, now, fates) && |fates| < |listed|
    requires FateOk(cal, start, trace, listed[|fates|], now, fate)
    ensures FatesOk(cal, start, trace, listed, now, fates + [fate])
    ensures LoopEffects(listed, now, fates + [fate]) == LoopEffects(listed, now, fates) + FateEffects(listed[|fates|], now, fate)
  {
    hide FateOk, FateEffects;
    assert (fates + [fate])[..|fates|] == fates;
  }

  lemma EndStays(cal: Calendar, start: State, trace: seq<Action>, longer: seq<Action>, id: JobId, trip: Trip, left: nat, at: nat)
    requires trace <= longer && EndOk(cal, start, trace, id, trip, left, at)
    ensures EndOk(cal, start, longer, id, trip, left, at)
  {
    PastStays(cal, start, trace, longer, left);
    PastStays(cal, start, trace, longer, at);
    hide Past;
  }

  lemma RanStays(cal: Calendar, start: State, trace: seq<Action>, longer: seq<Action>, a: Around, v: Visit)
    requires trace <= longer && RanOk(cal, start, trace, a, v)
    ensures RanOk(cal, start, longer, a, v)
  {
    hide Past, EndOk, IsArmed, RewritesPool;
    if (v.RanSync? && v.task.Sync?) || v.RanSnapshot? {
      PastStays(cal, start, trace, longer, v.looked);
      if v.trip.found {
        EndStays(cal, start, trace, longer, v.id, v.trip, v.left, v.at);
      }
    }
  }

  lemma RoundStays(cal: Calendar, start: State, trace: seq<Action>, longer: seq<Action>, a: Around, r: Round)
    requires trace <= longer && RoundOk(cal, start, trace, a, r)
    ensures RoundOk(cal, start, longer, a, r)
  {
    hide Past, IsOldestPending, LoopOk, RanOk;
    LoopStays(cal, start, trace, longer, r.listed, r.now, r.fates, r.listedAt, r.clockAt);
    RanStays(cal, start, trace, longer, a, r.visit);
    PastStays(cal, start, trace, longer, r.pickedAt);
    PastStays(cal, start, trace, longer, r.lostAt);
  }

  lemma FateStays(cal: Calendar, start: State, trace: seq<Action>, longer: seq<Action>, entry: PoolEntry, now: int, fate: Fate)
    requires trace <= longer && FateOk(cal, start, trace, entry, now, fate)
    ensures FateOk(cal, start, longer, entry, now, fate)
  {
    hide Past, IsDue, HasActiveSnapshot, CatchUpTime;
    PastStays(cal, start, trace, longer, fate.at);
  }
}
