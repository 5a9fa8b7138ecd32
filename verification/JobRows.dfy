/** The jobs table: its rows, the effect of each SQL statement the job code runs on it, and the table
    object whose methods run those statements. */
module JobRows {
  import opened Wrappers
  import opened Schedule

  type JobId = int
  type PoolId = int
  type Path = int
  type Bytes = seq<bv8>

  const STALE_AFTER: int := 300 * SECOND

  datatype Status = Pending | Running | Paused | Success | Failed | Cancelled

  /** A job's type and decoded payload. Unreadable stands for a type or payload the worker rejects. */
  datatype Task = Sync(path: Path) | Snapshot(pool: PoolId) | Unreadable

  /** One row. `error` says that error_message is not empty. `created` is the instant of the insert and
      `written` that of the last write of updated_at; the columns hold them truncated to a second. */
  datatype Row = Row(task: Task, status: Status, progress: int, error: bool, created: int, written: int,
                     started: Option<int>, finished: Option<int>)

  type Rows = map<JobId, Row>

  datatype Statement =
    | Claim | SetProgress(percent: int) | Heartbeat | Pause | Resume | Cancel | Fail | FailStale | Succeed | Delete

  function NewRow(task: Task, now: int): Row {
    Row(task, Pending, 0, false, now, now, None, None)
  }

  /** The WHERE clause of a statement, beyond the row's id. */
  predicate Guard(st: Statement, row: Row) {
    match st
    case Claim => row.status == Pending
    case SetProgress(_) => true
    case Heartbeat => row.status == Running
    case Pause => row.status == Pending || row.status == Running
    case Resume => row.status == Paused
    case Cancel => true
    case Fail => row.status == Running
    case FailStale => row.status == Running
    case Succeed => row.status == Running
    case Delete => true
  }

  /** The SET clause of a statement. */
  function Changed(st: Statement, row: Row, now: int): Row {
    match st
    case Claim => row.(status := Running, progress := 5, started := Some(now), written := now)
    case SetProgress(percent) => row.(progress := percent, written := now)
    case Heartbeat => row.(written := now)
    case Pause => row.(status := Paused, error := false, written := now)
    case Resume => row.(status := Pending, progress := 0, error := false, finished := None, written := now)
    case Cancel => row.(status := Cancelled, progress := 100, error := false, finished := Some(now), written := now)
    case Fail => row.(status := Failed, progress := 100, error := true, finished := Some(now), written := now)
    case FailStale => row.(status := Failed, error := true, finished := Some(now), written := now)
    case Succeed => row.(status := Success, progress := 100, error := false, finished := Some(now), written := now)
    case Delete => row
  }

  /** The table after one statement on one id. */
  function Exec(rows: Rows, id: JobId, st: Statement, now: int): Rows {
    if id in rows && Guard(st, rows[id]) then
      if st.Delete? then rows - {id} else rows[id := Changed(st, rows[id], now)]
    else rows
  }

  /** The stored updated_at, read back as an instant. */
  function Stored(row: Row): int {
    row.written / SECOND * SECOND
  }

  lemma StoredIsTruncated(row: Row)
    ensures row.written - SECOND < Stored(row) <= row.written
  {
  }

  /** The sweeper's test: the stored time is not after the cutoff. */
  predicate IsStale(row: Row, now: int) {
    Stored(row) <= now - STALE_AFTER
  }

  /** The stored created_at, read back as an instant. */
  function StoredCreated(row: Row): int {
    row.created / SECOND * SECOND
  }

  /** id is a pending row of the least stored creation time; rows created within one second tie. */
  predicate IsOldestPending(rows: Rows, id: JobId) {
    && id in rows && rows[id].status == Pending
    && forall other :: other in rows && rows[other].status == Pending ==> StoredCreated(rows[id]) <= StoredCreated(rows[other])
  }

  /** A pending row is not passed over for one that was created a second or more after it. */
  lemma EarlierGoesFirst(rows: Rows, id: JobId, other: JobId)
    requires IsOldestPending(rows, id) && other in rows && rows[other].status == Pending
    ensures rows[id].created < rows[other].created + 1_000_000_000
  {
    assert StoredCreated(rows[id]) <= StoredCreated(rows[other]);
  }

  /** Which status each statement finds and leaves. One that does not find it, and every other row, leaves
      all as it was. */
  lemma StatementsByStatus(rows: Rows, id: JobId, now: int, percent: int)
    requires id in rows
    ensures
      var before := rows[id].status;
      && StatusOf(Exec(rows, id, Claim, now), id) == (if before == Pending then Some(Running) else Some(before))
      && StatusOf(Exec(rows, id, Pause, now), id) == (if before == Pending || before == Running then Some(Paused) else Some(before))
      && StatusOf(Exec(rows, id, Resume, now), id) == (if before == Paused then Some(Pending) else Some(before))
      && StatusOf(Exec(rows, id, Cancel, now), id) == Some(Status.Cancelled)
      && StatusOf(Exec(rows, id, Fail, now), id) == (if before == Running then Some(Failed) else Some(before))
      && StatusOf(Exec(rows, id, FailStale, now), id) == (if before == Running then Some(Failed) else Some(before))
      && StatusOf(Exec(rows, id, Succeed, now), id) == (if before == Running then Some(Success) else Some(before))
      && StatusOf(Exec(rows, id, Delete, now), id) == None
      && StatusOf(Exec(rows, id, SetProgress(percent), now), id) == Some(before)
      && (before != Running ==> Exec(rows, id, Heartbeat, now) == rows)
  {
    ExecStatus(rows, id, Claim, now);
    ExecStatus(rows, id, Pause, now);
    ExecStatus(rows, id, Resume, now);
    ExecStatus(rows, id, Cancel, now);
    ExecStatus(rows, id, Fail, now);
    ExecStatus(rows, id, FailStale, now);
    ExecStatus(rows, id, Succeed, now);
    ExecStatus(rows, id, Delete, now);
    ExecStatus(rows, id, SetProgress(percent), now);
    ExecStatus(rows, id, Heartbeat, now);
    hide Exec, StatusOf;
  }

  lemma ExecStatus(rows: Rows, id: JobId, st: Statement, now: int)
    requires id in rows
    ensures !Guard(st, rows[id]) ==> Exec(rows, id, st, now) == rows
    ensures
      StatusOf(Exec(rows, id, st, now), id)
      == if st.Delete? then None else Some(if Guard(st, rows[id]) then Changed(st, rows[id], now).status else rows[id].status)
  {
    hide Changed;
  }

  lemma OthersStay(rows: Rows, id: JobId, st: Statement, now: int)
    ensures forall i :: i != id ==> (i in Exec(rows, id, st, now) <==> i in rows) && (i in rows ==> Exec(rows, id, st, now)[i] == rows[i])
    ensures id in rows && Exec(rows, id, st, now) != rows && st != Delete ==> Exec(rows, id, st, now)[id].written == now
  {
    hide Guard;
  }

  /** What every stored row satisfies. */
  predicate RowOk(row: Row) {
    && (row.finished.Some? <==> row.status.Success? || row.status.Failed? || row.status.Cancelled?)
    && (row.error <==> row.status == Failed)
    && (row.status.Running? || row.status.Success? || row.status.Failed? ==> row.started.Some?)
    && (row.status == Success ==> row.progress == 100)
  }

  /** The moves a single statement can make between statuses. */
  predicate Follows(a: Status, b: Status) {
    || a == b
    || (a.Pending? && (b.Running? || b.Paused? || b.Cancelled?))
    || (a.Running? && !b.Pending?)
    || (a.Paused? && (b.Pending? || b.Cancelled?))
    || ((a.Success? || a.Failed?) && b.Cancelled?)
  }

  /** A status (nothing once deleted) that can follow another after any number of moves. */
  predicate Later(a: Option<Status>, b: Option<Status>) {
    match a
    case None => b.None?
    case Some(Cancelled) => b == Some(Cancelled) || b == None
    case Some(Success) => b == Some(Success) || b == Some(Cancelled) || b == None
    case Some(Failed) => b == Some(Failed) || b == Some(Cancelled) || b == None
    case Some(_) => true
  }

  function StatusOf(rows: Rows, id: JobId): Option<Status> {
    if id in rows then Some(rows[id].status) else None
  }

  /** The rows a sweep leaves when nothing runs beside it. */
  ghost predicate Swept(before: Rows, after: Rows, now: int) {
    && after.Keys == before.Keys
    && forall i :: i in before ==>
         after[i] == if before[i].status == Running && IsStale(before[i], now)
                     then Changed(FailStale, before[i], now) else before[i]
  }

  /** Some element of a non-empty set. */
  method AnyOf<T>(s: set<T>) returns (x: T)
    requires s != {}
    ensures x in s
  {
    x :| x in s;
  }

  /** The first SELECT of claimNextPendingJob: a pending row with the least stored creation time. */
  method FindOldestPending(rows: Rows) returns (id: Option<JobId>)
    ensures id.Some? ==> IsOldestPending(rows, id.value)
    ensures id.None? ==> forall i :: i in rows ==> rows[i].status != Pending
  {
    id := None;
    var todo := rows.Keys;
    while todo != {}
      invariant todo <= rows.Keys
      invariant id.Some? ==> id.value in rows && rows[id.value].status == Pending
      invariant forall i :: i in rows && i !in todo && rows[i].status == Pending ==>
                  id.Some? && StoredCreated(rows[id.value]) <= StoredCreated(rows[i])
      decreases |todo|
    {
      var i := AnyOf(todo);
      todo := todo - {i};
      if rows[i].status == Pending && (id.None? || StoredCreated(rows[i]) < StoredCreated(rows[id.value])) {
        id := Some(i);
      }
    }
  }

  class JobTable {
    var rows: Rows

    constructor ()
      ensures rows == map[]
    {
      rows := map[];
    }

    method Insert(id: JobId, task: Task, now: int) returns (ok: bool)
      modifies this
      ensures ok <==> id !in old(rows)
      ensures rows == if ok then old(rows)[id := NewRow(task, now)] else old(rows)
    {
      ok := id !in rows;
      if ok {
        rows := rows[id := Row(task, Pending, 0, false, now, now, None, None)];
      }
    }

    method OldestPending() returns (id: Option<JobId>)
      ensures id.Some? ==>
                && id.value in rows && rows[id.value].status == Pending
                && forall i :: i in rows && rows[i].status == Pending ==>
                     rows[id.value].created / 1_000_000_000 <= rows[i].created / 1_000_000_000
      ensures id.None? ==> forall i :: i in rows ==> rows[i].status != Pending
    {
      id := FindOldestPending(rows);
    }

    /** claimNextPendingJob without interference between its two statements. */
    method ClaimNextPending(now: int) returns (item: Option<JobId>)
      modifies this
      ensures item.Some? ==> IsOldestPending(old(rows), item.value) && rows == Exec(old(rows), item.value, Claim, now)
      ensures item.None? ==> rows == old(rows) && forall i :: i in rows ==> rows[i].status != Pending
    {
      item := OldestPending();
      if item.Some? {
        var id := item.value;
        if id in rows && rows[id].status == Pending {
          rows := rows[id := rows[id].(status := Running, progress := 5, started := Some(now), written := now)];
        }
      }
    }

    method UpdateProgress(id: JobId, percent: int, now: int)
      modifies this
      ensures rows == Exec(old(rows), id, SetProgress(percent), now)
    {
      if id in rows {
        rows := rows[id := rows[id].(progress := percent, written := now)];
      }
    }

    method UpdateHeartbeat(id: JobId, now: int)
      modifies this
      ensures rows == Exec(old(rows), id, Heartbeat, now)
    {
      if id in rows && rows[id].status == Running {
        rows := rows[id := rows[id].(written := now)];
      }
    }

    method UpdatePaused(id: JobId, now: int)
      modifies this
      ensures rows == Exec(old(rows), id, Pause, now)
    {
      if id in rows && rows[id].status in {Pending, Running} {
        rows := rows[id := rows[id].(status := Paused, error := false, written := now)];
      }
    }

    method UpdateResume(id: JobId, now: int)
      modifies this
      ensures rows == Exec(old(rows), id, Resume, now)
    {
      if id in rows && rows[id].status == Paused {
        rows := rows[id := rows[id].(status := Pending, progress := 0, error := false, finished := None, written := now)];
      }
    }

    method UpdateCancelled(id: JobId, now: int)
      modifies this
      ensures rows == Exec(old(rows), id, Cancel, now)
    {
      if id in rows {
        rows := rows[id := rows[id].(status := Cancelled, progress := 100, error := false, finished := Some(now), written := now)];
      }
    }

    method UpdateFailure(id: JobId, now: int)
      modifies this
      ensures rows == Exec(old(rows), id, Fail, now)
    {
      if id in rows && rows[id].status == Running {
        rows := rows[id := rows[id].(status := Failed, progress := 100, error := true, finished := Some(now), written := now)];
      }
    }

    method UpdateSuccess(id: JobId, now: int)
      modifies this
      ensures rows == Exec(old(rows), id, Succeed, now)
    {
      if id in rows && rows[id].status == Running {
        rows := rows[id := rows[id].(status := Success, progress := 100, error := false, finished := Some(now), written := now)];
      }
    }

    method DeleteJob(id: JobId)
      modifies this
      ensures forall now :: rows == Exec(old(rows), id, Delete, now)
    {
      rows := rows - {id};
    }

    /** markStaleRunningJobs without interference: exactly the running rows whose stored time is at
        least five minutes old are failed, and the cache files of the cloud-sync ones are handed back
        for removal. */
    method MarkStaleRunningJobs(now: int) returns (removed: set<Path>)
      modifies this
      ensures Swept(old(rows), rows, now)
      ensures forall p :: p in removed <==>
                exists i :: i in old(rows) && old(rows)[i].status == Running && IsStale(old(rows)[i], now)
                            && old(rows)[i].task == Sync(p)
    {
      removed := {};
      var items := map i | i in rows && rows[i].status == Running :: rows[i];
      var cutoff := now - STALE_AFTER;
      var todo := items.Keys;
      while todo != {}
        invariant todo <= items.Keys
        invariant rows.Keys == old(rows).Keys
        invariant forall i :: i in rows && i in todo ==> rows[i] == old(rows)[i]
        invariant forall i :: i in rows && i !in todo ==>
                    rows[i] == if old(rows)[i].status == Running && IsStale(old(rows)[i], now)
                               then Changed(FailStale, old(rows)[i], now) else old(rows)[i]
        invariant forall p :: p in removed <==>
                    exists i :: i in old(rows) && i !in todo && old(rows)[i].status == Running
                                && IsStale(old(rows)[i], now) && old(rows)[i].task == Sync(p)
        decreases |todo|
      {
        var i := AnyOf(todo);
        todo := todo - {i};
        var updatedAt := items[i].written / SECOND * SECOND;
        if updatedAt > cutoff {
          continue;
        }
        if i in rows && rows[i].status == Running {
          rows := rows[i := rows[i].(status := Failed, error := true, finished := Some(now), written := now)];
          if items[i].task.Sync? {
            removed := removed + {items[i].task.path};
          }
        }
      }
    }
  }
}
