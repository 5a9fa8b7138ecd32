/** What the history variables stand for: each entry is made by the step it is named after, and by no
    other. Every statement about what happened before a file went or a row succeeded reads them. */
module JobLog {
  import opened Wrappers
  import opened Text
  import opened Schedule
  import opened JobRows
  import opened JobEngine

  /** The worker's step that ends a transfer without error: it delivers the bytes of the opened file. */
  predicate Delivers(s: State, a: Action, id: JobId, bytes: Bytes) {
    a.Work? && a.choice.outcome == Done && s.worker.Active? && s.worker.id == id && s.worker.work.Transfer? && s.worker.work.bytes == bytes
  }

  /** The worker's step that finds a claimed job impossible, its call failed, its context cancelled without a
      reason, or the pool of a finished snapshot unwritable. */
  predicate Fails(s: State, a: Action, id: JobId) {
    a.Work? && match s.worker
               case Claimed(i, Sync(path)) => i == id && !(a.choice.ok && path in s.files)
               case Claimed(i, Snapshot(pool)) =>
                 i == id && !(a.choice.ok && pool in s.pools && s.pools[pool].enabled && TrimSpace(s.pools[pool].schedule) != "")
               case Claimed(i, Unreadable) => i == id
               case Active(i, _, _) => i == id && a.choice.outcome == Broke
               case Judged(i, work, _, outcome, reason, seen) =>
                 i == id && if outcome == Interrupted then reason == None
                            else outcome == Done && work.Capture? && seen == Some(Running) && !a.choice.ok
               case _ => false
  }

  /** The sweep's step that fails a row it took for stale and that is still running. */
  predicate Sweeps(s: State, a: Action, id: JobId) {
    && a.SweepNext? && a.id == id && a.tid in s.sweeps && s.sweeps[a.tid].Marking? && id in s.sweeps[a.tid].items
    && StatusOf(s.rows, id) == Some(Running)
  }

  /** A cancel of a row that has not ended, or a delete of any row. */
  predicate StopsIt(s: State, a: Action, id: JobId) {
    && a.Ask? && a.id == id && id in s.rows && a.tid !in s.handlers
    && (a.op == OpDelete
        || (a.op == OpCancel && (s.rows[id].status == Pending || s.rows[id].status == Paused || s.rows[id].status == Running)))
  }

  function NoteOf(cal: Calendar, s: State, a: Action): Note {
    match a
    case Ask(tid, op, id) => if tid !in s.handlers && id in s.rows then Respond(s.rows[id], op, id).note else Quiet
    case Handle(tid) => if tid in s.handlers then HandlerMove(s, s.handlers[tid]).note else Quiet
    case SweepNext(tid, id) => if tid in s.sweeps then SweepMove(s, s.sweeps[tid], id).note else Quiet
    case Work(c) => WorkerMove(cal, s, c).note
    case _ => Quiet
  }

  /** The entries of the history a note or an effect can make. */
  predicate Logged(was: Log, log: Log, e: Effect, n: Note) {
    && log.sent == (if n.Sent? then was.sent[n.id := n.bytes] else was.sent)
    && log.failed == (if n.Failure? || n.StaleFailure? then was.failed + {n.id} else was.failed)
    && log.swept == (if n.StaleFailure? then was.swept + {n.id} else was.swept)
    && log.stopped == (if n.StopWanted? then was.stopped + {n.id} else was.stopped)
    && log.submitted == (if e.Insert? && e.row.task.Sync? then was.submitted[e.id := Parcel(e.row.task.path, e.bytes)] else was.submitted)
    && log.shared == SharedPaths(was, e)
  }

  lemma LogAfterLogs(s: State, e: Effect, n: Note)
    ensures Logged(s.log, LogAfter(s, e, n), e, n) && Logged(s.log, s.log, Nothing, Quiet)
    ensures Logged(s.log, CrashStep(s).log, Nothing, Quiet)
  {
  }

  lemma AsksOnlyRead(row: Row, op: Op, id: JobId)
    ensures Respond(row, op, id).effect == Nothing
  {
  }

  lemma StepLogs(cal: Calendar, s: State, a: Action)
    ensures Logged(s.log, Step(cal, s, a).log, EffectOf(cal, s, a), NoteOf(cal, s, a))
  {
    LogAfterLogs(s, EffectOf(cal, s, a), NoteOf(cal, s, a));
    if a.Ask? && a.id in s.rows { AsksOnlyRead(s.rows[a.id], a.op, a.id); }
    hide WorkerMove, HandlerMove, Respond, SweepMove, CanSubmit, RunningRows, RowsAfter, FilesAfter, IssuedAfter, PoolsAfter,
      RegAfter, LogAfter, Place, Logged, CrashStep;
  }

  lemma WorkNotes(cal: Calendar, s: State, a: Action)
    requires a.Work?
    ensures
      var n := NoteOf(cal, s, a);
      && (forall id, bytes :: n == Sent(id, bytes) <==> Delivers(s, a, id, bytes))
      && (forall id :: n == Failure(id) <==> Fails(s, a, id))
      && !n.StaleFailure? && !n.StopWanted?
  {
    hide TrimSpace, AfterRun, IsDue, CatchUpTime, NextTime, HasActiveSnapshot, Listing, Entries, IsOldestPending, Resumes;
  }

  lemma OtherNotes(cal: Calendar, s: State, a: Action)
    requires !a.Work?
    ensures
      var n := NoteOf(cal, s, a);
      && !n.Sent? && !n.Failure?
      && (forall id :: n == StaleFailure(id) <==> Sweeps(s, a, id))
      && (forall id :: n == StopWanted(id) <==> StopsIt(s, a, id))
  {
    hide StaleRows;
  }

  /** What the history variables stand for: in any step, a delivery, a failure, a sweep or a wanted stop is
      recorded for a job exactly if the step is one. */
  lemma LogMeans(cal: Calendar, s: State, a: Action, id: JobId)
    ensures
      var log := Step(cal, s, a).log;
      && (forall bytes :: Delivers(s, a, id, bytes) ==> id in log.sent && log.sent[id] == bytes)
      && (id in log.sent ==> (id in s.log.sent && log.sent[id] == s.log.sent[id]) || Delivers(s, a, id, log.sent[id]))
      && (id in log.failed <==> id in s.log.failed || Fails(s, a, id) || Sweeps(s, a, id))
      && (id in log.swept <==> id in s.log.swept || Sweeps(s, a, id))
      && (id in log.stopped <==> id in s.log.stopped || StopsIt(s, a, id))
  {
    hide Step, NoteOf, Delivers, Fails, Sweeps, StopsIt, EffectOf;
    StepLogs(cal, s, a);
    if a.Work? {
      WorkNotes(cal, s, a);
      NoStop(s, a, id);
    } else {
      OtherNotes(cal, s, a);
      NoWork(s, a, id);
    }
    var n := NoteOf(cal, s, a);
    assert n.Sent? && n.id == id ==> n == Sent(id, n.bytes);
    assert n.Failure? && n.id == id ==> n == Failure(id);
    assert n.StaleFailure? && n.id == id ==> n == StaleFailure(id);
    assert n.StopWanted? && n.id == id ==> n == StopWanted(id);
  }

  lemma NoStop(s: State, a: Action, id: JobId)
    requires a.Work?
    ensures !Sweeps(s, a, id) && !StopsIt(s, a, id)
  {
  }

  lemma NoWork(s: State, a: Action, id: JobId)
    requires !a.Work?
    ensures !Fails(s, a, id) && forall bytes :: !Delivers(s, a, id, bytes)
  {
  }

  /** A cloud-sync job's file is recorded by the step that creates the job; a file is recorded as shared
      exactly when somebody else changes it or a second job is created for it. */
  lemma FilesLogged(cal: Calendar, s: State, a: Action, id: JobId, path: Path)
    ensures
      var log := Step(cal, s, a).log;
      && (id in log.submitted ==>
            || (id in s.log.submitted && log.submitted[id] == s.log.submitted[id])
            || (a.Submit? && a.id == id && a.task == Sync(log.submitted[id].path) && a.bytes == log.submitted[id].bytes))
      && (path in log.shared <==>
            || path in s.log.shared || (a.Disturb? && a.path == path)
            || (a.Submit? && a.task == Sync(path) && a.id !in s.issued
                && exists i :: i in s.log.submitted && s.log.submitted[i].path == path))
  {
    StepLogs(cal, s, a);
    InsertsBySubmit(cal, s, a);
    hide Step, EffectOf;
  }

  lemma InsertsBySubmit(cal: Calendar, s: State, a: Action)
    ensures
      var e := EffectOf(cal, s, a);
      && (e.Insert? && e.row.task.Sync? ==> a.Submit? && a.id == e.id && a.task == e.row.task && a.bytes == e.bytes && a.id !in s.issued)
      && (a.Submit? && a.task.Sync? && a.id !in s.issued ==> e.Insert? && e.id == a.id && e.row.task == a.task && e.bytes == a.bytes)
      && (e.Rewrite? <==> a.Disturb?) && (a.Disturb? ==> e.path == a.path)
  {
    hide TrimSpace, AfterRun, IsDue, CatchUpTime, NextTime, HasActiveSnapshot, Listing, Entries, IsOldestPending, Resumes, StaleRows;
  }
}
