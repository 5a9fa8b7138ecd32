/** The request handlers' and the sweep's own code, statement by statement, with all other threads, the
    worker included, at work between any two of its steps. Like the worker's, it refines the transition
    system, and its own steps are those its source takes. */
module JobRequests {
  import opened Wrappers
  import opened Text
  import opened Schedule
  import opened JobRows
  import opened JobEngine
  import opened JobTraces

  /** What the other threads do before each step of this one. */
  type Others = nat -> seq<Action>

  ghost predicate Fair(others: Others, tid: Thread) {
    forall k :: OfOthers(others(k), Client(tid))
  }

  // ---- What the source does to the shared data -------------------------------------------------

  datatype Reply = Fine | NotFound | Conflict

  /** requestRunningJobStop: the critical section, and the cancel call if the job was registered. */
  function StopEffects(id: JobId, reason: Reason, run: Option<Run>): seq<Effect> {
    if run.Some? then [RequestStop(id, reason), CancelContext(run.value)] else [RequestStop(id, reason)]
  }

  /** cleanupJobPayload. */
  function CleanEffects(task: Task): seq<Effect> {
    [if task.Sync? then Unlink(task.path) else Nothing]
  }

  /** What a handler does, by the row it read (no step at all without one), the run it stopped, and whether
      the cache file was there. The first step is the read of the row. */
  function Course(op: Op, id: JobId, seen: Option<Row>, run: Option<Run>, cached: bool): seq<Effect> {
    if seen.None? then []
    else
      var row := seen.value;
      [Nothing] +
      match op
      case OpPause =>
        if row.status == Pending then [Sql(id, Pause)]
        else if row.status == Running then StopEffects(id, ForPause, run) + [Sql(id, Pause)]
        else []
      case OpResume =>
        if row.status != Paused then [] else if !cached then [Nothing] else [Nothing, Sql(id, Resume)]
      case OpCancel =>
        if row.status == Pending || row.status == Paused then CleanEffects(row.task) + [Sql(id, Cancel)]
        else if row.status == Running then StopEffects(id, ForCancel, run) + CleanEffects(row.task) + [Sql(id, Cancel)]
        else []
      case OpDelete =>
        if row.status != Running then CleanEffects(row.task) + [Sql(id, Delete)]
        else if run.Some? then StopEffects(id, ForDelete, run) + [Sql(id, Delete)]
        else StopEffects(id, ForDelete, run) + CleanEffects(row.task) + [Sql(id, Delete)]
  }

  /** The steps of each request, written out by the status it read. A refused pause, resume or cancel only
      reads; an accepted one ends with its statement. */
  lemma CourseIs(id: JobId, row: Row, run: Option<Run>, cached: bool)
    ensures
      var pause, steps := Sql(id, Pause), Course(OpPause, id, Some(row), run, cached);
      && (row.status == Pending ==> steps == [Nothing, pause])
      && (row.status == Running && run.None? ==> steps == [Nothing, RequestStop(id, ForPause), pause])
      && (row.status == Running && run.Some? ==> steps == [Nothing, RequestStop(id, ForPause), CancelContext(run.value), pause])
      && (row.status == Paused || row.status == Success || row.status == Failed || row.status == Cancelled ==> steps == [Nothing])
    ensures
      var steps := Course(OpResume, id, Some(row), run, cached);
      && (row.status == Paused && cached ==> steps == [Nothing, Nothing, Sql(id, Resume)])
      && (row.status == Paused && !cached ==> steps == [Nothing, Nothing])
      && (row.status != Paused ==> steps == [Nothing])
    ensures
      var clean := if row.task.Sync? then Unlink(row.task.path) else Nothing;
      var cancel, steps := Sql(id, Cancel), Course(OpCancel, id, Some(row), run, cached);
      && (row.status == Pending || row.status == Paused ==> steps == [Nothing, clean, cancel])
      && (row.status == Running && run.None? ==> steps == [Nothing, RequestStop(id, ForCancel), clean, cancel])
      && (row.status == Running && run.Some? ==> steps == [Nothing, RequestStop(id, ForCancel), CancelContext(run.value), clean, cancel])
      && (row.status == Cancelled || row.status == Success || row.status == Failed ==> steps == [Nothing])
    ensures
      var clean := if row.task.Sync? then Unlink(row.task.path) else Nothing;
      var delete, steps := Sql(id, Delete), Course(OpDelete, id, Some(row), run, cached);
      && (row.status != Running ==> steps == [Nothing, clean, delete])
      && (row.status == Running && run.None? ==> steps == [Nothing, RequestStop(id, ForDelete), clean, delete])
      && (row.status == Running && run.Some? ==> steps == [Nothing, RequestStop(id, ForDelete), CancelContext(run.value), delete])
  {
  }

  /** No statement and no file removal. */
  predicate OnlyReads(steps: seq<Effect>) {
    forall i :: 0 <= i < |steps| ==> !steps[i].Sql? && !steps[i].Unlink? && !steps[i].Insert? && !steps[i].RequestStop?
  }

  /** A request that is refused, for want of a row or for its status or file, changes nothing. */
  lemma RefusalOnlyReads(op: Op, id: JobId, seen: Option<Row>, run: Option<Run>, cached: bool)
    requires
      || seen.None?
      || (op.OpPause? && (seen.value.status == Success || seen.value.status == Failed || seen.value.status == Cancelled))
      || (op.OpResume? && (seen.value.status != Paused || !cached))
      || (op.OpCancel? && (seen.value.status == Success || seen.value.status == Failed))
    ensures OnlyReads(Course(op, id, seen, run, cached))
  {
    if seen.Some? { CourseIs(id, seen.value, run, cached); }
    hide Course;
  }

  /** What the sweep does with one stale row: the guarded update and the removal of its file, or nothing if
      the row was running no longer. */
  function MarkEffects(id: JobId, task: Task, hit: bool): seq<Effect> {
    if !hit then [Nothing]
    else if task.Sync? then [Sql(id, FailStale), Unlink(task.path)]
    else [Sql(id, FailStale)]
  }

  /** One answer for each visit, of rows of the list. */
  predicate AllIn(order: seq<JobId>, hits: seq<bool>, stale: Rows) {
    |hits| == |order| && forall i :: 0 <= i < |order| ==> order[i] in stale
  }

  /** Written out: the row is failed and the file of a cloud job removed, or nothing is done. */
  lemma MarkIs(id: JobId, path: Path, pool: PoolId)
    ensures MarkEffects(id, Sync(path), true) == [Sql(id, FailStale), Unlink(path)] && MarkEffects(id, Snapshot(pool), true) == [Sql(id, FailStale)]
    ensures MarkEffects(id, Sync(path), false) == [Nothing] && MarkEffects(id, Snapshot(pool), false) == [Nothing]
  {
  }

  function MarksEffects(order: seq<JobId>, hits: seq<bool>, stale: Rows): seq<Effect>
    requires AllIn(order, hits, stale)
  {
    if order == [] then []
    else
      var n := |order| - 1;
      MarksEffects(order[..n], hits[..n], stale) + MarkEffects(order[n], stale[order[n]].task, hits[n])
  }

  class RequestServer {
    const cal: Calendar
    const tid: Thread
    var s: State
    ghost var start: State
    ghost var trace: seq<Action>
    ghost var done: seq<Effect>
    var turn: nat

    /** The state is the transition system's after the steps taken so far; `done` is what this thread's own
        steps did. */
    ghost predicate Valid()
      reads this
    {
      s == RunAll(cal, start, trace) && done == Effects(cal, start, trace, Client(tid))
    }

    constructor (cal: Calendar, tid: Thread, s: State)
      ensures Valid() && this.s == s && start == s && trace == [] && done == [] && this.cal == cal && this.tid == tid
    {
      this.cal, this.tid, this.s, this.start, this.trace, this.done, this.turn := cal, tid, s, s, [], [], 0;
    }

    lemma Now()
      requires Valid()
      ensures Past(cal, start, trace, |trace|) == s
    {
      PastNow(cal, start, trace);
      hide RunAll, Effects, Past;
    }

    method Yield(others: Others)
      requires Valid() && Fair(others, tid)
      modifies this
      ensures Valid() && start == old(start) && old(trace) <= trace && done == old(done)
      ensures SamePlaces(old(s), s, Client(tid))
    {
      hide RunAll, Effects, SamePlaces;
      var acts := others(turn);
      RunConcat(cal, start, trace, acts);
      EffectsOthers(cal, start, trace, Client(tid), acts);
      ThreadWaits(cal, s, acts, Client(tid));
      s := RunAll(cal, s, acts);
      trace := trace + acts;
      turn := turn + 1;
    }

    /** Reads the row and settles the course. */
    method Open(op: Op, id: JobId)
      requires Valid() && tid !in s.handlers && id in s.rows
      modifies this
      ensures Valid() && start == old(start) && trace == old(trace) + [Ask(tid, op, id)] && done == old(done) + [Nothing]
      ensures Lookup(s.handlers, tid) == Respond(old(s).rows[id], op, id).handler
    {
      hide RunAll, Effects, Respond;
      RunOne(cal, start, trace, Ask(tid, op, id));
      EffectsOne(cal, start, trace, Client(tid), Ask(tid, op, id));
      s := AnswerStep(s, tid, Respond(s.rows[id], op, id));
      trace := trace + [Ask(tid, op, id)];
      done := done + [Nothing];
      hide After;
    }

    /** One step of the handler. */
    method Take(e: Effect, next: Option<Handler>)
      requires Valid() && tid in s.handlers && HandlerMove(s, s.handlers[tid]) == Answer(next, e, Quiet)
      modifies this
      ensures Valid() && start == old(start) && trace == old(trace) + [Handle(tid)] && done == old(done) + [e]
      ensures Lookup(s.handlers, tid) == next
    {
      hide RunAll, Effects, HandlerMove;
      RunOne(cal, start, trace, Handle(tid));
      EffectsOne(cal, start, trace, Client(tid), Handle(tid));
      s := AnswerStep(s, tid, Answer(next, e, Quiet));
      trace := trace + [Handle(tid)];
      done := done + [e];
    }

    /** The last statement. */
    method Finish(id: JobId, st: Statement, others: Others)
      requires Valid() && Fair(others, tid) && Lookup(s.handlers, tid) == Some(Put(id, st))
      modifies this
      ensures Valid() && start == old(start) && old(trace) <= trace && tid !in s.handlers
      ensures done == old(done) + [Sql(id, st)]
    {
      hide Valid, Fair;
      Yield(others);
      Take(Sql(id, st), None);
    }

    /** cleanupJobPayload, then the last statement. */
    method CleanUpAndFinish(id: JobId, task: Task, st: Statement, others: Others)
      requires Valid() && Fair(others, tid) && Lookup(s.handlers, tid) == Some(Handler.Wipe(id, task, st))
      modifies this
      ensures Valid() && start == old(start) && old(trace) <= trace && tid !in s.handlers
      ensures done == old(done) + CleanEffects(task) + [Sql(id, st)]
    {
      hide Valid, Fair;
      Yield(others);
      Take(if task.Sync? then Unlink(task.path) else Nothing, Some(Put(id, st)));
      Finish(id, st, others);
    }

    /** requestRunningJobStop: accepted exactly when the job is registered at the critical section, whose run
        is then cancelled outside it. */
    method RequestRunningJobStop(id: JobId, task: Task, reason: Reason, others: Others) returns (run: Option<Run>, ghost at: nat)
      requires Valid() && Fair(others, tid) && Lookup(s.handlers, tid) == Some(StopAsk(id, task, reason))
      modifies this
      ensures Valid() && start == old(start) && old(trace) <= trace
      ensures Lookup(s.handlers, tid) == Some(AfterStop(id, task, reason, run.Some?))
      ensures done == old(done) + StopEffects(id, reason, run)
      ensures at <= |trace| && run == Lookup(Past(cal, start, trace, at).reg.cancels, id)
    {
      hide Valid, Fair, Past;
      Yield(others);
      at := |trace|;
      Now();
      ghost var seen := trace;
      run := if id in s.reg.cancels then Some(s.reg.cancels[id]) else None;
      if run.Some? {
        Take(RequestStop(id, reason), Some(StopCall(id, task, reason, run.value)));
        Yield(others);
        Take(CancelContext(run.value), Some(AfterStop(id, task, reason, true)));
      } else {
        Take(RequestStop(id, reason), Some(AfterStop(id, task, reason, false)));
      }
      PastStays(cal, start, seen, trace, at);
    }

    /** The read of the row: what was seen, and the moment. */
    method ReadRow(op: Op, id: JobId, others: Others) returns (seen: Option<Row>, ghost at: nat)
      requires Valid() && Fair(others, tid) && tid !in s.handlers
      modifies this
      ensures Valid() && start == old(start) && old(trace) <= trace
      ensures |old(trace)| <= at <= |trace| && seen == Lookup(Past(cal, start, trace, at).rows, id)
      ensures seen.None? ==> tid !in s.handlers && done == old(done)
      ensures seen.Some? ==>
                && Lookup(s.handlers, tid) == Respond(seen.value, op, id).handler && done == old(done) + [Nothing]
                && at < |trace| && trace[at] == Ask(tid, op, id)
    {
      hide Valid, Fair, Past, Respond;
      Yield(others);
      at := |trace|;
      Now();
      ghost var before := trace;
      seen := if id in s.rows then Some(s.rows[id]) else None;
      if seen.Some? {
        Open(op, id);
      }
      PastStays(cal, start, before, trace, at);
    }

    /** The read of the row the answer carries; it may be gone by then. */
    method ReadBack(id: JobId, others: Others) returns (r: Reply, ghost back: nat)
      requires Valid() && Fair(others, tid) && tid !in s.handlers
      modifies this
      ensures Valid() && start == old(start) && old(trace) <= trace && tid !in s.handlers && done == old(done)
      ensures |old(trace)| <= back <= |trace| && (r == if id in Past(cal, start, trace, back).rows then Fine else NotFound)
    {
      hide Valid, Fair, Past;
      Yield(others);
      back := |trace|;
      Now();
      r := if id in s.rows then Fine else NotFound;
    }

    /** Refused for a job that has ended. */
    method HandlePause(id: JobId, others: Others)
      returns (r: Reply, ghost seen: Option<Row>, ghost at: nat, ghost run: Option<Run>, ghost back: nat)
      requires Valid() && Fair(others, tid) && tid !in s.handlers
      modifies this
      ensures Valid() && start == old(start) && old(trace) <= trace && tid !in s.handlers
      ensures |old(trace)| <= at <= |trace| && seen == Lookup(Past(cal, start, trace, at).rows, id)
      ensures seen.Some? ==> at < |trace| && trace[at] == Ask(tid, OpPause, id)
      ensures seen.None? ==> r == NotFound
      ensures seen.Some? ==> (r == Conflict <==> seen.value.status in {Success, Failed, Cancelled})
      ensures seen.Some? && seen.value.status in {Pending, Running, Paused} ==>
                at < back <= |trace| && (r == if id in Past(cal, start, trace, back).rows then Fine else NotFound)
      ensures done == old(done) + Course(OpPause, id, seen, run, true)
    {
      hide Valid, Fair, Past;
      run, back := None, 0;
      var row;
      row, at := ReadRow(OpPause, id, others);
      seen := row;
      ghost var before := trace;
      if row.None? {
        return NotFound, seen, at, run, back;
      }
      var status := row.value.status;
      if status == Pending {
        Finish(id, Pause, others);
      } else if status == Running {
        ghost var when;
        run, when := RequestRunningJobStop(id, row.value.task, ForPause, others);
        Finish(id, Pause, others);
      } else if status != Paused {
        return Conflict, seen, at, run, back;
      }
      r, back := ReadBack(id, others);
      PastStays(cal, start, before, trace, at);
    }

    /** Refused unless the job is paused and its cache file is there. */
    method HandleResume(id: JobId, others: Others)
      returns (r: Reply, ghost seen: Option<Row>, ghost at: nat, ghost cached: bool, ghost looked: nat, ghost back: nat)
      requires Valid() && Fair(others, tid) && tid !in s.handlers
      modifies this
      ensures Valid() && start == old(start) && old(trace) <= trace && tid !in s.handlers
      ensures |old(trace)| <= at <= |trace| && seen == Lookup(Past(cal, start, trace, at).rows, id)
      ensures seen.Some? ==> at < |trace| && trace[at] == Ask(tid, OpResume, id)
      ensures seen.Some? && seen.value.status == Paused ==>
                at < looked <= |trace| && (cached <==> (seen.value.task.Sync? ==> seen.value.task.path in Past(cal, start, trace, looked).files))
      ensures seen.None? ==> r == NotFound
      ensures seen.Some? ==> (r == Conflict <==> seen.value.status != Paused || !cached)
      ensures seen.Some? && seen.value.status == Paused && cached ==>
                looked < back <= |trace| && (r == if id in Past(cal, start, trace, back).rows then Fine else NotFound)
      ensures done == old(done) + Course(OpResume, id, seen, None, cached)
    {
      hide Valid, Fair, Past;
      cached, looked, back := true, 0, 0;
      var row;
      row, at := ReadRow(OpResume, id, others);
      seen := row;
      ghost var before := trace;
      if row.None? {
        return NotFound, seen, at, cached, looked, back;
      }
      if row.value.status != Paused {
        return Conflict, seen, at, cached, looked, back;
      }
      var found;
      found, looked := LookForCache(id, row.value.task, others);
      cached := found;
      ghost var later := trace;
      if !found {
        PastStays(cal, start, before, trace, at);
        return Conflict, seen, at, cached, looked, back;
      }
      Finish(id, Resume, others);
      r, back := ReadBack(id, others);
      PastStays(cal, start, before, trace, at);
      PastStays(cal, start, later, trace, looked);
    }

    /** ensureJobLocalCacheAvailable: a job without a file always passes. */
    method LookForCache(id: JobId, task: Task, others: Others) returns (found: bool, ghost looked: nat)
      requires Valid() && Fair(others, tid) && Lookup(s.handlers, tid) == Some(Stat(id, task))
      modifies this
      ensures Valid() && start == old(start) && old(trace) <= trace && done == old(done) + [Nothing]
      ensures |old(trace)| <= looked < |trace|
      ensures found <==> (task.Sync? ==> task.path in Past(cal, start, trace, looked).files)
      ensures Lookup(s.handlers, tid) == if found then Some(Put(id, Resume)) else None
    {
      hide Valid, Fair, Past;
      Yield(others);
      looked := |trace|;
      Now();
      ghost var seen := trace;
      found := !(task.Sync? && task.path !in s.files);
      Take(Nothing, if found then Some(Put(id, Resume)) else None);
      PastStays(cal, start, seen, trace, looked);
    }

    /** Refused for a job that has succeeded or failed; a cancelled one is answered as it is. */
    method HandleCancel(id: JobId, others: Others)
      returns (r: Reply, ghost seen: Option<Row>, ghost at: nat, ghost run: Option<Run>, ghost back: nat)
      requires Valid() && Fair(others, tid) && tid !in s.handlers
      modifies this
      ensures Valid() && start == old(start) && old(trace) <= trace && tid !in s.handlers
      ensures |old(trace)| <= at <= |trace| && seen == Lookup(Past(cal, start, trace, at).rows, id)
      ensures seen.Some? ==> at < |trace| && trace[at] == Ask(tid, OpCancel, id)
      ensures seen.None? ==> r == NotFound
      ensures seen.Some? ==> (r == Conflict <==> seen.value.status in {Success, Failed})
      ensures seen.Some? && seen.value.status in {Pending, Running, Paused, Cancelled} ==>
                at < back <= |trace| && (r == if id in Past(cal, start, trace, back).rows then Fine else NotFound)
      ensures done == old(done) + Course(OpCancel, id, seen, run, true)
    {
      hide Valid, Fair, Past, CleanEffects, StopEffects;
      run, back := None, 0;
      var row;
      row, at := ReadRow(OpCancel, id, others);
      seen := row;
      ghost var before := trace;
      if row.None? {
        return NotFound, seen, at, run, back;
      }
      var status := row.value.status;
      if status == Pending || status == Paused {
        CleanUpAndFinish(id, row.value.task, Cancel, others);
      } else if status == Running {
        run := StopAndCancel(id, row.value.task, others);
      } else if status != Cancelled {
        return Conflict, seen, at, run, back;
      }
      r, back := ReadBack(id, others);
      PastStays(cal, start, before, trace, at);
    }

    method StopAndCancel(id: JobId, task: Task, others: Others) returns (run: Option<Run>)
      requires Valid() && Fair(others, tid) && Lookup(s.handlers, tid) == Some(StopAsk(id, task, ForCancel))
      modifies this
      ensures Valid() && start == old(start) && old(trace) <= trace && tid !in s.handlers
      ensures done == old(done) + StopEffects(id, ForCancel, run) + CleanEffects(task) + [Sql(id, Cancel)]
    {
      hide Valid, Fair, CleanEffects, StopEffects;
      ghost var when;
      run, when := RequestRunningJobStop(id, task, ForCancel, others);
      CleanUpAndFinish(id, task, Cancel, others);
    }

    /** An accepted stop leaves the file to the worker. */
    method HandleDelete(id: JobId, others: Others)
      returns (r: Reply, ghost seen: Option<Row>, ghost at: nat, ghost run: Option<Run>)
      requires Valid() && Fair(others, tid) && tid !in s.handlers
      modifies this
      ensures Valid() && start == old(start) && old(trace) <= trace && tid !in s.handlers
      ensures |old(trace)| <= at <= |trace| && seen == Lookup(Past(cal, start, trace, at).rows, id)
      ensures seen.Some? ==> at < |trace| && trace[at] == Ask(tid, OpDelete, id)
      ensures r == if seen.None? then NotFound else Fine
      ensures done == old(done) + Course(OpDelete, id, seen, run, true)
    {
      hide Valid, Fair, Past, CleanEffects, StopEffects;
      run := None;
      var row;
      row, at := ReadRow(OpDelete, id, others);
      seen := row;
      ghost var before := trace;
      if row.None? {
        return NotFound, seen, at, run;
      }
      if row.value.status == Running {
        run := StopAndDelete(id, row.value.task, others);
      } else {
        CleanUpAndFinish(id, row.value.task, Delete, others);
      }
      PastStays(cal, start, before, trace, at);
      r := Fine;
    }

    method StopAndDelete(id: JobId, task: Task, others: Others) returns (run: Option<Run>)
      requires Valid() && Fair(others, tid) && Lookup(s.handlers, tid) == Some(StopAsk(id, task, ForDelete))
      modifies this
      ensures Valid() && start == old(start) && old(trace) <= trace && tid !in s.handlers
      ensures done == old(done) + StopEffects(id, ForDelete, run) + (if run.Some? then [] else CleanEffects(task)) + [Sql(id, Delete)]
    {
      hide Valid, Fair, CleanEffects, StopEffects;
      ghost var when;
      run, when := RequestRunningJobStop(id, task, ForDelete, others);
      if run.Some? {
        Finish(id, Delete, others);
      } else {
        CleanUpAndFinish(id, task, Delete, others);
      }
    }

    // ---- The sweep -------------------------------------------------------------------------------

    /** One step of the sweep. */
    method Sweep(e: Effect, n: Note, next: Option<Sweep>, ghost id: JobId)
      requires Valid() && tid in s.sweeps && SweepMove(s, s.sweeps[tid], id) == Pass(next, e, n)
      modifies this
      ensures Valid() && start == old(start) && trace == old(trace) + [SweepNext(tid, id)] && done == old(done) + [e]
      ensures Lookup(s.sweeps, tid) == next
    {
      hide RunAll, Effects, SweepMove;
      RunOne(cal, start, trace, SweepNext(tid, id));
      EffectsOne(cal, start, trace, Client(tid), SweepNext(tid, id));
      s := PassStep(s, tid, Pass(next, e, n));
      trace := trace + [SweepNext(tid, id)];
      done := done + [e];
    }

    /** The SELECT. */
    method List()
      requires Valid() && tid !in s.sweeps
      modifies this
      ensures Valid() && start == old(start) && trace == old(trace) + [SweepList(tid)] && done == old(done) + [Nothing]
      ensures Lookup(s.sweeps, tid) == Some(Listed(RunningRows(old(s).rows), old(s).now))
    {
      hide RunAll, Effects, RunningRows;
      RunOne(cal, start, trace, SweepList(tid));
      EffectsOne(cal, start, trace, Client(tid), SweepList(tid));
      s := PassStep(s, tid, Pass(Some(Listed(RunningRows(s.rows), s.now)), Nothing, Quiet));
      trace := trace + [SweepList(tid)];
      done := done + [Nothing];
    }

    /** The guarded UPDATE of one stale row and, if it changed the row, the removal of its cache file. */
    method FailStaleJob(id: JobId, stale: Rows, others: Others) returns (hit: bool, ghost at: nat)
      requires Valid() && Fair(others, tid) && id in stale && Lookup(s.sweeps, tid) == Some(Marking(stale))
      modifies this
      ensures Valid() && start == old(start) && old(trace) <= trace && Lookup(s.sweeps, tid) == Some(Marking(stale - {id}))
      ensures done == old(done) + MarkEffects(id, stale[id].task, hit)
      ensures HitOk(cal, start, trace, id, hit, at)
    {
      hide Valid, Fair, Past;
      var task := stale[id].task;
      var rest := stale - {id};
      Yield(others);
      at := |trace|;
      Now();
      ghost var seen := trace;
      hit := StatusOf(s.rows, id) == Some(Running);
      if hit {
        Sweep(Sql(id, FailStale), StaleFailure(id), Some(if task.Sync? then Wiping(id, task.path, rest) else Marking(rest)), id);
        if task.Sync? {
          Yield(others);
          Sweep(Unlink(task.path), Quiet, Some(Marking(rest)), id);
        }
      } else {
        Sweep(Nothing, Quiet, Some(Marking(rest)), id);
      }
      PastStays(cal, start, seen, trace, at);
    }

    /** The SELECT, and, at a later moment, the cutoff. */
    method FindStale(others: Others) returns (stale: Rows, ghost listed: nat, ghost cut: nat)
      requires Valid() && Fair(others, tid) && tid !in s.sweeps
      modifies this
      ensures Valid() && start == old(start) && old(trace) <= trace && done == old(done) + [Nothing, Nothing]
      ensures |old(trace)| <= listed < cut <= |trace|
      ensures stale == StaleRows(RunningRows(Past(cal, start, trace, listed).rows), Past(cal, start, trace, cut).now)
      ensures Lookup(s.sweeps, tid) == Some(Marking(stale))
    {
      hide Valid, Fair, RunningRows, StaleRows, Past;
      Yield(others);
      listed := |trace|;
      Now();
      ghost var first := trace;
      var items := RunningRows(s.rows);
      List();
      Yield(others);
      cut := |trace|;
      Now();
      ghost var second := trace;
      stale := StaleRows(items, s.now);
      Sweep(Nothing, Quiet, Some(Marking(stale)), 0);
      PastStays(cal, start, first, trace, listed);
      PastStays(cal, start, second, trace, cut);
    }

    /** The loop over the stale rows. */
    method MarkAll(stale: Rows, others: Others) returns (ghost order: seq<JobId>, ghost hits: seq<bool>, ghost moments: seq<nat>)
      requires Valid() && Fair(others, tid) && Lookup(s.sweeps, tid) == Some(Marking(stale))
      modifies this
      ensures Valid() && start == old(start) && old(trace) <= trace && Lookup(s.sweeps, tid) == Some(Marking(map[]))
      ensures Visits(stale, map[], order) && HitsOk(cal, start, trace, order, hits, moments) && AllIn(order, hits, stale)
      ensures done == old(done) + MarksEffects(order, hits, stale)
    {
      hide Valid, Fair, MarkEffects, HitOk, HitsOk, Visits, MarksEffects;
      var todo := stale;
      order, hits, moments := [], [], [];
      NoneYet(cal, start, trace, stale);
      while todo != map[]
        invariant Valid() && start == old(start) && old(trace) <= trace && Lookup(s.sweeps, tid) == Some(Marking(todo))
        invariant Visits(stale, todo, order) && HitsOk(cal, start, trace, order, hits, moments)
        invariant AllIn(order, hits, stale) && done == old(done) + MarksEffects(order, hits, stale)
        decreases |todo|
      {
        var id := AnyOf(todo.Keys);
        VisitNext(stale, todo, order, id);
        ghost var earlier, hit, at := trace, false, 0;
        hit, at := FailStaleJob(id, todo, others);
        HitsStay(cal, start, earlier, trace, order, hits, moments);
        OneMore(cal, start, trace, order, id, hits, hit, moments, at, stale);
        order, hits, moments := order + [id], hits + [hit], moments + [at];
        todo := todo - {id};
      }
    }

    /** markStaleRunningJobs: the running rows of one moment, the cutoff of a later one, and then every stale
        row exactly once: failed, with its file removed, if it is still running. */
    method MarkStaleRunningJobs(others: Others)
      returns (ghost listed: nat, ghost cut: nat, ghost stale: Rows, ghost order: seq<JobId>, ghost hits: seq<bool>, ghost moments: seq<nat>)
      requires Valid() && Fair(others, tid) && tid !in s.sweeps
      modifies this
      ensures Valid() && start == old(start) && old(trace) <= trace && tid !in s.sweeps
      ensures |old(trace)| <= listed < cut <= |trace|
      ensures stale == StaleRows(RunningRows(Past(cal, start, trace, listed).rows), Past(cal, start, trace, cut).now)
      ensures Visits(stale, map[], order) && HitsOk(cal, start, trace, order, hits, moments) && AllIn(order, hits, stale)
      ensures done == old(done) + [Nothing, Nothing] + MarksEffects(order, hits, stale) + [Nothing]
    {
      hide Valid, Fair, RunningRows, StaleRows, Past, MarkEffects, HitOk, HitsOk, Visits, MarksEffects;
      var rows;
      rows, listed, cut := FindStale(others);
      stale := rows;
      ghost var before := trace;
      order, hits, moments := MarkAll(rows, others);
      ghost var earlier := trace;
      Sweep(Nothing, Quiet, None, 0);
      HitsStay(cal, start, earlier, trace, order, hits, moments);
      PastStays(cal, start, before, trace, listed);
      PastStays(cal, start, before, trace, cut);
    }
  }

  /** Each row of a list is still to do or was visited, once. */
  ghost predicate Visits(all: Rows, todo: Rows, order: seq<JobId>) {
    && (forall i :: i in all <==> i in todo || i in order)
    && (forall i :: i in order ==> i !in todo)
    && (forall i :: i in todo ==> i in all && todo[i] == all[i])
    && (forall j, k :: 0 <= j < k < |order| ==> order[j] != order[k])
  }

  lemma VisitNext(all: Rows, todo: Rows, order: seq<JobId>, id: JobId)
    requires Visits(all, todo, order) && id in todo
    ensures Visits(all, todo - {id}, order + [id]) && id in all && todo[id] == all[id]
  {
  }

  lemma NoneYet(cal: Calendar, start: State, trace: seq<Action>, all: Rows)
    ensures Visits(all, all, []) && HitsOk(cal, start, trace, [], [], []) && AllIn([], [], all) && MarksEffects([], [], all) == []
  {
  }

  /** A row was hit exactly if it was running at its moment. */
  ghost predicate HitsOk(cal: Calendar, start: State, trace: seq<Action>, order: seq<JobId>, hits: seq<bool>, moments: seq<nat>) {
    && |hits| == |order| == |moments|
    && forall k :: 0 <= k < |order| ==> HitOk(cal, start, trace, order[k], hits[k], moments[k])
  }

  ghost predicate HitOk(cal: Calendar, start: State, trace: seq<Action>, id: JobId, hit: bool, at: nat) {
    at <= |trace| && (hit <==> StatusOf(Past(cal, start, trace, at).rows, id) == Some(Running))
  }

  lemma OneMore(
      cal: Calendar, start: State, trace: seq<Action>, order: seq<JobId>, id: JobId, hits: seq<bool>, hit: bool, moments: seq<nat>,
      at: nat, stale: Rows)
    requires HitsOk(cal, start, trace, order, hits, moments) && HitOk(cal, start, trace, id, hit, at)
    requires id in stale && AllIn(order, hits, stale)
    ensures HitsOk(cal, start, trace, order + [id], hits + [hit], moments + [at])
    ensures AllIn(order + [id], hits + [hit], stale)
    ensures MarksEffects(order + [id], hits + [hit], stale) == MarksEffects(order, hits, stale) + MarkEffects(id, stale[id].task, hit)
  {
    hide HitOk, MarkEffects;
    assert (order + [id])[..|order|] == order && (hits + [hit])[..|hits|] == hits;
  }

  lemma HitsStay(cal: Calendar, start: State, trace: seq<Action>, longer: seq<Action>, order: seq<JobId>, hits: seq<bool>, moments: seq<nat>)
    requires trace <= longer && HitsOk(cal, start, trace, order, hits, moments)
    ensures HitsOk(cal, start, longer, order, hits, moments)
  {
    forall k | 0 <= k < |order| ensures HitOk(cal, start, longer, order[k], hits[k], moments[k]) {
      assert HitOk(cal, start, trace, order[k], hits[k], moments[k]);
      PastStays(cal, start, trace, longer, moments[k]);
    }
    hide Past;
  }
}
