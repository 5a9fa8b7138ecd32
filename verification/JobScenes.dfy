/** Runs of the job engine, step by step: how a cloud-sync job goes through when nothing disturbs it, and
    two runs in which a success and a resume are lost. */
module JobScenes {
  import opened Wrappers
  import opened Schedule
  import opened JobRows
  import opened JobEngine

  const ANY := Choice(false, [], 0, false, Done)
  const GOOD := Choice(false, [], 0, true, Done)

  function Pick(id: JobId): Action {
    Work(Choice(false, [], id, false, Done))
  }

  function WithRow(s: State, id: JobId, row: Row): State {
    s.(rows := s.rows[id := row])
  }

  // ---- Single steps ----------------------------------------------------------------------------

  lemma Nothing1(s: State)
    ensures LogAfter(s, Nothing, Quiet) == s.log && PoolsAfter(s.pools, Nothing) == s.pools
    ensures RowsAfter(s.rows, Nothing, s.now) == s.rows && IssuedAfter(s.issued, Nothing) == s.issued
    ensures FilesAfter(s.files, Nothing) == s.files && RegAfter(s.reg, Nothing, s.nextRun) == s.reg
  {
  }

  /** A worker step without effect. */
  lemma Goes(cal: Calendar, s: State, c: Choice, w: Worker)
    requires WorkerMove(cal, s, c) == Move(w, Nothing, Quiet)
    ensures Step(cal, s, Work(c)) == s.(worker := w)
  {
    hide WorkerMove, LogAfter, PoolsAfter, RowsAfter, IssuedAfter, FilesAfter, RegAfter;
    Nothing1(s);
  }

  /** A worker step that runs one statement other than a claim. */
  lemma Writes(cal: Calendar, s: State, c: Choice, w: Worker, id: JobId, st: Statement)
    requires WorkerMove(cal, s, c) == Move(w, Sql(id, st), Quiet) && !st.Claim? && !st.Resume?
    ensures Step(cal, s, Work(c)) == s.(worker := w, rows := Exec(s.rows, id, st, s.now))
  {
    hide WorkerMove, Exec;
  }

  lemma Picks(cal: Calendar, s: State, id: JobId)
    requires s.worker == Idle && IsOldestPending(s.rows, id)
    ensures Step(cal, s, Pick(id)) == s.(worker := Picked(id, s.rows[id].task))
  {
    Goes(cal, s, Choice(false, [], id, false, Done), Picked(id, s.rows[id].task));
    hide Step, IsOldestPending;
  }

  lemma Claims(cal: Calendar, s: State, id: JobId, task: Task)
    requires s.worker == Picked(id, task) && StatusOf(s.rows, id) == Some(Pending)
    ensures
      Step(cal, s, Work(ANY)) ==
        WithRow(s, id, Changed(Claim, s.rows[id], s.now)).(worker := Claimed(id, task), log := s.log.(orphans := s.log.orphans - {id}))
  {
    hide Begin, Enqueue, Resolve, Return, Judge, Changed;
  }

  lemma Opens(cal: Calendar, s: State, id: JobId, path: Path)
    requires s.worker == Claimed(id, Sync(path)) && path in s.files
    ensures Step(cal, s, Work(GOOD)) == s.(worker := Opened(id, Transfer(path, s.files[path])))
  {
    Goes(cal, s, GOOD, Opened(id, Transfer(path, s.files[path])));
    hide Step;
  }

  lemma Registers(cal: Calendar, s: State, id: JobId, work: Work)
    requires s.worker == Ready(id, work)
    ensures
      Step(cal, s, Work(ANY)) ==
        s.(worker := Active(id, work, s.nextRun), reg := Registered(s.reg, id, s.nextRun), nextRun := s.nextRun + 1, beats := s.beats + {id})
  {
    hide Begin, Enqueue, Resolve, Return, Judge, Registered;
  }

  lemma Sends(cal: Calendar, s: State, id: JobId, work: Work, run: Run)
    requires s.worker == Active(id, work, run) && work.Transfer?
    ensures
      Step(cal, s, Work(ANY)) ==
        s.(worker := Stopped(id, work, run, Done), log := s.log.(sent := s.log.sent[id := work.bytes]))
  {
    hide Begin, Enqueue, Resolve, Judge;
  }

  lemma Unregisters(cal: Calendar, s: State, id: JobId, work: Work, run: Run, outcome: Outcome)
    requires s.worker == Stopped(id, work, run, outcome)
    ensures
      Step(cal, s, Work(ANY)) ==
        s.(worker := Left(id, work, run, outcome, Lookup(s.reg.reasons, id)), reg := Unregistered(s.reg, id))
  {
    hide Begin, Enqueue, Resolve, Return, Judge, Unregistered, Lookup;
  }

  lemma Removes(cal: Calendar, s: State, id: JobId, path: Path, follow: Option<Statement>)
    requires s.worker == Remove(id, path, follow)
    ensures
      Step(cal, s, Work(ANY)) ==
        s.(worker := if follow.Some? then Finish(id, follow.value, None) else Idle, files := s.files - {path})
  {
    hide Begin, Enqueue, Resolve, Return, Judge;
  }

  // ---- A quiet run -----------------------------------------------------------------------------

  /** From a pending row to the running transfer. */
  function Opening(id: JobId): seq<Action> {
    [Pick(id)] + [Work(ANY)] + [Work(GOOD)] + [Work(ANY)] + [Work(ANY)]
  }

  /** From the running transfer to the recorded success. */
  function Closing(): seq<Action> {
    [Work(ANY)] + [Work(ANY)] + [Work(ANY)] + [Work(ANY)] + [Work(ANY)] + [Work(ANY)]
  }

  function RunningRow(row: Row, now: int): Row {
    Changed(SetProgress(25), Changed(Claim, row, now), now)
  }

  lemma OpeningRun(cal: Calendar, s: State, id: JobId, path: Path)
    requires s.worker == Idle && IsOldestPending(s.rows, id) && s.rows[id].task == Sync(path) && path in s.files
    ensures
      RunAll(cal, s, Opening(id)) ==
        WithRow(s, id, RunningRow(s.rows[id], s.now))
          .(worker := Active(id, Transfer(path, s.files[path]), s.nextRun), reg := Registered(s.reg, id, s.nextRun),
            nextRun := s.nextRun + 1, beats := s.beats + {id}, log := s.log.(orphans := s.log.orphans - {id}))
  {
    hide Step, Registered, Changed, WorkerMove;
    var work := Transfer(path, s.files[path]);
    var a1, a2, a3, a4, a5 := Pick(id), Work(ANY), Work(GOOD), Work(ANY), Work(ANY);
    RunOne(cal, s, [], a1);
    Picks(cal, s, id);
    var s1 := Step(cal, s, a1);
    RunOne(cal, s, [a1], a2);
    Claims(cal, s1, id, Sync(path));
    var s2 := Step(cal, s1, a2);
    RunOne(cal, s, [a1] + [a2], a3);
    Opens(cal, s2, id, path);
    var s3 := Step(cal, s2, a3);
    RunOne(cal, s, [a1] + [a2] + [a3], a4);
    ProgressMove(cal, s3, id, work);
    Writes(cal, s3, ANY, Ready(id, work), id, SetProgress(25));
    var s4 := Step(cal, s3, a4);
    RunOne(cal, s, [a1] + [a2] + [a3] + [a4], a5);
    Registers(cal, s4, id, work);
    assert s1 == RunAll(cal, s, [] + [a1]) && [] + [a1] == [a1];
    hide RunAll, IsOldestPending;
  }

  lemma ProgressMove(cal: Calendar, s: State, id: JobId, work: Work)
    requires s.worker == Opened(id, work)
    ensures WorkerMove(cal, s, ANY) == Move(Ready(id, work), Sql(id, SetProgress(25)), Quiet)
  {
  }

  lemma ClosingRun(cal: Calendar, s: State, id: JobId, path: Path, bytes: Bytes, run: Run)
    requires s.worker == Active(id, Transfer(path, bytes), run) && StatusOf(s.rows, id) == Some(Running)
    ensures
      RunAll(cal, s, Closing()) ==
        s.(worker := Idle, log := s.log.(sent := s.log.sent[id := bytes]), reg := Unregistered(s.reg, id),
           files := s.files - {path}, rows := Exec(s.rows, id, Succeed, s.now))
  {
    hide Step, Unregistered, Exec, WorkerMove, Lookup;
    var work, a := Transfer(path, bytes), Work(ANY);
    RunOne(cal, s, [], a);
    Sends(cal, s, id, work, run);
    var s1 := Step(cal, s, a);
    RunOne(cal, s, [a], a);
    Unregisters(cal, s1, id, work, run, Done);
    var s2 := Step(cal, s1, a);
    var reason := Lookup(s1.reg.reasons, id);
    RunOne(cal, s, [a] + [a], a);
    StatusMove(cal, s2, id, work, run, Done, reason);
    Goes(cal, s2, ANY, Judged(id, work, run, Done, reason, Some(Running)));
    var s3 := Step(cal, s2, a);
    RunOne(cal, s, [a] + [a] + [a], a);
    SucceedMove(cal, s3, id, path, bytes, run, reason);
    Goes(cal, s3, ANY, Remove(id, path, Some(Succeed)));
    var s4 := Step(cal, s3, a);
    RunOne(cal, s, [a] + [a] + [a] + [a], a);
    Removes(cal, s4, id, path, Some(Succeed));
    var s5 := Step(cal, s4, a);
    RunOne(cal, s, [a] + [a] + [a] + [a] + [a], a);
    FinishMove(cal, s5, id, Succeed);
    Writes(cal, s5, ANY, Idle, id, Succeed);
    assert s1 == RunAll(cal, s, [] + [a]) && [] + [a] == [a];
    hide RunAll;
  }

  lemma StatusMove(cal: Calendar, s: State, id: JobId, work: Work, run: Run, outcome: Outcome, reason: Option<Reason>)
    requires s.worker == Left(id, work, run, outcome, reason)
    ensures WorkerMove(cal, s, ANY) == Move(Judged(id, work, run, outcome, reason, StatusOf(s.rows, id)), Nothing, Quiet)
  {
  }

  lemma SucceedMove(cal: Calendar, s: State, id: JobId, path: Path, bytes: Bytes, run: Run, reason: Option<Reason>)
    requires s.worker == Judged(id, Transfer(path, bytes), run, Done, reason, Some(Running))
    ensures WorkerMove(cal, s, ANY) == Move(Remove(id, path, Some(Succeed)), Nothing, Quiet)
  {
  }

  lemma FinishMove(cal: Calendar, s: State, id: JobId, st: Statement)
    requires s.worker == Finish(id, st, None)
    ensures WorkerMove(cal, s, ANY) == Move(Idle, Sql(id, st), Quiet)
  {
  }

  function SucceededRow(row: Row, now: int): Row {
    Changed(Succeed, RunningRow(row, now), now)
  }

  /** Undisturbed, an idle worker that picks a pending job whose file is there sends the file as it is,
      removes it and records the success. */
  lemma QuietRun(cal: Calendar, s: State, id: JobId, path: Path)
    requires s.worker == Idle && IsOldestPending(s.rows, id) && s.rows[id].task == Sync(path) && path in s.files
    ensures
      var s' := RunAll(cal, s, Opening(id) + Closing());
      && s'.worker == Idle && s'.rows == s.rows[id := SucceededRow(s.rows[id], s.now)] && s'.files == s.files - {path}
      && s'.log == s.log.(orphans := s.log.orphans - {id}, sent := s.log.sent[id := s.files[path]])
      && s'.issued == s.issued && s'.now == s.now
      && s'.rows[id].status == Status.Success
  {
    OpeningRun(cal, s, id, path);
    var s1 := RunAll(cal, s, Opening(id));
    RunConcat(cal, s, Opening(id), Closing());
    ClosingRun(cal, s1, id, path, s.files[path], s.nextRun);
    hide RunAll, Step, WorkerMove, IsOldestPending, Opening, Closing;
  }

  // ---- Steps of a request ----------------------------------------------------------------------

  lemma Submits(cal: Calendar, s: State, id: JobId, path: Path, bytes: Bytes)
    requires id !in s.issued && !HasJob(s.log.submitted, path)
    ensures
      Step(cal, s, Submit(id, Sync(path), bytes)) ==
        s.(rows := s.rows[id := NewRow(Sync(path), s.now)], issued := s.issued + {id}, files := s.files[path := bytes],
           log := s.log.(submitted := s.log.submitted[id := Parcel(path, bytes)]))
  {
    hide HasJob;
  }

  /** A request reads the row and takes its course. */
  lemma Asks(cal: Calendar, s: State, tid: Thread, op: Op, id: JobId, h: Handler, n: Note)
    requires tid !in s.handlers && id in s.rows && Respond(s.rows[id], op, id) == Answer(Some(h), Nothing, n)
    requires n == Quiet || n == StopWanted(id)
    ensures
      Step(cal, s, Ask(tid, op, id)) ==
        s.(handlers := s.handlers[tid := h], log := if n == Quiet then s.log else s.log.(stopped := s.log.stopped + {id}))
  {
    hide Respond;
  }

  /** A handler step, in terms of its effect. */
  lemma Answers(cal: Calendar, s: State, tid: Thread, h: Handler, next: Option<Handler>, e: Effect)
    requires tid in s.handlers && s.handlers[tid] == h && HandlerMove(s, h) == Answer(next, e, Quiet)
    ensures Step(cal, s, Handle(tid)) == After(s, e, Quiet, s.worker, Place(s.handlers, tid, next), s.sweeps)
  {
    hide HandlerMove, After, Place;
  }

  lemma AnswersSql(cal: Calendar, s: State, tid: Thread, id: JobId, st: Statement)
    requires tid in s.handlers && s.handlers[tid] == Put(id, st) && !st.Claim?
    requires id in s.rows && s.rows[id].task.Sync?
    ensures Step(cal, s, Handle(tid)) == s.(handlers := s.handlers - {tid}, rows := Exec(s.rows, id, st, s.now))
  {
    Answers(cal, s, tid, Put(id, st), None, Sql(id, st));
    hide Step, Exec;
  }

  lemma AnswersStop(cal: Calendar, s: State, tid: Thread, id: JobId, task: Task, run: Run)
    requires tid in s.handlers && s.handlers[tid] == StopAsk(id, task, ForPause) && id in s.reg.cancels && s.reg.cancels[id] == run
    ensures
      Step(cal, s, Handle(tid)) ==
        s.(handlers := s.handlers[tid := StopCall(id, task, ForPause, run)], reg := s.reg.(reasons := s.reg.reasons[id := ForPause]),
           log := s.log.(accepted := s.log.accepted[run := ForPause]))
  {
    Answers(cal, s, tid, StopAsk(id, task, ForPause), Some(StopCall(id, task, ForPause, run)), RequestStop(id, ForPause));
    hide Step;
  }

  lemma AnswersCancel(cal: Calendar, s: State, tid: Thread, id: JobId, task: Task, run: Run)
    requires tid in s.handlers && s.handlers[tid] == StopCall(id, task, ForPause, run)
    ensures Step(cal, s, Handle(tid)) == s.(handlers := s.handlers[tid := Put(id, Pause)], cancelled := s.cancelled + {run})
  {
    Answers(cal, s, tid, StopCall(id, task, ForPause, run), Some(Put(id, Pause)), CancelContext(run));
    hide Step;
  }

  lemma AnswersStat(cal: Calendar, s: State, tid: Thread, id: JobId, path: Path)
    requires tid in s.handlers && s.handlers[tid] == Stat(id, Sync(path)) && path in s.files
    ensures Step(cal, s, Handle(tid)) == s.(handlers := s.handlers[tid := Put(id, Resume)])
  {
    Answers(cal, s, tid, Stat(id, Sync(path)), Some(Put(id, Resume)), Nothing);
    Nothing1(s);
    hide Step, LogAfter, RowsAfter, FilesAfter, IssuedAfter, RegAfter, PoolsAfter;
  }

  // ---- A success that is lost ------------------------------------------------------------------

  const JOB: JobId := 1
  const FILE: Path := 7
  const CLIENT: Thread := 0

  /** A cancel request reads the running row; the job then succeeds; the request goes on. */
  function LateCancel(): seq<Action> {
    [Submit(JOB, Sync(FILE), [])] + Opening(JOB) + [Ask(CLIENT, OpCancel, JOB)] + Closing()
  }

  function BegunSteps(): seq<Action> {
    [Submit(JOB, Sync(FILE), [])] + Opening(JOB)
  }

  /** A submitted job's transfer is under way. */
  lemma BegunRun(cal: Calendar, s: State)
    requires Init(s)
    ensures
      var s' := RunAll(cal, s, BegunSteps());
      && s'.worker == Active(JOB, Transfer(FILE, []), s.nextRun) && s'.reg == Registry(map[JOB := s.nextRun], map[])
      && StatusOf(s'.rows, JOB) == Some(Running) && s'.rows[JOB].task == Sync(FILE) && FILE in s'.files
      && s'.handlers == map[] && s'.sweeps == map[] && s'.beats == {JOB} && s'.now == s.now && s'.rows[JOB].written == s.now
  {
    hide Step, WorkerMove;
    var a := Submit(JOB, Sync(FILE), []);
    Submits(cal, s, JOB, FILE, []);
    var s1 := Step(cal, s, a);
    RunOne(cal, s, [], a);
    assert [] + [a] == [a] && s1 == RunAll(cal, s, [a]);
    OldestAlone(s1.rows, JOB);
    OpeningRun(cal, s1, JOB, FILE);
    RunConcat(cal, s, [a], Opening(JOB));
    hide RunAll, Opening, IsOldestPending;
  }

  lemma LateCancelSucceeds(cal: Calendar, s: State)
    requires Init(s)
    ensures
      var s' := RunAll(cal, s, LateCancel());
      && StatusOf(s'.rows, JOB) == Some(Status.Success) && s'.worker == Idle && s'.reg == EMPTY_REGISTRY
      && s'.handlers == map[CLIENT := StopAsk(JOB, Sync(FILE), ForCancel)]
  {
    hide Step, WorkerMove, HandlerMove, RunAll, Opening, Closing;
    BegunRun(cal, s);
    var s2 := RunAll(cal, s, BegunSteps());
    var ask := Ask(CLIENT, OpCancel, JOB);
    Asks(cal, s2, CLIENT, OpCancel, JOB, StopAsk(JOB, Sync(FILE), ForCancel), StopWanted(JOB));
    RunOne(cal, s, BegunSteps(), ask);
    var s3 := Step(cal, s2, ask);
    ClosingRun(cal, s3, JOB, FILE, [], s.nextRun);
    RunConcat(cal, s, BegunSteps() + [ask], Closing());
  }

  lemma OldestAlone(rows: Rows, id: JobId)
    requires rows.Keys == {id} && rows[id].status == Pending
    ensures IsOldestPending(rows, id)
  {
  }

  /** The cancel that read a running row takes the success away. */
  lemma SuccessCancelled(cal: Calendar, s: State)
    requires Init(s)
    ensures StatusOf(RunAll(cal, s, LateCancel()).rows, JOB) == Some(Status.Success)
    ensures
      StatusOf(RunAll(cal, s, LateCancel() + [Handle(CLIENT)] + [Handle(CLIENT)] + [Handle(CLIENT)]).rows, JOB)
      == Some(Status.Cancelled)
  {
    hide Step, WorkerMove, LateCancel;
    LateCancelSucceeds(cal, s);
    var s0, a := RunAll(cal, s, LateCancel()), Handle(CLIENT);
    Answers(cal, s0, CLIENT, StopAsk(JOB, Sync(FILE), ForCancel), Some(Handler.Wipe(JOB, Sync(FILE), Cancel)), RequestStop(JOB, ForCancel));
    var s1 := Step(cal, s0, a);
    RunOne(cal, s, LateCancel(), a);
    Answers(cal, s1, CLIENT, Handler.Wipe(JOB, Sync(FILE), Cancel), Some(Put(JOB, Cancel)), Unlink(FILE));
    var s2 := Step(cal, s1, a);
    RunOne(cal, s, LateCancel() + [a], a);
    Answers(cal, s2, CLIENT, Put(JOB, Cancel), None, Sql(JOB, Cancel));
    RunOne(cal, s, LateCancel() + [a] + [a], a);
    hide RunAll, LogAfter;
  }

  // ---- A resume that is lost -------------------------------------------------------------------

  const BROKEN_OFF := Choice(false, [], 0, false, Interrupted)

  /** A pause stops the transfer and the worker has read the status, but not yet written; the pause and
      then a resume go through. */
  function EarlyResume(): seq<Action> {
    [Submit(JOB, Sync(FILE), [])] + Opening(JOB)
    + [Ask(CLIENT, OpPause, JOB)] + [Handle(CLIENT)] + [Handle(CLIENT)]
    + [Work(BROKEN_OFF)] + [Work(ANY)] + [Work(ANY)] + [Work(ANY)]
    + [Handle(CLIENT)]
    + [Ask(CLIENT, OpResume, JOB)] + [Handle(CLIENT)] + [Handle(CLIENT)]
  }

  lemma PauseStops(cal: Calendar, s: State)
    requires Init(s)
    ensures
      var s' := RunAll(cal, s, BegunSteps() + [Ask(CLIENT, OpPause, JOB)] + [Handle(CLIENT)] + [Handle(CLIENT)]);
      && s'.worker == Active(JOB, Transfer(FILE, []), s.nextRun) && s.nextRun in s'.cancelled
      && s'.reg.reasons == map[JOB := ForPause] && FILE in s'.files
      && StatusOf(s'.rows, JOB) == Some(Running) && s'.rows[JOB].task == Sync(FILE)
      && s'.handlers == map[CLIENT := Put(JOB, Pause)]
  {
    hide Step, WorkerMove, RunAll, Opening, LogAfter, BegunSteps;
    BegunRun(cal, s);
    var s2 := RunAll(cal, s, BegunSteps());
    var ask, h := Ask(CLIENT, OpPause, JOB), Handle(CLIENT);
    Asks(cal, s2, CLIENT, OpPause, JOB, StopAsk(JOB, Sync(FILE), ForPause), Quiet);
    RunOne(cal, s, BegunSteps(), ask);
    var s3 := Step(cal, s2, ask);
    AnswersStop(cal, s3, CLIENT, JOB, Sync(FILE), s.nextRun);
    RunOne(cal, s, BegunSteps() + [ask], h);
    var s4 := Step(cal, s3, h);
    AnswersCancel(cal, s4, CLIENT, JOB, Sync(FILE), s.nextRun);
    RunOne(cal, s, BegunSteps() + [ask] + [h], h);
  }

  /** The interrupted run winds down to its last statement. */
  lemma WindsDown(cal: Calendar, s: State, run: Run)
    requires s.worker == Active(JOB, Transfer(FILE, []), run) && run in s.cancelled && Lookup(s.reg.reasons, JOB) == Some(ForPause)
    ensures
      RunAll(cal, s, [Work(BROKEN_OFF)] + [Work(ANY)] + [Work(ANY)] + [Work(ANY)])
      == s.(worker := Finish(JOB, Pause, None), reg := Unregistered(s.reg, JOB))
  {
    hide Step, WorkerMove, Unregistered;
    var work, a := Transfer(FILE, []), Work(BROKEN_OFF);
    BreakMove(cal, s, run);
    Goes(cal, s, BROKEN_OFF, Stopped(JOB, work, run, Interrupted));
    RunOne(cal, s, [], a);
    var s1 := Step(cal, s, a);
    Unregisters(cal, s1, JOB, work, run, Interrupted);
    RunOne(cal, s, [a], Work(ANY));
    var s2 := Step(cal, s1, Work(ANY));
    StatusMove(cal, s2, JOB, work, run, Interrupted, Some(ForPause));
    Goes(cal, s2, ANY, Judged(JOB, work, run, Interrupted, Some(ForPause), StatusOf(s2.rows, JOB)));
    RunOne(cal, s, [a] + [Work(ANY)], Work(ANY));
    var s3 := Step(cal, s2, Work(ANY));
    PauseMove(cal, s3, run, StatusOf(s2.rows, JOB));
    Goes(cal, s3, ANY, Finish(JOB, Pause, None));
    RunOne(cal, s, [a] + [Work(ANY)] + [Work(ANY)], Work(ANY));
    assert [] + [a] == [a];
    hide RunAll;
  }

  lemma BreakMove(cal: Calendar, s: State, run: Run)
    requires s.worker == Active(JOB, Transfer(FILE, []), run) && run in s.cancelled
    ensures WorkerMove(cal, s, BROKEN_OFF) == Move(Stopped(JOB, Transfer(FILE, []), run, Interrupted), Nothing, Quiet)
  {
  }

  lemma PauseMove(cal: Calendar, s: State, run: Run, seen: Option<Status>)
    requires s.worker == Judged(JOB, Transfer(FILE, []), run, Interrupted, Some(ForPause), seen)
    ensures WorkerMove(cal, s, ANY) == Move(Finish(JOB, Pause, None), Nothing, Quiet)
  {
  }

  /** The pause handler writes, then a resume request goes all the way. */
  lemma PauseThenResume(cal: Calendar, s: State)
    requires StatusOf(s.rows, JOB) == Some(Running) && s.rows[JOB].task == Sync(FILE) && FILE in s.files
    requires s.handlers == map[CLIENT := Put(JOB, Pause)]
    ensures
      var h := [Handle(CLIENT)];
      var s' := RunAll(cal, s, h + [Ask(CLIENT, OpResume, JOB)] + h + h);
      StatusOf(s'.rows, JOB) == Some(Pending) && s'.worker == s.worker
  {
    hide Step, WorkerMove, RunAll, LogAfter;
    var h, ask := Handle(CLIENT), Ask(CLIENT, OpResume, JOB);
    RunFirst(cal, s, h);
    PauseWritten(cal, s);
    var s1 := Step(cal, s, h);
    RunOne(cal, s, [h], ask);
    var s2 := Step(cal, s1, ask);
    RunOne(cal, s, [h] + [ask], h);
    RunOne(cal, s, [h] + [ask] + [h], h);
    ResumeWritten(cal, s1);
  }

  lemma RunFirst(cal: Calendar, s: State, a: Action)
    ensures RunAll(cal, s, [a]) == Step(cal, s, a)
  {
    hide Step;
    RunOne(cal, s, [], a);
    assert [] + [a] == [a];
  }

  lemma PauseWritten(cal: Calendar, s: State)
    requires StatusOf(s.rows, JOB) == Some(Running) && s.rows[JOB].task == Sync(FILE) && FILE in s.files
    requires s.handlers == map[CLIENT := Put(JOB, Pause)]
    ensures
      var s' := Step(cal, s, Handle(CLIENT));
      && StatusOf(s'.rows, JOB) == Some(Paused) && s'.rows[JOB].task == Sync(FILE) && s'.files == s.files && s'.handlers == map[]
      && s'.worker == s.worker
  {
    hide Step;
    AnswersSql(cal, s, CLIENT, JOB, Pause);
  }

  lemma ResumeWritten(cal: Calendar, s: State)
    requires StatusOf(s.rows, JOB) == Some(Paused) && s.rows[JOB].task == Sync(FILE) && FILE in s.files && s.handlers == map[]
    ensures
      var h := Handle(CLIENT);
      var s' := Step(cal, Step(cal, Step(cal, s, Ask(CLIENT, OpResume, JOB)), h), h);
      StatusOf(s'.rows, JOB) == Some(Pending) && s'.worker == s.worker
  {
    hide Step, LogAfter;
    Asks(cal, s, CLIENT, OpResume, JOB, Stat(JOB, Sync(FILE)), Quiet);
    var s2 := Step(cal, s, Ask(CLIENT, OpResume, JOB));
    AnswersStat(cal, s2, CLIENT, JOB, FILE);
    AnswersSql(cal, Step(cal, s2, Handle(CLIENT)), CLIENT, JOB, Resume);
  }

  /** The wind-down of the paused run undoes the resume. */
  lemma ResumePaused(cal: Calendar, s: State)
    requires Init(s)
    ensures StatusOf(RunAll(cal, s, EarlyResume()).rows, JOB) == Some(Pending)
    ensures StatusOf(RunAll(cal, s, EarlyResume() + [Work(ANY)]).rows, JOB) == Some(Paused)
  {
    hide Step, WorkerMove, Unregistered, Opening;
    var h, ask, w := [Handle(CLIENT)], [Ask(CLIENT, OpPause, JOB)], [Work(ANY)];
    var first := BegunSteps() + ask + h + h;
    var second := [Work(BROKEN_OFF)] + w + w + w;
    var third := h + [Ask(CLIENT, OpResume, JOB)] + h + h;
    PauseStops(cal, s);
    var s1 := RunAll(cal, s, first);
    WindsDown(cal, s1, s.nextRun);
    RunConcat(cal, s, first, second);
    var s2 := RunAll(cal, s1, second);
    PauseThenResume(cal, s2);
    RunConcat(cal, s, first + second, third);
    var s3 := RunAll(cal, s2, third);
    assert EarlyResume() == first + second + third;
    FinishMove(cal, s3, JOB, Pause);
    Writes(cal, s3, ANY, Idle, JOB, Pause);
    RunOne(cal, s, EarlyResume(), Work(ANY));
    hide RunAll;
  }
}
