/** Who may run a job: the one worker, the registry of its run, and the stop reasons it accepts. */
module JobOwnership {
  import opened Wrappers
  import opened Text
  import opened Schedule
  import opened JobRows
  import opened JobEngine

  // ---- Running rows have an owner --------------------------------------------------------------

  /** Places from which the worker returns to its loop without another statement on the row. */
  predicate HasLetGo(w: Worker) {
    (w.Judged? && w.seen != Some(Running)) || (w.Remove? && w.follow.None?)
  }

  /** Statements that end a run or answer a request. */
  predicate Closing(st: Statement) {
    st.Pause? || st.Cancel? || st.Delete? || st.Fail? || st.Succeed?
  }

  predicate ClosesWell(w: Worker) {
    && (w.Finish? ==> Closing(w.st) && (w.wipe.Some? ==> w.st.Fail?))
    && (w.Remove? && w.follow.Some? ==> Closing(w.follow.value))
  }

  predicate HandlerOk(h: Handler) {
    && (h.Put? ==> h.st.Pause? || h.st.Resume? || h.st.Cancel? || h.st.Delete?)
    && (h.Wipe? ==> h.st.Cancel? || h.st.Delete?)
  }

  ghost predicate HandlersOk(handlers: map<Thread, Handler>) {
    forall t :: t in handlers ==> HandlerOk(handlers[t])
  }

  /** A running row is the worker's or was left by a crash; a held row is not a success, and is not
      running once the worker has let go of it. */
  ghost predicate HoldInv(rows: Rows, issued: set<JobId>, worker: Worker, orphans: set<JobId>) {
    && (forall i :: i in rows ==> i in issued)
    && (forall i :: i in rows && rows[i].status.Running? ==> Held(worker) == Some(i) || i in orphans)
    && (Held(worker).Some? ==>
          var id := Held(worker).value;
          && id !in orphans
          && StatusOf(rows, id) != Some(Status.Success)
          && (HasLetGo(worker) ==> StatusOf(rows, id) != Some(Running)))
    && ClosesWell(worker)
  }

  ghost predicate Hold(s: State) {
    && HoldInv(s.rows, s.issued, s.worker, s.log.orphans)
    && HandlersOk(s.handlers)
  }

  /** The ownership facts after an effect, with the worker at a new place. */
  ghost predicate HoldAfter(s: State, m: Move) {
    HoldInv(RowsAfter(s.rows, m.effect, s.now), IssuedAfter(s.issued, m.effect), m.worker, OrphansAfter(s.log.orphans, m.effect))
  }

  lemma HoldJudge(cal: Calendar, s: State, c: Choice)
    requires HoldInv(s.rows, s.issued, s.worker, s.log.orphans) && s.worker.Judged?
    ensures HoldAfter(s, WorkerMove(cal, s, c))
  {
    hide NextTime, Begin, Enqueue, Resolve, Return;
  }

  lemma HoldEnqueue(cal: Calendar, s: State, c: Choice)
    requires HoldInv(s.rows, s.issued, s.worker, s.log.orphans) && (s.worker.Polled? || s.worker.Scan? || s.worker.Due? || s.worker.Queued?)
    ensures HoldAfter(s, WorkerMove(cal, s, c))
  {
    hide IsDue, CatchUpTime, HasActiveSnapshot, Fired, Resumes, Begin, Judge, Resolve, Return;
  }

  /** The pick, the claim, and what the claimed job works on. */
  lemma HoldStart(cal: Calendar, s: State, c: Choice)
    requires HoldInv(s.rows, s.issued, s.worker, s.log.orphans)
    requires s.worker.Idle? || s.worker.Picked? || s.worker.Claimed?
    ensures HoldAfter(s, WorkerMove(cal, s, c))
  {
    hide IsArmed, Listing, Entries, IsOldestPending, Judge, Enqueue, Return;
  }

  lemma HoldPlain(cal: Calendar, s: State, c: Choice)
    requires HoldInv(s.rows, s.issued, s.worker, s.log.orphans)
    requires Held(s.worker).Some? && !s.worker.Claimed? && !s.worker.Judged?
    ensures HoldAfter(s, WorkerMove(cal, s, c))
  {
    hide Begin, Resolve, Judge, Enqueue;
  }

  lemma HoldMove(cal: Calendar, s: State, c: Choice)
    requires HoldInv(s.rows, s.issued, s.worker, s.log.orphans)
    ensures HoldAfter(s, WorkerMove(cal, s, c))
  {
    hide HoldInv, HoldAfter, WorkerMove;
    if s.worker.Judged? {
      HoldJudge(cal, s, c);
    } else if s.worker.Polled? || s.worker.Scan? || s.worker.Due? || s.worker.Queued? {
      HoldEnqueue(cal, s, c);
    } else if Held(s.worker).None? || s.worker.Claimed? {
      HoldStart(cal, s, c);
    } else {
      HoldPlain(cal, s, c);
    }
  }

  lemma HoldWorker(cal: Calendar, s: State, c: Choice)
    requires Hold(s)
    ensures Hold(WorkStep(cal, s, c))
  {
    hide HoldInv, HandlersOk, WorkerMove;
    HoldMove(cal, s, c);
  }

  lemma HoldHandler(s: State, tid: Thread)
    requires Hold(s) && tid in s.handlers
    ensures Hold(AnswerStep(s, tid, HandlerMove(s, s.handlers[tid])))
  {
  }

  lemma HoldSweep(s: State, tid: Thread, id: JobId)
    requires Hold(s) && tid in s.sweeps
    ensures Hold(PassStep(s, tid, SweepMove(s, s.sweeps[tid], id)))
  {
    hide IsStale, HandlersOk;
  }

  lemma HoldCrash(s: State)
    requires Hold(s)
    ensures Hold(CrashStep(s))
  {
  }

  lemma HoldAsk(s: State, tid: Thread, op: Op, id: JobId)
    requires Hold(s) && id in s.rows
    ensures Hold(AnswerStep(s, tid, Respond(s.rows[id], op, id)))
  {
    hide HoldInv;
  }

  lemma HoldInsert(s: State, id: JobId, task: Task, bytes: Bytes)
    requires Hold(s) && CanSubmit(s, id, task)
    ensures Hold(PlainStep(s, Insert(id, NewRow(task, s.now), bytes)))
  {
    hide HandlersOk;
  }

  lemma HoldRest(cal: Calendar, s: State, a: Action)
    requires Hold(s) && (a.Elapse? || a.SweepList? || a.Beat? || a.BeatEnd? || a.Configure? || a.Disturb?)
    ensures Hold(Step(cal, s, a))
  {
    hide WorkStep, AnswerStep, CrashStep, HandlerMove, SweepMove, HandlersOk, CanSubmit, Respond;
  }

  lemma HoldStep(cal: Calendar, s: State, a: Action)
    requires Hold(s)
    ensures Hold(Step(cal, s, a))
  {
    hide Hold, CanSubmit, Respond, WorkStep, HandlerMove, SweepMove, AnswerStep, PassStep, PlainStep, CrashStep;
    match a {
      case Work(c) => HoldWorker(cal, s, c);
      case Handle(tid) => if tid in s.handlers { HoldHandler(s, tid); }
      case SweepNext(tid, id) => if tid in s.sweeps { HoldSweep(s, tid, id); }
      case Ask(tid, op, id) => if tid !in s.handlers && id in s.rows { HoldAsk(s, tid, op, id); }
      case Submit(id, task, bytes) => if CanSubmit(s, id, task) { HoldInsert(s, id, task, bytes); }
      case Crash => HoldCrash(s);
      case _ => HoldRest(cal, s, a);
    }
  }

  // ---- The registry holds one run, with its last accepted reason ---------------------------------

  /** The run the worker is inside of, from its registration until its result is handled. */
  function RunOf(w: Worker): Option<Run> {
    match w
    case Active(_, _, run) => Some(run)
    case Stopped(_, _, run, _) => Some(run)
    case Left(_, _, run, _, _) => Some(run)
    case Judged(_, _, run, _, _, _) => Some(run)
    case _ => None
  }

  predicate WasInterrupted(w: Worker) {
    (w.Stopped? || w.Left? || w.Judged?) && w.outcome == Interrupted
  }

  /** One entry while a run is registered, with the last reason accepted for that run; else nothing. */
  function ExpectedRegistry(w: Worker, accepted: map<Run, Reason>): Registry {
    if w.Active? || w.Stopped? then
      Registry(map[w.id := w.run], if w.run in accepted then map[w.id := accepted[w.run]] else map[])
    else EMPTY_REGISTRY
  }

  ghost predicate RunInv(w: Worker, reg: Registry, accepted: map<Run, Reason>, cancelled: set<Run>, nextRun: Run, stopped: set<JobId>) {
    && reg == ExpectedRegistry(w, accepted)
    && (forall r :: r in accepted ==> r < nextRun)
    && (forall r :: r in cancelled ==> r in accepted)
    && (RunOf(w).Some? ==>
          var run := RunOf(w).value;
          && run < nextRun
          && (w.Left? || w.Judged? ==> w.reason == Lookup(accepted, run))
          && (WasInterrupted(w) ==> run in cancelled)
          && (run in accepted && accepted[run] != ForPause ==> w.id in stopped))
  }

  ghost predicate CallsInv(handlers: map<Thread, Handler>, accepted: map<Run, Reason>, stopped: set<JobId>) {
    && (forall t :: t in handlers && handlers[t].StopCall? ==> handlers[t].run in accepted)
    && (forall t :: t in handlers && handlers[t].StopAsk? && handlers[t].reason != ForPause ==> handlers[t].id in stopped)
    && (forall t :: t in handlers && handlers[t].StopCall? && handlers[t].reason != ForPause ==> handlers[t].id in stopped)
    && (forall t :: t in handlers && handlers[t].Wipe? ==> handlers[t].id in stopped)
  }

  ghost predicate RegistryInv(s: State) {
    && RunInv(s.worker, s.reg, s.log.accepted, s.cancelled, s.nextRun, s.log.stopped)
    && CallsInv(s.handlers, s.log.accepted, s.log.stopped)
  }

  ghost predicate RunAfter(s: State, m: Move) {
    && !m.effect.RequestStop? && !m.effect.CancelContext? && !m.note.StopWanted?
    && RunInv(m.worker, RegAfter(s.reg, m.effect, s.nextRun), s.log.accepted, s.cancelled,
              if m.effect.Register? then s.nextRun + 1 else s.nextRun, s.log.stopped)
  }

  /** The moves from the registration of a run to the handling of its result. */
  lemma RegInside(cal: Calendar, s: State, c: Choice)
    requires RunInv(s.worker, s.reg, s.log.accepted, s.cancelled, s.nextRun, s.log.stopped)
    requires s.worker.Ready? || RunOf(s.worker).Some?
    ensures RunAfter(s, WorkerMove(cal, s, c))
  {
    hide NextTime, StatusOf, Begin, Enqueue, Resolve;
  }

  lemma RegOutside(cal: Calendar, s: State, c: Choice)
    requires RunInv(s.worker, s.reg, s.log.accepted, s.cancelled, s.nextRun, s.log.stopped)
    requires !s.worker.Ready? && RunOf(s.worker).None?
    ensures RunAfter(s, WorkerMove(cal, s, c))
  {
    hide IsArmed, IsDue, CatchUpTime, HasActiveSnapshot, Listing, Entries, IsOldestPending, Fired, Resumes,
      StatusOf, Return, Judge;
  }

  lemma RegMove(cal: Calendar, s: State, c: Choice)
    requires RunInv(s.worker, s.reg, s.log.accepted, s.cancelled, s.nextRun, s.log.stopped)
    ensures RunAfter(s, WorkerMove(cal, s, c))
  {
    if s.worker.Ready? || RunOf(s.worker).Some? {
      RegInside(cal, s, c);
    } else {
      RegOutside(cal, s, c);
    }
  }

  lemma RegWorker(cal: Calendar, s: State, c: Choice)
    requires RegistryInv(s)
    ensures RegistryInv(WorkStep(cal, s, c))
  {
    hide RunInv, CallsInv, WorkerMove;
    RegMove(cal, s, c);
  }

  lemma RegAsk(s: State, tid: Thread, op: Op, id: JobId)
    requires RegistryInv(s) && id in s.rows
    ensures RegistryInv(AnswerStep(s, tid, Respond(s.rows[id], op, id)))
  {
  }

  lemma RunHandler(s: State, h: Handler)
    requires RunInv(s.worker, s.reg, s.log.accepted, s.cancelled, s.nextRun, s.log.stopped)
    requires h.StopCall? ==> h.run in s.log.accepted
    requires h.StopAsk? && h.reason != ForPause ==> h.id in s.log.stopped
    ensures
      var e := HandlerMove(s, h).effect;
      RunInv(s.worker, RegAfter(s.reg, e, s.nextRun), AcceptedAfter(s.log.accepted, s.reg, e),
             if e.CancelContext? then s.cancelled + {e.run} else s.cancelled, s.nextRun, s.log.stopped)
  {
    if h.StopAsk? && h.id in s.reg.cancels {
      var accepted := s.log.accepted[s.reg.cancels[h.id] := h.reason];
      assert s.reg.reasons[h.id := h.reason] == ExpectedRegistry(s.worker, accepted).reasons;
    }
  }

  lemma CallsHandler(s: State, tid: Thread)
    requires CallsInv(s.handlers, s.log.accepted, s.log.stopped) && tid in s.handlers
    ensures
      var a := HandlerMove(s, s.handlers[tid]);
      CallsInv(Place(s.handlers, tid, a.handler), AcceptedAfter(s.log.accepted, s.reg, a.effect), s.log.stopped)
  {
  }

  lemma RegHandler(s: State, tid: Thread)
    requires RegistryInv(s) && tid in s.handlers
    ensures RegistryInv(AnswerStep(s, tid, HandlerMove(s, s.handlers[tid])))
  {
    assert CallsInv(s.handlers, s.log.accepted, s.log.stopped);
    RunHandler(s, s.handlers[tid]);
    CallsHandler(s, tid);
    AnswersKeepQuiet(s, s.handlers[tid]);
    hide RunInv, CallsInv, HandlerMove;
  }

  lemma AnswersKeepQuiet(s: State, h: Handler)
    ensures !HandlerMove(s, h).effect.Register? && HandlerMove(s, h).note.Quiet?
  {
  }

  lemma RegAskStep(cal: Calendar, s: State, a: Action)
    requires RegistryInv(s) && a.Ask?
    ensures RegistryInv(Step(cal, s, a))
  {
    hide RunInv, CallsInv, Respond, WorkStep;
    if a.tid !in s.handlers && a.id in s.rows {
      RegAsk(s, a.tid, a.op, a.id);
    }
  }

  lemma RegRest(cal: Calendar, s: State, a: Action)
    requires RegistryInv(s) && !a.Work? && !a.Ask? && !a.Handle? && !a.Crash?
    ensures RegistryInv(Step(cal, s, a))
  {
    if a.SweepNext? && a.tid in s.sweeps {
      PassesKeepRegistry(s, s.sweeps[a.tid], a.id);
    }
    hide RunInv, CallsInv, WorkStep, AnswerStep, CrashStep, SweepMove, CanSubmit;
  }

  lemma RegCrash(s: State)
    requires RegistryInv(s)
    ensures RegistryInv(CrashStep(s))
  {
  }

  lemma RegStep(cal: Calendar, s: State, a: Action)
    requires RegistryInv(s)
    ensures RegistryInv(Step(cal, s, a))
  {
    hide RegistryInv, WorkStep, AnswerStep, PassStep, PlainStep, CrashStep, HandlerMove, Respond, SweepMove,
      CanSubmit;
    match a {
      case Work(c) => RegWorker(cal, s, c);
      case Ask(_, _, _) => RegAskStep(cal, s, a);
      case Handle(tid) => if tid in s.handlers { RegHandler(s, tid); }
      case Crash => RegCrash(s);
      case _ => RegRest(cal, s, a);
    }
  }

  lemma PassesKeepRegistry(s: State, sw: Sweep, id: JobId)
    ensures
      var p := SweepMove(s, sw, id);
      (p.effect.Nothing? || p.effect.Sql? || p.effect.Unlink?) && !p.note.StopWanted?
  {
  }

  // ---- Runs ------------------------------------------------------------------------------------

  ghost predicate Owned(s: State) {
    Hold(s) && RegistryInv(s)
  }

  lemma {:induction false} AlwaysOwned(cal: Calendar, s: State, acts: seq<Action>)
    requires Init(s)
    ensures Owned(RunAll(cal, s, acts))
  {
    hide Step;
    if acts != [] {
      AlwaysOwned(cal, s, acts[..|acts| - 1]);
      HoldStep(cal, RunAll(cal, s, acts[..|acts| - 1]), acts[|acts| - 1]);
      RegStep(cal, RunAll(cal, s, acts[..|acts| - 1]), acts[|acts| - 1]);
    }
  }

  predicate CrashFree(acts: seq<Action>) {
    forall i :: 0 <= i < |acts| ==> acts[i] != Crash
  }

  lemma OrphansOnlyByCrash(cal: Calendar, s: State, a: Action)
    requires s.log.orphans == {} && a != Crash
    ensures Step(cal, s, a).log.orphans == {}
  {
    hide WorkerMove, HandlerMove, Respond, SweepMove, CanSubmit, CrashStep;
  }

  lemma {:induction false} NoOrphans(cal: Calendar, s: State, acts: seq<Action>)
    requires Init(s) && CrashFree(acts)
    ensures RunAll(cal, s, acts).log.orphans == {}
  {
    hide Step;
    if acts != [] {
      NoOrphans(cal, s, acts[..|acts| - 1]);
      OrphansOnlyByCrash(cal, RunAll(cal, s, acts[..|acts| - 1]), acts[|acts| - 1]);
    }
  }

  /** In every crash-free interleaving: a running row is the job the worker holds, the cancel registry
      holds at most that job, and stop reasons exist only for registered jobs. */
  lemma Ownership(cal: Calendar, s: State, acts: seq<Action>)
    requires Init(s) && CrashFree(acts)
    ensures
      var e := RunAll(cal, s, acts);
      && (forall i :: StatusOf(e.rows, i) == Some(Running) ==> Held(e.worker) == Some(i))
      && (forall i :: i in e.reg.cancels ==> Held(e.worker) == Some(i))
      && (forall i :: i in e.reg.reasons ==> i in e.reg.cancels)
  {
    hide RunAll;
    AlwaysOwned(cal, s, acts);
    NoOrphans(cal, s, acts);
  }

  /** With crashes: a row that is running without being held was running when a crash happened, and
      the registry facts still hold. */
  lemma OwnershipAfterCrash(cal: Calendar, s: State, acts: seq<Action>)
    requires Init(s)
    ensures
      var e := RunAll(cal, s, acts);
      && (forall i :: StatusOf(e.rows, i) == Some(Running) && Held(e.worker) != Some(i) ==> i in e.log.orphans)
      && (forall i :: i in e.reg.cancels ==> Held(e.worker) == Some(i))
      && (forall i :: i in e.reg.reasons ==> i in e.reg.cancels)
  {
    hide RunAll;
    AlwaysOwned(cal, s, acts);
  }

  /** An accepted stop reaches unregister: a run leaves the registry with exactly the last reason
      accepted for it. An interrupted transfer therefore always has a reason, and the branch for an
      interruption without one is never taken. */
  lemma StopReachesUnregister(cal: Calendar, s: State, acts: seq<Action>)
    requires Init(s)
    ensures
      var e := RunAll(cal, s, acts);
      && (e.worker.Left? || e.worker.Judged? ==> e.worker.reason == Lookup(e.log.accepted, e.worker.run))
      && ((e.worker.Left? || e.worker.Judged?) && e.worker.outcome == Interrupted ==> e.worker.reason.Some?)
  {
    hide RunAll;
    AlwaysOwned(cal, s, acts);
  }
}
